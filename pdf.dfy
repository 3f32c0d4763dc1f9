/** The text helpers of the summary PDF (prosessering/v1/PdfV1Generator.kt):
    the values the template is given and the template helpers that turn
    values into Norwegian text. Rendering the template and the PDF is not
    part of this model. Letters are lower- and upper-cased as ASCII. */
module PdfTekst {
  import opened Common
  import opened Melding

  // ---- names ----

  /** `Søker.formatertNavn`: the names separated by single spaces, the middle
      name only when there is one. */
  function FormatertNavn(s: Soker): (r: string)
    ensures s.mellomnavn.Some? ==> |r| == |s.fornavn| + |s.mellomnavn.value| + |s.etternavn| + 2
    ensures s.mellomnavn.None? ==> |r| == |s.fornavn| + |s.etternavn| + 1
  {
    match s.mellomnavn
    case Some(m) => s.fornavn + " " + m + " " + s.etternavn
    case None => s.fornavn + " " + s.etternavn
  }

  /** `split(" ")`: the pieces between the spaces, empty ones included;
      there is always at least one. */
  function Split(s: string): (ws: seq<string>)
    ensures |ws| >= 1
    ensures forall i :: 0 <= i < |ws| ==> ' ' !in ws[i]
  {
    if s == [] then [""]
    else
      var rest := Split(s[1..]);
      if s[0] == ' ' then [""] + rest
      else [[s[0]] + rest[0]] + rest[1..]
  }

  /** `joinToString(" ")`. */
  function Join(ws: seq<string>): string {
    if ws == [] then ""
    else if |ws| == 1 then ws[0]
    else ws[0] + " " + Join(ws[1..])
  }

  /** Splitting and joining again gives the input back. */
  lemma {:induction false} JoinSplit(s: string)
    ensures Join(Split(s)) == s
    decreases |s|
  {
    if s != [] {
      JoinSplit(s[1..]);
      var rest := Split(s[1..]);
      if s[0] == ' ' {
        assert s == " " + s[1..];
      } else {
        if |rest| == 1 {
          assert s == [s[0]] + rest[0];
        } else {
          assert Join(rest) == rest[0] + " " + Join(rest[1..]);
          assert s == [s[0]] + rest[0] + " " + Join(rest[1..]);
        }
      }
    }
  }

  /** A piece without spaces in front of a string joins its first piece. */
  lemma {:induction false} SplitForan(w: string, t: string)
    requires ' ' !in w
    ensures Split(w + t) == [w + Split(t)[0]] + Split(t)[1..]
    decreases |w|
  {
    if w != [] {
      assert (w + t)[1..] == w[1..] + t;
      assert w[0] in w;
      SplitForan(w[1..], t);
      assert [w[0]] + (w[1..] + Split(t)[0]) == w + Split(t)[0];
    } else {
      assert w + t == t;
      assert Split(t) == [Split(t)[0]] + Split(t)[1..];
      assert w + Split(t)[0] == Split(t)[0];
    }
  }

  /** Joining pieces without spaces and splitting again gives the pieces back. */
  lemma {:induction false} SplitJoin(ws: seq<string>)
    requires |ws| >= 1
    requires forall i :: 0 <= i < |ws| ==> ' ' !in ws[i]
    ensures Split(Join(ws)) == ws
    decreases |ws|
  {
    if |ws| == 1 {
      SplitForan(ws[0], "");
      assert ws[0] + "" == ws[0];
    } else {
      var t := Join(ws[1..]);
      SplitJoin(ws[1..]);
      assert Split(" " + t) == [""] + Split(t);
      assert ws[0] + " " + t == ws[0] + (" " + t);
      SplitForan(ws[0], " " + t);
      assert ws[0] + "" == ws[0];
    }
  }

  lemma LowerUpperLower(c: char)
    ensures LowerChar(UpperChar(LowerChar(c))) == LowerChar(c)
    ensures LowerChar(LowerChar(c)) == LowerChar(c)
    ensures c != ' ' ==> LowerChar(c) != ' ' && UpperChar(LowerChar(c)) != ' '
  {
  }

  /** One word lower-cased, then its first letter upper-cased
      (`toLowerCase().capitalize()`). */
  function CapitalizeWord(w: string): (r: string)
    ensures |r| == |w|
    ensures r != [] ==> r[0] == UpperChar(LowerChar(w[0]))
    ensures forall i :: 1 <= i < |w| ==> r[i] == LowerChar(w[i])
  {
    var l := Lowercase(w);
    if l == [] then [] else [UpperChar(l[0])] + l[1..]
  }

  /** Capitalising a word leaves no space where there was none, and
      capitalising twice is capitalising once. */
  lemma CapitalizeWordEgenskaper(w: string)
    ensures ' ' !in w ==> ' ' !in CapitalizeWord(w)
    ensures CapitalizeWord(CapitalizeWord(w)) == CapitalizeWord(w)
  {
    var r := CapitalizeWord(w);
    forall i | 0 <= i < |w|
      ensures LowerChar(r[i]) == LowerChar(w[i])
      ensures w[i] != ' ' ==> r[i] != ' '
    {
      LowerUpperLower(w[i]);
    }
    if ' ' !in w {
      forall i | 0 <= i < |r| ensures r[i] != ' ' {
        assert w[i] in w;
      }
    }
    var rr := CapitalizeWord(r);
    forall i | 0 <= i < |w| ensures rr[i] == r[i] {
      LowerUpperLower(w[i]);
    }
  }

  function CapitalizeWords(ws: seq<string>): (r: seq<string>)
    ensures |r| == |ws|
    ensures forall i :: 0 <= i < |ws| ==> r[i] == CapitalizeWord(ws[i])
  {
    if ws == [] then [] else [CapitalizeWord(ws[0])] + CapitalizeWords(ws[1..])
  }

  /** `capitalizeName`: every space-separated word lower-cased with a
      capital first letter. */
  function CapitalizeName(s: string): string {
    Join(CapitalizeWords(Split(s)))
  }

  /** The words of the result are the input's words, each capitalised: the
      spaces stay where they were and the word count is kept. */
  lemma CapitalizeNameOrd(s: string)
    ensures Split(CapitalizeName(s)) == CapitalizeWords(Split(s))
    ensures |Split(CapitalizeName(s))| == |Split(s)|
  {
    var ws := Split(s);
    forall i | 0 <= i < |ws| ensures ' ' !in CapitalizeWord(ws[i]) {
      CapitalizeWordEgenskaper(ws[i]);
    }
    SplitJoin(CapitalizeWords(ws));
  }

  /** Capitalising a capitalised name changes nothing. */
  lemma CapitalizeNameIdempotent(s: string)
    ensures CapitalizeName(CapitalizeName(s)) == CapitalizeName(s)
  {
    CapitalizeNameOrd(s);
    var ws := CapitalizeWords(Split(s));
    forall i | 0 <= i < |ws| ensures CapitalizeWord(ws[i]) == ws[i] {
      CapitalizeWordEgenskaper(Split(s)[i]);
    }
    assert CapitalizeWords(ws) == ws;
  }

  /** The name shown in the summary: with space-free names its words are the
      applicant's names, each capitalised, in order. */
  lemma FormatertNavnOrd(s: Soker)
    requires ' ' !in s.fornavn && ' ' !in s.etternavn
    requires s.mellomnavn.Some? ==> ' ' !in s.mellomnavn.value
    ensures s.mellomnavn.Some? ==>
              Split(CapitalizeName(FormatertNavn(s)))
              == [CapitalizeWord(s.fornavn), CapitalizeWord(s.mellomnavn.value), CapitalizeWord(s.etternavn)]
    ensures s.mellomnavn.None? ==>
              Split(CapitalizeName(FormatertNavn(s))) == [CapitalizeWord(s.fornavn), CapitalizeWord(s.etternavn)]
  {
    var ws;
    if s.mellomnavn.Some? {
      ws := [s.fornavn, s.mellomnavn.value, s.etternavn];
      assert ws[1..] == [s.mellomnavn.value, s.etternavn] && ws[1..][1..] == [s.etternavn];
      assert Join(ws[1..][1..]) == s.etternavn;
      assert Join(ws[1..]) == s.mellomnavn.value + " " + s.etternavn;
      assert Join(ws) == s.fornavn + " " + (s.mellomnavn.value + " " + s.etternavn);
    } else {
      ws := [s.fornavn, s.etternavn];
      assert ws[1..] == [s.etternavn];
      assert Join(ws) == s.fornavn + " " + s.etternavn;
    }
    assert Join(ws) == FormatertNavn(s);
    SplitJoin(ws);
    CapitalizeNameOrd(FormatertNavn(s));
  }

  // ---- language ----

  /** `sprakTilTekst`: "nb" and "nn" in any case become the language's name;
      anything else is shown as given. */
  function SprakTilTekst(sprak: string): (r: string)
    ensures Lowercase(sprak) == "nb" ==> r == "Bokmål"
    ensures Lowercase(sprak) == "nn" ==> r == "Nynorsk"
    ensures Lowercase(sprak) != "nb" && Lowercase(sprak) != "nn" ==> r == sprak
  {
    var l := Lowercase(sprak);
    if l == "nb" then "Bokmål" else if l == "nn" then "Nynorsk" else sprak
  }

  /** The case of a known language code does not matter: two spellings that
      lower-case alike get the same name. */
  lemma SprakUavhengigAvStorBokstav(a: string, b: string)
    requires Lowercase(a) == Lowercase(b) && Lowercase(a) in {"nb", "nn"}
    ensures SprakTilTekst(a) == SprakTilTekst(b) != a
  {
  }

  /** Examples: the upper- and mixed-case codes, and an unknown code. */
  lemma SprakEksempler()
    ensures SprakTilTekst("NB") == SprakTilTekst("nb") == SprakTilTekst("Nb") == "Bokmål"
    ensures SprakTilTekst("NN") == SprakTilTekst("nn") == SprakTilTekst("nN") == "Nynorsk"
    ensures SprakTilTekst("en") == "en"
  {
    assert Lowercase("NB") == "nb";
    assert Lowercase("Nb") == "nb";
    assert Lowercase("nb") == "nb";
    assert Lowercase("NN") == "nn";
    assert Lowercase("nN") == "nn";
    assert Lowercase("nn") == "nn";
    assert Lowercase("en") == "en";
  }

  // ---- durations ----

  /** `Duration.tilString` for a duration of `sekunder` seconds (the
      nanoseconds do not reach any of the parts used). Whole hours give the
      total hours; otherwise the hour part within the day and the minute part
      are shown. */
  function VarighetTilString(sekunder: int): string {
    var minutter := Quot(sekunder, 60);
    var minuttDel := Rem(minutter, 60);
    var timer := Quot(sekunder, 3600);
    if minuttDel == 0 then IntToString(timer) + " timer"
    else IntToString(Rem(timer, 24)) + " timer og " + IntToString(minuttDel) + " minutter"
  }

  /** Whole hours (plus stray seconds) print as the total hour count, however
      many days they make. */
  lemma VarighetHeleTimer(timer: nat, sek: nat)
    requires sek < 60
    ensures VarighetTilString(timer * 3600 + sek) == NatToString(timer) + " timer"
  {
    HeleTimerDeler(timer, sek);
    VarighetHeleMinutter(timer * 3600 + sek, timer);
  }

  lemma HeleTimerDeler(timer: nat, sek: nat)
    requires sek < 60
    ensures Rem(Quot(timer * 3600 + sek, 60), 60) == 0
    ensures Quot(timer * 3600 + sek, 3600) == timer
  {
    var s := timer * 3600 + sek;
    QuotEntydig(s, 60, timer * 60);
    QuotEntydig(timer * 60, 60, timer);
    QuotEntydig(s, 3600, timer);
  }

  lemma VarighetHeleMinutter(s: int, timer: nat)
    requires Rem(Quot(s, 60), 60) == 0 && Quot(s, 3600) == timer
    ensures VarighetTilString(s) == NatToString(timer) + " timer"
  {
  }


  /** Within a day, hours and minutes print as they are. */
  lemma VarighetTimerOgMinutter(timer: nat, minutter: nat, sek: nat)
    requires timer < 24 && 0 < minutter < 60 && sek < 60
    ensures VarighetTilString(timer * 3600 + minutter * 60 + sek)
            == NatToString(timer) + " timer og " + NatToString(minutter) + " minutter"
  {
    TimerOgMinutterDeler(timer, minutter, sek);
    QuotEntydig(timer, 24, 0);
    VarighetMedMinutter(timer * 3600 + minutter * 60 + sek, timer, minutter);
  }

  lemma TimerOgMinutterDeler(timer: nat, minutter: nat, sek: nat)
    requires 0 < minutter < 60 && sek < 60
    ensures Rem(Quot(timer * 3600 + minutter * 60 + sek, 60), 60) == minutter
    ensures Quot(timer * 3600 + minutter * 60 + sek, 3600) == timer
  {
    var s := timer * 3600 + minutter * 60 + sek;
    QuotEntydig(s, 60, timer * 60 + minutter);
    QuotEntydig(timer * 60 + minutter, 60, timer);
    QuotEntydig(s, 3600, timer);
  }

  lemma VarighetMedMinutter(s: int, timer: nat, minutter: nat)
    requires Quot(s, 3600) == timer && Rem(Quot(s, 60), 60) == minutter > 0
    ensures VarighetTilString(s)
            == NatToString(Rem(timer, 24)) + " timer og " + NatToString(minutter) + " minutter"
  {
  }

  /** An example: 25 hours 30 minutes print as one hour and 30
      minutes, while 25 hours print as 25. */
  lemma VarighetDropperDager()
    ensures VarighetTilString(25 * 3600 + 30 * 60) == "1 timer og 30 minutter"
    ensures VarighetTilString(25 * 3600) == "25 timer"
  {
    VarighetTjuefemOgEnHalv();
    VarighetTjuefem();
  }

  lemma VarighetTjuefem()
    ensures VarighetTilString(25 * 3600) == "25 timer"
  {
    VarighetHeleTimer(25, 0);
    Tall();
    assert "25" + " timer" == "25 timer";
  }

  lemma VarighetTjuefemOgEnHalv()
    ensures VarighetTilString(25 * 3600 + 30 * 60) == "1 timer og 30 minutter"
  {
    TimerOgMinutterDeler(25, 30, 0);
    Tall();
    VarighetMedMinutter(25 * 3600 + 30 * 60 + 0, 25, 30);
    assert "1" + " timer og " + "30" + " minutter" == "1 timer og 30 minutter";
  }

  lemma Tall()
    ensures NatToString(25) == "25" && NatToString(30) == "30"
    ensures Rem(25, 24) == 1 && NatToString(1) == "1"
  {
    QuotEntydig(25, 24, 1);
  }

  /** For a non-negative dividend the truncating quotient is the one `q`
      with `q * b <= a < q * b + b`. */
  lemma QuotEntydig(a: nat, b: int, q: nat)
    requires b > 0 && q * b <= a < q * b + b
    ensures Quot(a, b) == q
  {
    var p := Quot(a, b);
    assert p * b <= a < p * b + b;
    assert p * b < (q + 1) * b;
    MulMindre(p, q + 1, b);
    assert q * b < (p + 1) * b;
    MulMindre(q, p + 1, b);
  }

  lemma MulMindre(x: int, y: int, b: int)
    requires b > 0 && x * b < y * b
    ensures x < y
  {
    assert (y - x) * b == y * b - x * b;
  }

  // ---- template helpers ----

  /** `jaNeiSvar`: "Ja" only for true; false and a missing value give "Nei". */
  function JaNeiSvar(verdi: Option<bool>): (r: string)
    ensures r == "Ja" <==> verdi == Some(true)
    ensures r == "Nei" <==> verdi != Some(true)
  {
    if verdi == Some(true) then "Ja" else "Nei"
  }

  /** `fraværSomFormat`: the lead-in for one or two activities, nothing
      otherwise. */
  function FravaerSomFormat(aktiviteter: seq<string>): (r: string)
    ensures |aktiviteter| == 1 ==> r == "Fravær som"
    ensures |aktiviteter| == 2 ==> r == "Fravær både som"
    ensures r == "" <==> |aktiviteter| != 1 && |aktiviteter| != 2
  {
    if |aktiviteter| == 1 then "Fravær som"
    else if |aktiviteter| == 2 then "Fravær både som"
    else ""
  }

  /** `FraværÅrsak.valueOf`: the enum constant with that exact name. */
  function ArsakVerdi(navn: string): (r: Result<FravaerArsak>)
    ensures r.Ok? <==> navn in {"ORDINÆRT_FRAVÆR", "STENGT_SKOLE_ELLER_BARNEHAGE", "SMITTEVERNHENSYN"}
    ensures r.Err? ==> r.error.IllegalArgumentException?
  {
    if navn == "ORDINÆRT_FRAVÆR" then Ok(ORDINAERT_FRAVAER)
    else if navn == "STENGT_SKOLE_ELLER_BARNEHAGE" then Ok(STENGT_SKOLE_ELLER_BARNEHAGE)
    else if navn == "SMITTEVERNHENSYN" then Ok(SMITTEVERNHENSYN)
    else Err(IllegalArgumentException("No enum constant FraværÅrsak." + navn))
  }

  function ArsakTekst(a: FravaerArsak): (r: string)
    ensures a == ORDINAERT_FRAVAER ==> r == "Ordinært fravær"
    ensures a == STENGT_SKOLE_ELLER_BARNEHAGE ==> r == "Stengt skole eller barnehage"
    ensures a == SMITTEVERNHENSYN ==> r == "Smittevernhensyn"
  {
    match a
    case ORDINAERT_FRAVAER => "Ordinært fravær"
    case STENGT_SKOLE_ELLER_BARNEHAGE => "Stengt skole eller barnehage"
    case SMITTEVERNHENSYN => "Smittevernhensyn"
  }

  /** The `årsak` helper: the label of the named cause; an unknown name
      throws. */
  function ArsakHelper(navn: string): (r: Result<string>)
    ensures r.Ok? <==> ArsakVerdi(navn).Ok?
    ensures r.Ok? ==> r.value == ArsakTekst(ArsakVerdi(navn).value)
  {
    match ArsakVerdi(navn)
    case Ok(a) => Ok(ArsakTekst(a))
    case Err(e) => Err(e)
  }

  /** Different causes get different labels. */
  lemma ArsakTekstInjektiv(a: FravaerArsak, b: FravaerArsak)
    ensures ArsakTekst(a) == ArsakTekst(b) <==> a == b
  {
  }

  /** `Næringstyper.valueOf`: the enum constant with that exact name. */
  function NaeringstypeVerdi(navn: string): (r: Result<Naeringstyper>)
    ensures r.Ok? <==> navn in {"FISKE", "JORDBRUK_SKOGBRUK", "DAGMAMMA", "ANNEN"}
    ensures r.Err? ==> r.error.IllegalArgumentException?
  {
    if navn == "FISKE" then Ok(FISKE)
    else if navn == "JORDBRUK_SKOGBRUK" then Ok(JORDBRUK_SKOGBRUK)
    else if navn == "DAGMAMMA" then Ok(DAGMAMMA)
    else if navn == "ANNEN" then Ok(ANNEN)
    else Err(IllegalArgumentException("No enum constant Næringstyper." + navn))
  }

  /** The `enumNæringstyper` helper: the description of the named business
      type; an unknown name throws. */
  function NaeringstypeHelper(navn: string): (r: Result<string>)
    ensures r.Ok? <==> NaeringstypeVerdi(navn).Ok?
    ensures navn == "FISKE" ==> r == Ok("Fiske")
    ensures navn == "JORDBRUK_SKOGBRUK" ==> r == Ok("Jordbruk/skogbruk")
    ensures navn == "DAGMAMMA" ==> r == Ok("Dagmamma eller familiebarnehage i eget hjem")
    ensures navn == "ANNEN" ==> r == Ok("Annen")
  {
    match NaeringstypeVerdi(navn)
    case Ok(t) => Ok(t.Beskrivelse())
    case Err(e) => Err(e)
  }

  /** Different business types get different descriptions. */
  lemma BeskrivelseInjektiv(a: Naeringstyper, b: Naeringstyper)
    ensures a.Beskrivelse() == b.Beskrivelse() <==> a == b
  {
  }

  /** `AktivitetFravær.valueOf`. */
  function AktivitetVerdi(navn: string): (r: Result<AktivitetFravaer>)
    ensures r.Ok? <==> navn in {"FRILANSER", "SELVSTENDIG_VIRKSOMHET"}
    ensures r.Err? ==> r.error.IllegalArgumentException?
  {
    if navn == "FRILANSER" then Ok(FRILANSER)
    else if navn == "SELVSTENDIG_VIRKSOMHET" then Ok(SELVSTENDIG_VIRKSOMHET)
    else Err(IllegalArgumentException("No enum constant AktivitetFravær." + navn))
  }

  function AktivitetTekst(a: AktivitetFravaer): (r: string)
    ensures a == FRILANSER ==> r == "frilanser"
    ensures a == SELVSTENDIG_VIRKSOMHET ==> r == "selvstendig næringsdrivende"
  {
    match a
    case FRILANSER => "frilanser"
    case SELVSTENDIG_VIRKSOMHET => "selvstendig næringsdrivende"
  }

  /** The `aktivitetFravær` helper. */
  function AktivitetHelper(navn: string): (r: Result<string>)
    ensures r.Ok? <==> AktivitetVerdi(navn).Ok?
    ensures r.Ok? ==> r.value == AktivitetTekst(AktivitetVerdi(navn).value)
  {
    match AktivitetVerdi(navn)
    case Ok(a) => Ok(AktivitetTekst(a))
    case Err(e) => Err(e)
  }

  // ---- values given to the template ----

  /** `siste12`: some residence started before the day of receipt or ended
      on it. */
  function Siste12(bosteder: seq<Bosted>, mottatt: LocalDate): (r: bool)
    ensures r <==> exists i :: 0 <= i < |bosteder| && (bosteder[i].fraOgMed < mottatt || bosteder[i].tilOgMed == mottatt)
  {
    if bosteder == [] then false
    else
      assert forall i :: 1 <= i < |bosteder| ==> bosteder[i] == bosteder[1..][i - 1];
      bosteder[0].fraOgMed < mottatt || bosteder[0].tilOgMed == mottatt || Siste12(bosteder[1..], mottatt)
  }

  /** `neste12`: some residence starts on or after the day of receipt. */
  function Neste12(bosteder: seq<Bosted>, mottatt: LocalDate): (r: bool)
    ensures r <==> exists i :: 0 <= i < |bosteder| && bosteder[i].fraOgMed >= mottatt
  {
    if bosteder == [] then false
    else
      assert forall i :: 1 <= i < |bosteder| ==> bosteder[i] == bosteder[1..][i - 1];
      bosteder[0].fraOgMed >= mottatt || Neste12(bosteder[1..], mottatt)
  }

  /** Every residence counts toward one of the two: with any residence at
      all, at least one holds; with none, neither does. */
  lemma Siste12EllerNeste12(bosteder: seq<Bosted>, mottatt: LocalDate)
    ensures bosteder != [] ==> Siste12(bosteder, mottatt) || Neste12(bosteder, mottatt)
    ensures bosteder == [] ==> !Siste12(bosteder, mottatt) && !Neste12(bosteder, mottatt)
  {
    if bosteder != [] {
      var b := bosteder[0];
      assert b.fraOgMed < mottatt || b.fraOgMed >= mottatt;
    }
  }

  /** `bekreftelserSomMap`: the two confirmations as booleans. */
  function BekreftelserSomMap(b: Bekreftelser): (m: map<string, bool>)
    ensures m.Keys == {"harBekreftetOpplysninger", "harForståttRettigheterOgPlikter"}
    ensures m["harBekreftetOpplysninger"] <==> b.harBekreftetOpplysninger == Ja
    ensures m["harForståttRettigheterOgPlikter"] <==> b.harForstattRettigheterOgPlikter == Ja
  {
    map["harBekreftetOpplysninger" := b.harBekreftetOpplysninger.Boolean(),
        "harForståttRettigheterOgPlikter" := b.harForstattRettigheterOgPlikter.Boolean()]
  }
}
