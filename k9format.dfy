/** Conversion of an application to the canonical K9 format
    (k9format/K9Format.kt). */
module K9Format {
  import opened Common
  import opened Melding
  import opened Preprosessert
  import opened K9Soknad

  const VERSJON: string := "2.0"

  function TilK9Soker(fodselsnummer: string): (s: K9Soker)
    ensures s.norskIdentitetsnummer == fodselsnummer
  {
    K9Soker(fodselsnummer)
  }

  /** `tilK9Barn`: one child per foster child, in order, carrying the foster
      child's national id and no birth date. */
  function TilK9Barn(fosterbarn: seq<FosterBarn>): (r: seq<K9Barn>)
    ensures |r| == |fosterbarn|
    ensures forall i :: 0 <= i < |r| ==>
      r[i].norskIdentitetsnummer == Some(fosterbarn[i].fodselsnummer) && r[i].fodselsdato == None
  {
    if fosterbarn == [] then []
    else [K9Barn(Some(fosterbarn[0].fodselsnummer), None)] + TilK9Barn(fosterbarn[1..])
  }

  /** `tilFraværsperiode`: one absence period per payment period, in order,
      with the same dates and the payment period's length. */
  function TilFravaersperiode(perioder: seq<Utbetalingsperiode>): (r: seq<FravaerPeriode>)
    ensures |r| == |perioder|
    ensures forall i :: 0 <= i < |r| ==>
      r[i].periode == Periode(perioder[i].fraOgMed, Some(perioder[i].tilOgMed)) && r[i].duration == perioder[i].lengde
  {
    if perioder == [] then []
    else [FravaerPeriode(Periode(perioder[0].fraOgMed, Some(perioder[0].tilOgMed)), perioder[0].lengde)]
         + TilFravaersperiode(perioder[1..])
  }

  /** The canonical type of one business type: the constant of the same name. */
  function TilK9Virksomhetstype(n: Naeringstyper): (t: VirksomhetType)
    ensures t.FISKE? <==> n.FISKE?
    ensures t.JORDBRUK_SKOGBRUK? <==> n.JORDBRUK_SKOGBRUK?
    ensures t.DAGMAMMA? <==> n.DAGMAMMA?
    ensures t.ANNEN? <==> n.ANNEN?
  {
    match n
    case FISKE => VirksomhetType.FISKE
    case JORDBRUK_SKOGBRUK => VirksomhetType.JORDBRUK_SKOGBRUK
    case DAGMAMMA => VirksomhetType.DAGMAMMA
    case ANNEN => VirksomhetType.ANNEN
  }

  /** Different business types never map to the same canonical type. */
  lemma TilK9VirksomhetstypeInjective(a: Naeringstyper, b: Naeringstyper)
    requires TilK9Virksomhetstype(a) == TilK9Virksomhetstype(b)
    ensures a == b
  {
  }

  /** `tilK9Virksomhetstyper`: maps the business types one to one, in order. */
  function TilK9Virksomhetstyper(ns: seq<Naeringstyper>): (r: seq<VirksomhetType>)
    ensures |r| == |ns|
    ensures forall i :: 0 <= i < |r| ==> r[i] == TilK9Virksomhetstype(ns[i])
  {
    if ns == [] then [] else [TilK9Virksomhetstype(ns[0])] + TilK9Virksomhetstyper(ns[1..])
  }

  /** The period key of a residence or stay. */
  function PeriodeAv(b: Bosted): Periode {
    Periode(b.fraOgMed, Some(b.tilOgMed))
  }

  /** The entry at index i is the last one in `bs` with its period. */
  predicate SistMedPeriode(bs: seq<Bosted>, i: int)
    requires 0 <= i < |bs|
  {
    forall j :: i < j < |bs| ==> PeriodeAv(bs[j]) != PeriodeAv(bs[i])
  }

  /** The period map that the loops of `tilK9Bosteder` and
      `tilK9Utenlandsopphold` fill: entry by entry, a later entry for the same
      period overwriting an earlier one. */
  function PeriodeLandMap(bs: seq<Bosted>): map<Periode, Landkode>
    decreases |bs|
  {
    if bs == [] then map[]
    else PeriodeLandMap(bs[..|bs| - 1])[PeriodeAv(bs[|bs| - 1]) := Landkode(bs[|bs| - 1].landkode)]
  }

  /** The keys of the period map are exactly the periods of the input. */
  lemma {:induction false} PeriodeLandMapKeys(bs: seq<Bosted>, k: Periode)
    ensures k in PeriodeLandMap(bs) <==> exists i :: 0 <= i < |bs| && PeriodeAv(bs[i]) == k
    decreases |bs|
  {
    if bs != [] {
      var rest := bs[..|bs| - 1];
      PeriodeLandMapKeys(rest, k);
      if k in PeriodeLandMap(bs) && k != PeriodeAv(bs[|bs| - 1]) {
        var i :| 0 <= i < |rest| && PeriodeAv(rest[i]) == k;
        assert PeriodeAv(bs[i]) == k;
      }
      if exists i :: 0 <= i < |bs| && PeriodeAv(bs[i]) == k {
        var i :| 0 <= i < |bs| && PeriodeAv(bs[i]) == k;
        if i < |rest| { assert PeriodeAv(rest[i]) == k; }
      }
    }
  }

  /** For a repeated period the last entry's country wins. */
  lemma {:induction false} PeriodeLandMapLastWins(bs: seq<Bosted>, i: int)
    requires 0 <= i < |bs| && SistMedPeriode(bs, i)
    ensures PeriodeAv(bs[i]) in PeriodeLandMap(bs)
    ensures PeriodeLandMap(bs)[PeriodeAv(bs[i])] == Landkode(bs[i].landkode)
    decreases |bs|
  {
    if i < |bs| - 1 {
      var rest := bs[..|bs| - 1];
      assert rest[i] == bs[i];
      assert SistMedPeriode(rest, i) by {
        forall j | i < j < |rest| ensures PeriodeAv(rest[j]) != PeriodeAv(rest[i]) {
          assert rest[j] == bs[j];
        }
      }
      PeriodeLandMapLastWins(rest, i);
      assert PeriodeAv(bs[|bs| - 1]) != PeriodeAv(bs[i]);
    }
  }

  /** `tilK9Bosteder`: fills a mutable map entry by entry. */
  method TilK9Bosteder(bosteder: seq<Bosted>) returns (r: Bosteder)
    ensures r == Bosteder(PeriodeLandMap(bosteder))
  {
    var perioder: map<Periode, Landkode> := map[];
    var i := 0;
    while i < |bosteder|
      invariant 0 <= i <= |bosteder|
      invariant perioder == PeriodeLandMap(bosteder[..i])
    {
      var periode := PeriodeAv(bosteder[i]);
      perioder := perioder[periode := Landkode(bosteder[i].landkode)];
      assert bosteder[..i + 1][..i] == bosteder[..i];
      i := i + 1;
    }
    assert bosteder[..i] == bosteder;
    r := Bosteder(perioder);
  }

  /** `tilK9Utenlandsopphold`: the same loop over the stays abroad. */
  method TilK9Utenlandsopphold(opphold: seq<Opphold>) returns (r: Utenlandsopphold)
    ensures r == Utenlandsopphold(PeriodeLandMap(opphold))
  {
    var perioder: map<Periode, Landkode> := map[];
    var i := 0;
    while i < |opphold|
      invariant 0 <= i <= |opphold|
      invariant perioder == PeriodeLandMap(opphold[..i])
    {
      var periode := PeriodeAv(opphold[i]);
      perioder := perioder[periode := Landkode(opphold[i].landkode)];
      assert opphold[..i + 1][..i] == opphold[..i];
      i := i + 1;
    }
    assert opphold[..i] == opphold;
    r := Utenlandsopphold(perioder);
  }

  function TilK9Frilanser(f: Frilans): (k: K9Frilanser)
    ensures k.startdato == f.startdato && k.jobberFortsattSomFrilans == f.jobberFortsattSomFrilans
  {
    K9Frilanser(f.startdato, f.jobberFortsattSomFrilans)
  }

  /** The period info of one business. Registration abroad is the negation
      of registration in Norway; a business not registered in Norway must
      name its foreign country, otherwise the non-null assertion throws. */
  function SelvstendigInfo(v: Virksomhet): (r: Result<PeriodeInfo>)
    ensures r.Err? <==> !v.registrertINorge.Boolean() && v.registrertIUtlandet.None?
    ensures r.Err? ==> r.error == NullPointerException
    ensures r.Ok? ==> r.value.registrertIUtlandet == Some(!v.registrertINorge.Boolean())
    ensures r.Ok? && v.registrertINorge == Ja ==> r.value.landkode == Some(NORGE)
    ensures r.Ok? && v.registrertINorge == Nei ==> r.value.landkode == Some(Landkode(v.registrertIUtlandet.value.landkode))
    ensures r.Ok? ==> r.value.virksomhetstyper == Some(TilK9Virksomhetstyper(v.naeringstyper))
    ensures r.Ok? ==> (r.value.bruttoInntekt.Some? <==> v.naeringsinntekt.Some?) && r.value.bruttoInntekt == v.naeringsinntekt
    ensures r.Ok? ==> r.value.erNyoppstartet == Some(v.erNyoppstartet)
    ensures r.Ok? ==> (r.value.erVarigEndring == Some(true) <==> v.varigEndring.Some?) && r.value.erVarigEndring.Some?
    ensures r.Ok? && v.varigEndring.Some? ==>
      r.value.endringDato == Some(v.varigEndring.value.dato) && r.value.endringBegrunnelse == Some(v.varigEndring.value.forklaring)
    ensures r.Ok? && v.varigEndring.None? ==> r.value.endringDato == None && r.value.endringBegrunnelse == None
    ensures r.Ok? && v.regnskapsforer.Some? ==>
      r.value.regnskapsforerNavn == Some(v.regnskapsforer.value.navn) &&
      r.value.regnskapsforerTelefon == Some(v.regnskapsforer.value.telefon)
    ensures r.Ok? && v.regnskapsforer.None? ==> r.value.regnskapsforerNavn == None && r.value.regnskapsforerTelefon == None
  {
    if !v.registrertINorge.Boolean() && v.registrertIUtlandet.None? then Err(NullPointerException)
    else
      Ok(PeriodeInfo(
        virksomhetstyper := Some(TilK9Virksomhetstyper(v.naeringstyper)),
        registrertIUtlandet := Some(!v.registrertINorge.Boolean()),
        landkode := Some(if v.registrertINorge.Boolean() then NORGE else Landkode(v.registrertIUtlandet.value.landkode)),
        bruttoInntekt := v.naeringsinntekt,
        erNyoppstartet := Some(v.erNyoppstartet),
        regnskapsforerNavn := if v.regnskapsforer.Some? then Some(v.regnskapsforer.value.navn) else None,
        regnskapsforerTelefon := if v.regnskapsforer.Some? then Some(v.regnskapsforer.value.telefon) else None,
        erVarigEndring := Some(v.varigEndring.Some?),
        endringDato := if v.varigEndring.Some? then Some(v.varigEndring.value.dato) else None,
        endringBegrunnelse := if v.varigEndring.Some? then Some(v.varigEndring.value.forklaring) else None))
  }

  /** `tilK9SelvstendingNæringsdrivendeInfo`: drives the builder step by
      step, with `erVarigEndring` first set to false and then overridden. */
  method TilK9SelvstendingNaeringsdrivendeInfo(v: Virksomhet) returns (r: Result<PeriodeInfo>)
    ensures r == SelvstendigInfo(v)
  {
    var b := new PeriodeInfoBuilder();
    b.Virksomhetstyper(TilK9Virksomhetstyper(v.naeringstyper));
    b.RegistrertIUtlandet(!v.registrertINorge.Boolean());
    if v.registrertINorge.Boolean() {
      b.SetLandkode(NORGE);
    } else if v.registrertIUtlandet.None? {
      return Err(NullPointerException);
    } else {
      b.SetLandkode(Landkode(v.registrertIUtlandet.value.landkode));
    }
    if v.naeringsinntekt.Some? {
      b.BruttoInntekt(v.naeringsinntekt.value);
    }
    b.ErNyoppstartet(v.erNyoppstartet);
    if v.regnskapsforer.Some? {
      b.Regnskapsforer(v.regnskapsforer.value.navn, v.regnskapsforer.value.telefon);
    }
    b.ErVarigEndring(false);
    if v.varigEndring.Some? {
      b.ErVarigEndring(true);
      b.Endring(v.varigEndring.value.dato, v.varigEndring.value.forklaring);
    }
    r := Ok(b.info);
  }

  /** One business in canonical form, given its period info. */
  function TilK9Virksomhet(v: Virksomhet, info: PeriodeInfo): (k: K9SelvstendigNaeringsdrivende)
    ensures k.virksomhetNavn == v.navnPaVirksomheten && k.organisasjonsnummer == v.organisasjonsnummer
    ensures k.perioder.Keys == {Periode(v.fraOgMed, v.tilOgMed)}
    ensures k.perioder[Periode(v.fraOgMed, v.tilOgMed)] == info
  {
    K9SelvstendigNaeringsdrivende(v.navnPaVirksomheten, map[Periode(v.fraOgMed, v.tilOgMed) := info], v.organisasjonsnummer)
  }

  /** The businesses in canonical form, in order; the first business whose
      period info cannot be built makes the whole conversion throw. */
  function TilK9SelvstendigNaeringsdrivende(vs: seq<Virksomhet>): (r: Result<seq<K9SelvstendigNaeringsdrivende>>)
    ensures r.Ok? <==> forall i :: 0 <= i < |vs| ==> SelvstendigInfo(vs[i]).Ok?
    ensures r.Err? ==> r.error == NullPointerException
    ensures r.Ok? ==> |r.value| == |vs|
    ensures r.Ok? ==> forall i :: 0 <= i < |vs| ==> r.value[i] == TilK9Virksomhet(vs[i], SelvstendigInfo(vs[i]).value)
  {
    if vs == [] then Ok([])
    else
      match SelvstendigInfo(vs[0])
      case Err(e) => Err(e)
      case Ok(info) =>
        match TilK9SelvstendigNaeringsdrivende(vs[1..])
        case Err(e) =>
          assert !SelvstendigInfo(vs[1..][0]).Ok? || exists i :: 0 <= i < |vs[1..]| && !SelvstendigInfo(vs[1..][i]).Ok?;
          Err(e)
        case Ok(rest) =>
          assert forall i :: 1 <= i < |vs| ==> vs[i] == vs[1..][i - 1];
          Ok([TilK9Virksomhet(vs[0], info)] + rest)
  }

  function ArbeidAktivitetAv(frilans: Option<Frilans>, virksomheter: seq<Virksomhet>): (r: Result<ArbeidAktivitet>)
    ensures r.Ok? <==> TilK9SelvstendigNaeringsdrivende(virksomheter).Ok?
    ensures r.Ok? ==> r.value.frilanser == (if frilans.Some? then Some(TilK9Frilanser(frilans.value)) else None)
    ensures r.Ok? ==> r.value.selvstendigNaeringsdrivende == TilK9SelvstendigNaeringsdrivende(virksomheter).value
  {
    match TilK9SelvstendigNaeringsdrivende(virksomheter)
    case Err(e) => Err(e)
    case Ok(s) => Ok(ArbeidAktivitet(if frilans.Some? then Some(TilK9Frilanser(frilans.value)) else None, s))
  }

  /** The canonical application, assembled from the parts above. */
  function Soknad(soknadId: string, mottatt: ZonedDateTime, fodselsnummer: string,
                  fosterbarn: Option<seq<FosterBarn>>, frilans: Option<Frilans>, virksomheter: seq<Virksomhet>,
                  perioder: seq<Utbetalingsperiode>, bosteder: seq<Bosted>, opphold: seq<Opphold>): (r: Result<K9Soknad.Soknad>)
    ensures r.Ok? <==> TilK9SelvstendigNaeringsdrivende(virksomheter).Ok?
    ensures r.Ok? ==> r.value.versjon == VERSJON && r.value.soknadId == soknadId && r.value.mottattDato == mottatt
    ensures r.Ok? ==> r.value.soker == TilK9Soker(fodselsnummer)
    ensures r.Ok? ==> (r.value.ytelse.fosterbarn.Some? <==> fosterbarn.Some?)
    ensures r.Ok? && fosterbarn.Some? ==> r.value.ytelse.fosterbarn == Some(TilK9Barn(fosterbarn.value))
    ensures r.Ok? ==> r.value.ytelse.fravaersperioder == TilFravaersperiode(perioder)
    ensures r.Ok? ==> r.value.ytelse.bosteder == Bosteder(PeriodeLandMap(bosteder))
    ensures r.Ok? ==> r.value.ytelse.utenlandsopphold == Utenlandsopphold(PeriodeLandMap(opphold))
    ensures r.Ok? ==> r.value.ytelse.aktivitet == ArbeidAktivitetAv(frilans, virksomheter).value
  {
    match ArbeidAktivitetAv(frilans, virksomheter)
    case Err(e) => Err(e)
    case Ok(aktivitet) =>
      Ok(K9Soknad.Soknad(
        soknadId,
        VERSJON,
        mottatt,
        TilK9Soker(fodselsnummer),
        OmsorgspengerUtbetaling(
          if fosterbarn.Some? then Some(TilK9Barn(fosterbarn.value)) else None,
          aktivitet,
          TilFravaersperiode(perioder),
          Bosteder(PeriodeLandMap(bosteder)),
          Utenlandsopphold(PeriodeLandMap(opphold)))))
  }

  /** `MeldingV1.tilKOmsorgspengerUtbetalingSøknad`. */
  function MeldingTilK9Soknad(m: MeldingV1): (r: Result<K9Soknad.Soknad>)
    ensures r.Ok? <==> forall i :: 0 <= i < |m.selvstendigVirksomheter| ==> SelvstendigInfo(m.selvstendigVirksomheter[i]).Ok?
    ensures r.Ok? ==> r.value.versjon == VERSJON && r.value.soknadId == m.soknadId && r.value.mottattDato == m.mottatt
    ensures r.Ok? ==> r.value.soker.norskIdentitetsnummer == m.soker.fodselsnummer
    ensures r.Ok? ==> |r.value.ytelse.fravaersperioder| == |m.utbetalingsperioder|
  {
    Soknad(m.soknadId, m.mottatt, m.soker.fodselsnummer, m.fosterbarn, m.frilans, m.selvstendigVirksomheter,
           m.utbetalingsperioder, m.bosteder, m.opphold)
  }

  /** `PreprossesertMeldingV1.tilKOmsorgspengerUtbetalingSøknad`; this version
      dereferences the businesses without a null check. */
  function PreprosessertTilK9Soknad(p: PreprossesertMeldingV1): (r: Result<K9Soknad.Soknad>)
    requires p.selvstendigVirksomheter.Some?
    ensures r.Ok? <==> forall i :: 0 <= i < |p.selvstendigVirksomheter.value| ==> SelvstendigInfo(p.selvstendigVirksomheter.value[i]).Ok?
    ensures r.Ok? ==> r.value.versjon == VERSJON && r.value.soknadId == p.soknadId && r.value.mottattDato == p.mottatt
    ensures r.Ok? ==> r.value.soker.norskIdentitetsnummer == p.soker.fodselsnummer
    ensures r.Ok? ==> |r.value.ytelse.fravaersperioder| == |p.utbetalingsperioder|
  {
    Soknad(p.soknadId, p.mottatt, p.soker.fodselsnummer, p.fosterbarn, p.frilans, p.selvstendigVirksomheter.value,
           p.utbetalingsperioder, p.bosteder, p.opphold)
  }

  /** Enriching an application and converting it gives the same canonical
      document as converting the application itself. */
  lemma {:induction false} ConversionCommutesWithEnrichment(m: MeldingV1, dokumentUrls: seq<seq<Uri>>, aktorId: AktorId)
    ensures PreprosessertTilK9Soknad(FraMelding(m, dokumentUrls, aktorId)) == MeldingTilK9Soknad(m)
  {
  }
}
