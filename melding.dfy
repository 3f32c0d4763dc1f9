/** The incoming application (`MeldingV1`) and its parts, the `JaNei`
    yes/no codec, and the redacting `toString`s of the records that hold
    personal data.

    The files of this snapshot do not agree on the fields of some records;
    these datatypes carry every field some modelled file reads (the extra
    ones are marked below). */
module Melding {
  import opened Common
  import K9Soknad

  /** A yes/no answer that can never be a defaulted `null`. */
  datatype JaNei = Ja | Nei {
    /** The wrapped boolean (`JaNei.boolean`). */
    function Boolean(): (b: bool)
      ensures b <==> this == Ja
    {
      match this
      case Ja => true
      case Nei => false
    }
  }

  /** `JaNei.fraBoolean`: true and false map to Ja and Nei; null throws. */
  function FraBoolean(b: Option<bool>): (r: Result<JaNei>)
    ensures b == Some(true) <==> r == Ok(Ja)
    ensures b == Some(false) <==> r == Ok(Nei)
    ensures b == None <==> r.Err?
    ensures r.Err? ==> r.error.IllegalStateException?
  {
    match b
    case Some(true) => Ok(Ja)
    case Some(false) => Ok(Nei)
    case None => Err(IllegalStateException("Kan ikke være null"))
  }

  /** Decoding the wrapped boolean of any answer gives the answer back. */
  lemma JaNeiRoundTrip(j: JaNei)
    ensures FraBoolean(Some(j.Boolean())) == Ok(j)
  {
  }

  /** Encoding the answer decoded from any non-null boolean gives the boolean back. */
  lemma BooleanRoundTrip(b: bool)
    ensures FraBoolean(Some(b)).Ok? && FraBoolean(Some(b)).value.Boolean() == b
  {
  }

  datatype Soker = Soker(
    fodselsnummer: string,
    fornavn: string,
    mellomnavn: Option<string>,
    etternavn: string,
    fodselsdato: Option<LocalDate>,
    aktorId: string)

  /** `aleneOmOmsorgen` is read by the sole-custody producer but not declared
      in this snapshot's Barn. */
  datatype Barn = Barn(
    navn: string,
    fodselsdato: LocalDate,
    identitetsnummer: string,
    aktorId: Option<string> := None,
    utvidetRett: Option<bool> := None,
    aleneOmOmsorgen: bool := false)

  datatype Bekreftelser = Bekreftelser(harBekreftetOpplysninger: JaNei, harForstattRettigheterOgPlikter: JaNei)

  datatype Frilans = Frilans(startdato: LocalDate, sluttdato: Option<LocalDate> := None, jobberFortsattSomFrilans: bool)

  /** ISO 3166 alpha-3 country code and name. */
  datatype Land = Land(landkode: string, landnavn: string)

  datatype FosterBarn = FosterBarn(fodselsnummer: string)

  datatype YrkesaktivSisteTreFerdigliknedeArene = YrkesaktivSisteTreFerdigliknedeArene(oppstartsdato: LocalDate)

  /** Enum order: FISKE < JORDBRUK_SKOGBRUK < DAGMAMMA < ANNEN. */
  datatype Naeringstyper = FISKE | JORDBRUK_SKOGBRUK | DAGMAMMA | ANNEN {
    function Beskrivelse(): string {
      match this
      case FISKE => "Fiske"
      case JORDBRUK_SKOGBRUK => "Jordbruk/skogbruk"
      case DAGMAMMA => "Dagmamma eller familiebarnehage i eget hjem"
      case ANNEN => "Annen"
    }
    function Ordinal(): nat {
      match this
      case FISKE => 0
      case JORDBRUK_SKOGBRUK => 1
      case DAGMAMMA => 2
      case ANNEN => 3
    }
    /** The enum constant's name, as `toString` gives it. */
    function Name(): string {
      match this
      case FISKE => "FISKE"
      case JORDBRUK_SKOGBRUK => "JORDBRUK_SKOGBRUK"
      case DAGMAMMA => "DAGMAMMA"
      case ANNEN => "ANNEN"
    }
  }

  datatype VarigEndring = VarigEndring(dato: LocalDate, inntektEtterEndring: int, forklaring: string)

  datatype Regnskapsforer = Regnskapsforer(navn: string, telefon: string)

  /** A self-employed business (`SelvstendigNæringsdrivende`, called
      `Virksomhet` by the mapping code). */
  datatype SelvstendigNaeringsdrivende = SelvstendigNaeringsdrivende(
    naeringstyper: seq<Naeringstyper> := [],
    fiskerErPaBladB: Option<JaNei> := Some(Nei),
    fraOgMed: LocalDate,
    tilOgMed: Option<LocalDate> := None,
    naeringsinntekt: Option<int> := None,
    navnPaVirksomheten: string,
    organisasjonsnummer: Option<string> := None,
    registrertINorge: JaNei,
    registrertIUtlandet: Option<Land> := None,
    erNyoppstartet: bool,
    yrkesaktivSisteTreFerdigliknedeArene: Option<YrkesaktivSisteTreFerdigliknedeArene> := None,
    varigEndring: Option<VarigEndring> := None,
    regnskapsforer: Option<Regnskapsforer> := None,
    harFlereAktiveVirksomheter: bool)

  type Virksomhet = SelvstendigNaeringsdrivende

  datatype FravaerArsak = STENGT_SKOLE_ELLER_BARNEHAGE | SMITTEVERNHENSYN | ORDINAERT_FRAVAER

  datatype AktivitetFravaer = FRILANSER | SELVSTENDIG_VIRKSOMHET

  /** A payment period. Durations are in seconds. `lengde` is read by the
      metrics and mapping code but not declared in this snapshot. */
  datatype Utbetalingsperiode = Utbetalingsperiode(
    fraOgMed: LocalDate,
    tilOgMed: LocalDate,
    antallTimerBorte: Option<int> := None,
    antallTimerPlanlagt: Option<int> := None,
    arsak: FravaerArsak,
    aktivitetFravaer: seq<AktivitetFravaer> := [],
    lengde: Option<int> := None)

  datatype Bosted = Bosted(
    fraOgMed: LocalDate,
    tilOgMed: LocalDate,
    landkode: string,
    landnavn: string,
    erEOSLand: JaNei)

  type Opphold = Bosted

  datatype SporsmalOgSvar = SporsmalOgSvar(sporsmal: string, svar: JaNei)

  datatype AndreUtbetalinger = DAGPENGER | SYKEPENGER | MIDLERTIDIG_KOMPENSASJON_SN_FRI

  /** Membership information; its fields are not part of this snapshot. */
  datatype Medlemskap = Medlemskap(opplysninger: seq<string>)

  /** The incoming application. The fields after `k9FormatSoknad` are read
      by other files of the snapshot but not declared in MeldingV1.kt. */
  datatype MeldingV1 = MeldingV1(
    soknadId: string,
    mottatt: ZonedDateTime,
    soker: Soker,
    sprak: string,
    harDekketTiForsteDagerSelv: Option<bool>,
    bosteder: seq<Bosted>,
    opphold: seq<Opphold>,
    sporsmal: seq<SporsmalOgSvar>,
    utbetalingsperioder: seq<Utbetalingsperiode>,
    andreUtbetalinger: seq<AndreUtbetalinger>,
    fosterbarn: Option<seq<FosterBarn>> := Some([]),
    barn: seq<Barn> := [],
    vedleggId: seq<string> := [],
    frilans: Option<Frilans> := None,
    selvstendigNaeringsdrivende: Option<SelvstendigNaeringsdrivende> := None,
    erArbeidstakerOgsa: bool,
    bekreftelser: Bekreftelser,
    k9FormatSoknad: Option<K9Soknad.Soknad>,
    vedlegg: seq<Uri> := [],
    selvstendigVirksomheter: seq<Virksomhet> := [],
    kroniskEllerFunksjonshemming: bool := false,
    arbeidssituasjon: seq<string> := [],
    relasjonTilBarnet: Option<string> := None,
    sammeAdresse: bool := false,
    medlemskap: Medlemskap := Medlemskap([]),
    harBekreftetOpplysninger: bool := false,
    harForstattRettigheterOgPlikter: bool := false)

  /** Builds an application from the fields MeldingV1.kt declares without a
      default, leaving every defaulted field at its default. */
  function NyMelding(
    soknadId: string, mottatt: ZonedDateTime, soker: Soker, sprak: string,
    harDekketTiForsteDagerSelv: Option<bool>, bosteder: seq<Bosted>, opphold: seq<Opphold>,
    sporsmal: seq<SporsmalOgSvar>, utbetalingsperioder: seq<Utbetalingsperiode>,
    andreUtbetalinger: seq<AndreUtbetalinger>, erArbeidstakerOgsa: bool,
    bekreftelser: Bekreftelser, k9FormatSoknad: K9Soknad.Soknad): (m: MeldingV1)
    ensures m.fosterbarn == Some([]) && m.barn == [] && m.vedleggId == []
    ensures m.frilans == None && m.selvstendigNaeringsdrivende == None
    ensures m.soknadId == soknadId && m.mottatt == mottatt && m.soker == soker
    ensures m.k9FormatSoknad == Some(k9FormatSoknad)
  {
    MeldingV1(soknadId := soknadId, mottatt := mottatt, soker := soker, sprak := sprak,
      harDekketTiForsteDagerSelv := harDekketTiForsteDagerSelv, bosteder := bosteder,
      opphold := opphold, sporsmal := sporsmal, utbetalingsperioder := utbetalingsperioder,
      andreUtbetalinger := andreUtbetalinger, erArbeidstakerOgsa := erArbeidstakerOgsa,
      bekreftelser := bekreftelser, k9FormatSoknad := Some(k9FormatSoknad))
  }

  /** A business built without a fisher answer is registered as not on "blad B". */
  function NyVirksomhet(fraOgMed: LocalDate, navnPaVirksomheten: string, registrertINorge: JaNei,
    erNyoppstartet: bool, harFlereAktiveVirksomheter: bool): (v: SelvstendigNaeringsdrivende)
    ensures v.fiskerErPaBladB == Some(Nei) && v.naeringstyper == []
    ensures v.varigEndring == None && v.naeringsinntekt == None && v.registrertIUtlandet == None
  {
    SelvstendigNaeringsdrivende(fraOgMed := fraOgMed, navnPaVirksomheten := navnPaVirksomheten,
      registrertINorge := registrertINorge, erNyoppstartet := erNyoppstartet,
      harFlereAktiveVirksomheter := harFlereAktiveVirksomheter)
  }

  /** The redacting `toString`s: the text is the same whatever the field values. */
  function SokerToString(s: Soker): string { "Soker()" }
  function FosterBarnToString(f: FosterBarn): string { "FosterBarn()" }
  function VirksomhetToString(v: SelvstendigNaeringsdrivende): string { "Virksomhet()" }

  /** No field value of an applicant, foster child or business can be read
      off its text: two different records print the same. */
  lemma ToStringRevealsNothing(a: Soker, b: Soker, f: FosterBarn, g: FosterBarn,
                               v: SelvstendigNaeringsdrivende, w: SelvstendigNaeringsdrivende)
    ensures SokerToString(a) == SokerToString(b)
    ensures FosterBarnToString(f) == FosterBarnToString(g)
    ensures VirksomhetToString(v) == VirksomhetToString(w)
  {
  }
}
