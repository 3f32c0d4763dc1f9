/** The employee variant of the application (`ArbeidstakerutbetalingMelding`)
    and its enriched form (`PreprosessertArbeidstakerutbetalingMelding`). */
module Arbeidstaker {
  import opened Common
  import opened Melding
  import opened Preprosessert

  datatype Begrunnelse =
    | ANNET_ARBEIDSFORHOLD
    | ANDRE_YTELSER
    | LOVBESTEMT_FERIE_ELLER_ULONNET_PERMISJON
    | MILITAERTJENESTE

  datatype JobbHosNaavaerendeArbeidsgiver = JobbHosNaavaerendeArbeidsgiver(
    merEnn4Uker: bool,
    begrunnelse: Option<Begrunnelse> := None)

  datatype OrganisasjonDetaljer = OrganisasjonDetaljer(
    navn: Option<string> := None,
    organisasjonsnummer: string,
    harHattFravaerHosArbeidsgiver: bool,
    arbeidsgiverHarUtbetaltLonn: bool)

  datatype ArbeidsgiverDetaljer = ArbeidsgiverDetaljer(organisasjoner: seq<OrganisasjonDetaljer>)

  datatype ArbeidstakerutbetalingMelding = ArbeidstakerutbetalingMelding(
    soknadId: string,
    mottatt: ZonedDateTime,
    sprak: string,
    soker: Soker,
    bosteder: seq<Bosted>,
    opphold: seq<Opphold>,
    sporsmal: seq<SporsmalOgSvar>,
    jobbHosNaavaerendeArbeidsgiver: JobbHosNaavaerendeArbeidsgiver,
    arbeidsgivere: ArbeidsgiverDetaljer,
    bekreftelser: Bekreftelser,
    utbetalingsperioder: seq<Utbetalingsperiode>,
    fosterbarn: Option<seq<FosterBarn>> := Some([]))

  datatype PreprosessertArbeidstakerutbetalingMelding = PreprosessertArbeidstakerutbetalingMelding(
    soknadId: string,
    mottatt: ZonedDateTime,
    sprak: Option<string>,
    soker: PreprossesertSoker,
    arbeidsgivere: ArbeidsgiverDetaljer,
    bosteder: seq<Bosted>,
    opphold: seq<Opphold>,
    sporsmal: seq<SporsmalOgSvar>,
    utbetalingsperioder: seq<Utbetalingsperiode>,
    fosterbarn: Option<seq<FosterBarn>> := Some([]),
    bekreftelser: Bekreftelser,
    dokumentUrls: seq<seq<Uri>>)

  /** The secondary constructor: copies the application field by field,
      stores the bundles as given, and has no place for the answer about the
      current employer. */
  function FraMelding(melding: ArbeidstakerutbetalingMelding, dokumentUrls: seq<seq<Uri>>, sokerAktorId: AktorId)
    : (p: PreprosessertArbeidstakerutbetalingMelding)
    ensures p.soknadId == melding.soknadId && p.mottatt == melding.mottatt && p.sprak == Some(melding.sprak)
    ensures p.dokumentUrls == dokumentUrls
    ensures p.soker == FraSoker(melding.soker, sokerAktorId)
    ensures p.arbeidsgivere == melding.arbeidsgivere && p.bosteder == melding.bosteder
    ensures p.opphold == melding.opphold && p.sporsmal == melding.sporsmal
    ensures p.utbetalingsperioder == melding.utbetalingsperioder
    ensures p.fosterbarn == melding.fosterbarn && p.bekreftelser == melding.bekreftelser
  {
    PreprosessertArbeidstakerutbetalingMelding(
      soknadId := melding.soknadId,
      mottatt := melding.mottatt,
      sprak := Some(melding.sprak),
      soker := FraSoker(melding.soker, sokerAktorId),
      arbeidsgivere := melding.arbeidsgivere,
      bosteder := melding.bosteder,
      opphold := melding.opphold,
      sporsmal := melding.sporsmal,
      utbetalingsperioder := melding.utbetalingsperioder,
      fosterbarn := melding.fosterbarn,
      bekreftelser := melding.bekreftelser,
      dokumentUrls := dokumentUrls)
  }

  /** The answer about the current employer is dropped: two applications that
      differ only there are enriched to the same value. */
  lemma JobbHosNaavaerendeArbeidsgiverDropped(melding: ArbeidstakerutbetalingMelding,
      jobb: JobbHosNaavaerendeArbeidsgiver, dokumentUrls: seq<seq<Uri>>, sokerAktorId: AktorId)
    ensures FraMelding(melding.(jobbHosNaavaerendeArbeidsgiver := jobb), dokumentUrls, sokerAktorId)
         == FraMelding(melding, dokumentUrls, sokerAktorId)
  {
  }
}
