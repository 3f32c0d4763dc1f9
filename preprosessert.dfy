/** The enriched application (`PreprossesertMeldingV1`) and the
    field-copying constructors that build it from an incoming application. */
module Preprosessert {
  import opened Common
  import opened Melding
  import K9Soknad

  /** The applicant, with the actor id looked up for them. */
  datatype PreprossesertSoker = PreprossesertSoker(
    fodselsnummer: string,
    fornavn: string,
    mellomnavn: Option<string>,
    etternavn: string,
    aktorId: string)

  /** The enriched application. The fields after `harForstattRettigheterOgPlikter`
      are read by the mapping and journaling code but not declared in this
      snapshot's PreprossesertMeldingV1.kt; `k9FormatSoknad` is the canonical
      document the older preprocessing service passes along. */
  datatype PreprossesertMeldingV1 = PreprossesertMeldingV1(
    soknadId: string,
    mottatt: ZonedDateTime,
    sprak: Option<string>,
    dokumentUrls: seq<seq<Uri>>,
    kroniskEllerFunksjonshemming: bool,
    arbeidssituasjon: seq<string>,
    soker: PreprossesertSoker,
    relasjonTilBarnet: Option<string> := None,
    sammeAdresse: bool := false,
    medlemskap: Medlemskap,
    harBekreftetOpplysninger: bool,
    harForstattRettigheterOgPlikter: bool,
    fosterbarn: Option<seq<FosterBarn>>,
    frilans: Option<Frilans>,
    selvstendigVirksomheter: Option<seq<Virksomhet>>,
    utbetalingsperioder: seq<Utbetalingsperiode>,
    bosteder: seq<Bosted>,
    opphold: seq<Opphold>,
    k9FormatSoknad: Option<K9Soknad.Soknad> := None)

  /** `PreprossesertSøker(søker, aktørId)`: copies the names and the national
      id and takes the actor id from the looked-up AktørId. */
  function FraSoker(soker: Soker, aktorId: AktorId): (p: PreprossesertSoker)
    ensures p.fodselsnummer == soker.fodselsnummer
    ensures p.fornavn == soker.fornavn && p.mellomnavn == soker.mellomnavn && p.etternavn == soker.etternavn
    ensures p.aktorId == aktorId.id
  {
    PreprossesertSoker(soker.fodselsnummer, soker.fornavn, soker.mellomnavn, soker.etternavn, aktorId.id)
  }

  /** The primary constructor called without `relasjonTilBarnet` and
      `sammeAdresse`: they take their defaults, null and false. */
  function NyPreprossesertMelding(
    soknadId: string, mottatt: ZonedDateTime, sprak: Option<string>, dokumentUrls: seq<seq<Uri>>,
    kroniskEllerFunksjonshemming: bool, arbeidssituasjon: seq<string>, soker: PreprossesertSoker,
    medlemskap: Medlemskap, harBekreftetOpplysninger: bool, harForstattRettigheterOgPlikter: bool,
    fosterbarn: Option<seq<FosterBarn>>, frilans: Option<Frilans>,
    selvstendigVirksomheter: Option<seq<Virksomhet>>, utbetalingsperioder: seq<Utbetalingsperiode>,
    bosteder: seq<Bosted>, opphold: seq<Opphold>): (p: PreprossesertMeldingV1)
    ensures p.relasjonTilBarnet == None && !p.sammeAdresse
    ensures p.dokumentUrls == dokumentUrls && p.soker == soker && p.soknadId == soknadId
  {
    PreprossesertMeldingV1(soknadId := soknadId, mottatt := mottatt, sprak := sprak,
      dokumentUrls := dokumentUrls, kroniskEllerFunksjonshemming := kroniskEllerFunksjonshemming,
      arbeidssituasjon := arbeidssituasjon, soker := soker, medlemskap := medlemskap,
      harBekreftetOpplysninger := harBekreftetOpplysninger,
      harForstattRettigheterOgPlikter := harForstattRettigheterOgPlikter,
      fosterbarn := fosterbarn, frilans := frilans, selvstendigVirksomheter := selvstendigVirksomheter,
      utbetalingsperioder := utbetalingsperioder, bosteder := bosteder, opphold := opphold)
  }

  /** The secondary constructor `PreprossesertMeldingV1(melding, dokumentUrls,
      søkerAktørId)`: the document bundles are stored as given and every other
      field is copied from the incoming application. */
  function FraMelding(melding: MeldingV1, dokumentUrls: seq<seq<Uri>>, sokerAktorId: AktorId): (p: PreprossesertMeldingV1)
    ensures p.soknadId == melding.soknadId && p.mottatt == melding.mottatt && p.sprak == Some(melding.sprak)
    ensures p.dokumentUrls == dokumentUrls
    ensures p.soker == FraSoker(melding.soker, sokerAktorId)
    ensures p.kroniskEllerFunksjonshemming == melding.kroniskEllerFunksjonshemming
    ensures p.arbeidssituasjon == melding.arbeidssituasjon
    ensures p.relasjonTilBarnet == melding.relasjonTilBarnet && p.sammeAdresse == melding.sammeAdresse
    ensures p.medlemskap == melding.medlemskap
    ensures p.harBekreftetOpplysninger == melding.harBekreftetOpplysninger
    ensures p.harForstattRettigheterOgPlikter == melding.harForstattRettigheterOgPlikter
    ensures p.fosterbarn == melding.fosterbarn && p.frilans == melding.frilans
    ensures p.selvstendigVirksomheter == Some(melding.selvstendigVirksomheter)
    ensures p.utbetalingsperioder == melding.utbetalingsperioder
    ensures p.bosteder == melding.bosteder && p.opphold == melding.opphold
    ensures p.k9FormatSoknad == None
  {
    PreprossesertMeldingV1(
      sprak := Some(melding.sprak),
      soknadId := melding.soknadId,
      mottatt := melding.mottatt,
      dokumentUrls := dokumentUrls,
      kroniskEllerFunksjonshemming := melding.kroniskEllerFunksjonshemming,
      soker := FraSoker(melding.soker, sokerAktorId),
      sammeAdresse := melding.sammeAdresse,
      arbeidssituasjon := melding.arbeidssituasjon,
      relasjonTilBarnet := melding.relasjonTilBarnet,
      medlemskap := melding.medlemskap,
      harForstattRettigheterOgPlikter := melding.harForstattRettigheterOgPlikter,
      harBekreftetOpplysninger := melding.harBekreftetOpplysninger,
      fosterbarn := melding.fosterbarn,
      frilans := melding.frilans,
      selvstendigVirksomheter := Some(melding.selvstendigVirksomheter),
      utbetalingsperioder := melding.utbetalingsperioder,
      bosteder := melding.bosteder,
      opphold := melding.opphold)
  }
}
