/** The canonical K9 application format the pipeline produces, as plain
    records, and the two builders the mapping code drives step by step.
    The k9-format library itself is not part of this model: its classes are
    represented only by the fields the mapping code sets. */
module K9Soknad {
  import opened Common

  datatype Landkode = Landkode(code: string)

  /** ISO 3166 alpha-3 code of Norway. */
  const NORGE: Landkode := Landkode("NOR")

  /** A period; a self-employment period may be open-ended. */
  datatype Periode = Periode(fraOgMed: LocalDate, tilOgMed: Option<LocalDate>)

  datatype K9Soker = K9Soker(norskIdentitetsnummer: string)

  datatype K9Barn = K9Barn(norskIdentitetsnummer: Option<string>, fodselsdato: Option<LocalDate>)

  /** An absence period with an optional length (seconds) per day. */
  datatype FravaerPeriode = FravaerPeriode(periode: Periode, duration: Option<int>)

  /** Residence abroad and stays abroad are both maps from period to country. */
  datatype Bosteder = Bosteder(perioder: map<Periode, Landkode>)
  datatype Utenlandsopphold = Utenlandsopphold(perioder: map<Periode, Landkode>)

  datatype VirksomhetType = FISKE | JORDBRUK_SKOGBRUK | DAGMAMMA | ANNEN

  /** Per-period information about a self-employed business. Each field is
      None until the builder sets it. */
  datatype PeriodeInfo = PeriodeInfo(
    virksomhetstyper: Option<seq<VirksomhetType>>,
    registrertIUtlandet: Option<bool>,
    landkode: Option<Landkode>,
    bruttoInntekt: Option<int>,
    erNyoppstartet: Option<bool>,
    regnskapsforerNavn: Option<string>,
    regnskapsforerTelefon: Option<string>,
    erVarigEndring: Option<bool>,
    endringDato: Option<LocalDate>,
    endringBegrunnelse: Option<string>)

  const EmptyPeriodeInfo: PeriodeInfo :=
    PeriodeInfo(None, None, None, None, None, None, None, None, None, None)

  datatype K9SelvstendigNaeringsdrivende = K9SelvstendigNaeringsdrivende(
    virksomhetNavn: string,
    perioder: map<Periode, PeriodeInfo>,
    organisasjonsnummer: Option<string>)

  datatype K9Frilanser = K9Frilanser(startdato: LocalDate, jobberFortsattSomFrilans: bool)

  datatype ArbeidAktivitet = ArbeidAktivitet(
    frilanser: Option<K9Frilanser>,
    selvstendigNaeringsdrivende: seq<K9SelvstendigNaeringsdrivende>)

  datatype OmsorgspengerUtbetaling = OmsorgspengerUtbetaling(
    fosterbarn: Option<seq<K9Barn>>,
    aktivitet: ArbeidAktivitet,
    fravaersperioder: seq<FravaerPeriode>,
    bosteder: Bosteder,
    utenlandsopphold: Utenlandsopphold)

  /** The versioned application (`Søknad`). */
  datatype Soknad = Soknad(
    soknadId: string,
    versjon: string,
    mottattDato: ZonedDateTime,
    soker: K9Soker,
    ytelse: OmsorgspengerUtbetaling)

  /** The older, builder-made application of the journaling stage
      (`OmsorgspengerUtbetalingSøknad`); parts never set stay None. */
  datatype SnfSoknad = SnfSoknad(
    soknadId: string,
    mottattDato: ZonedDateTime,
    soker: K9Soker,
    fosterbarn: Option<seq<K9Barn>>,
    frilanser: Option<K9Frilanser>,
    selvstendigNaeringsdrivende: Option<seq<K9SelvstendigNaeringsdrivende>>)

  /** The mutable builder of PeriodeInfo: each setter overwrites one field. */
  class PeriodeInfoBuilder {
    var info: PeriodeInfo

    constructor ()
      ensures info == EmptyPeriodeInfo
    {
      info := EmptyPeriodeInfo;
    }

    method Virksomhetstyper(v: seq<VirksomhetType>)
      modifies this
      ensures info == old(info).(virksomhetstyper := Some(v))
    {
      info := info.(virksomhetstyper := Some(v));
    }

    method RegistrertIUtlandet(b: bool)
      modifies this
      ensures info == old(info).(registrertIUtlandet := Some(b))
    {
      info := info.(registrertIUtlandet := Some(b));
    }

    method SetLandkode(l: Landkode)
      modifies this
      ensures info == old(info).(landkode := Some(l))
    {
      info := info.(landkode := Some(l));
    }

    method BruttoInntekt(i: int)
      modifies this
      ensures info == old(info).(bruttoInntekt := Some(i))
    {
      info := info.(bruttoInntekt := Some(i));
    }

    method ErNyoppstartet(b: bool)
      modifies this
      ensures info == old(info).(erNyoppstartet := Some(b))
    {
      info := info.(erNyoppstartet := Some(b));
    }

    method Regnskapsforer(navn: string, telefon: string)
      modifies this
      ensures info == old(info).(regnskapsforerNavn := Some(navn), regnskapsforerTelefon := Some(telefon))
    {
      info := info.(regnskapsforerNavn := Some(navn), regnskapsforerTelefon := Some(telefon));
    }

    method ErVarigEndring(b: bool)
      modifies this
      ensures info == old(info).(erVarigEndring := Some(b))
    {
      info := info.(erVarigEndring := Some(b));
    }

    method Endring(dato: LocalDate, begrunnelse: string)
      modifies this
      ensures info == old(info).(endringDato := Some(dato), endringBegrunnelse := Some(begrunnelse))
    {
      info := info.(endringDato := Some(dato), endringBegrunnelse := Some(begrunnelse));
    }
  }

  /** The mutable builder of SnfSoknad. */
  class SnfSoknadBuilder {
    var soknad: SnfSoknad

    constructor (soknadId: string, mottattDato: ZonedDateTime, soker: K9Soker)
      ensures soknad == SnfSoknad(soknadId, mottattDato, soker, None, None, None)
    {
      soknad := SnfSoknad(soknadId, mottattDato, soker, None, None, None);
    }

    method Fosterbarn(b: seq<K9Barn>)
      modifies this
      ensures soknad == old(soknad).(fosterbarn := Some(b))
    {
      soknad := soknad.(fosterbarn := Some(b));
    }

    method Frilanser(f: K9Frilanser)
      modifies this
      ensures soknad == old(soknad).(frilanser := Some(f))
    {
      soknad := soknad.(frilanser := Some(f));
    }

    method SelvstendigNaeringsdrivende(s: seq<K9SelvstendigNaeringsdrivende>)
      modifies this
      ensures soknad == old(soknad).(selvstendigNaeringsdrivende := Some(s))
    {
      soknad := soknad.(selvstendigNaeringsdrivende := Some(s));
    }
  }
}
