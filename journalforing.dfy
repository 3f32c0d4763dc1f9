/** The journaling stage (prosessering/v1/asynkron/JournalforingsStream.kt):
    files the enriched application's documents with the archive and hands a
    `Cleanup` record on, carrying the application in the older builder-made
    canonical form. The archive's answer is an input.

    The file's private list mappings (`tilK9Barn`, `tilK9Søker`,
    `tilK9Frilanser`, `tilK9Virksomhetstyper`) are the same as those of
    k9format/K9Format.kt and are shared with the K9Format module; its
    period-info mapping differs and is defined here. */
module Journalforing {
  import opened Common
  import opened Melding
  import opened Preprosessert
  import opened K9Soknad
  import opened Topics
  import K9Format

  datatype JoarkNavn = JoarkNavn(fornavn: string, mellomnavn: Option<string>, etternavn: string)

  /** The one call made to the archive. */
  datatype Kall = Journalfor(
    mottatt: ZonedDateTime,
    aktorId: AktorId,
    norskIdent: string,
    navn: JoarkNavn,
    correlationId: CorrelationId,
    dokumenter: seq<seq<Uri>>)

  /** This stage's period info of one business. Unlike the K9Format mapping it
      sets `registrertIUtlandet` to the Norway flag itself, falls back to
      Norway when no foreign country is named (so it never throws), and takes
      `erNyoppstartet` from whether the last three assessed years are given. */
  function JournalforingsInfo(v: Virksomhet): (r: PeriodeInfo)
    ensures r.virksomhetstyper == Some(K9Format.TilK9Virksomhetstyper(v.naeringstyper))
    ensures r.registrertIUtlandet == Some(v.registrertINorge.Boolean())
    ensures v.registrertINorge == Ja ==> r.landkode == Some(K9Soknad.NORGE)
    ensures v.registrertINorge == Nei && v.registrertIUtlandet.Some? ==>
              r.landkode == Some(Landkode(v.registrertIUtlandet.value.landkode))
    ensures v.registrertINorge == Nei && v.registrertIUtlandet.None? ==> r.landkode == Some(K9Soknad.NORGE)
    ensures r.erNyoppstartet == Some(true) <==> v.yrkesaktivSisteTreFerdigliknedeArene.Some?
    ensures r.erNyoppstartet.Some?
    ensures r.bruttoInntekt == v.naeringsinntekt
    ensures r.erVarigEndring == Some(true) <==> v.varigEndring.Some?
    ensures r.erVarigEndring.Some?
    ensures v.varigEndring.Some? ==>
              r.endringDato == Some(v.varigEndring.value.dato) && r.endringBegrunnelse == Some(v.varigEndring.value.forklaring)
    ensures v.varigEndring.None? ==> r.endringDato == None && r.endringBegrunnelse == None
    ensures v.regnskapsforer.Some? ==>
              r.regnskapsforerNavn == Some(v.regnskapsforer.value.navn) &&
              r.regnskapsforerTelefon == Some(v.regnskapsforer.value.telefon)
    ensures v.regnskapsforer.None? ==> r.regnskapsforerNavn == None && r.regnskapsforerTelefon == None
  {
    PeriodeInfo(
      virksomhetstyper := Some(K9Format.TilK9Virksomhetstyper(v.naeringstyper)),
      registrertIUtlandet := Some(v.registrertINorge.Boolean()),
      landkode := Some(if !v.registrertINorge.Boolean() && v.registrertIUtlandet.Some?
                       then Landkode(v.registrertIUtlandet.value.landkode) else K9Soknad.NORGE),
      bruttoInntekt := v.naeringsinntekt,
      erNyoppstartet := Some(v.yrkesaktivSisteTreFerdigliknedeArene.Some?),
      regnskapsforerNavn := if v.regnskapsforer.Some? then Some(v.regnskapsforer.value.navn) else None,
      regnskapsforerTelefon := if v.regnskapsforer.Some? then Some(v.regnskapsforer.value.telefon) else None,
      erVarigEndring := Some(v.varigEndring.Some?),
      endringDato := if v.varigEndring.Some? then Some(v.varigEndring.value.dato) else None,
      endringBegrunnelse := if v.varigEndring.Some? then Some(v.varigEndring.value.forklaring) else None)
  }

  /** `tilK9SelvstendingNæringsdrivendeInfo` of this stage: drives the
      builder, setting `erNyoppstartet` and `erVarigEndring` to false first
      and overriding them when the corresponding answer is present. */
  method TilK9SelvstendingNaeringsdrivendeInfo(v: Virksomhet) returns (r: PeriodeInfo)
    ensures r == JournalforingsInfo(v)
  {
    var b := new PeriodeInfoBuilder();
    b.Virksomhetstyper(K9Format.TilK9Virksomhetstyper(v.naeringstyper));
    b.ErNyoppstartet(false);
    b.RegistrertIUtlandet(v.registrertINorge.Boolean());
    if v.registrertINorge.Boolean() {
      b.SetLandkode(K9Soknad.NORGE);
    } else if v.registrertIUtlandet.Some? {
      b.SetLandkode(Landkode(v.registrertIUtlandet.value.landkode));
    } else {
      b.SetLandkode(K9Soknad.NORGE);
    }
    if v.naeringsinntekt.Some? {
      b.BruttoInntekt(v.naeringsinntekt.value);
    }
    if v.yrkesaktivSisteTreFerdigliknedeArene.Some? {
      b.ErNyoppstartet(true);
    }
    if v.regnskapsforer.Some? {
      b.Regnskapsforer(v.regnskapsforer.value.navn, v.regnskapsforer.value.telefon);
    }
    b.ErVarigEndring(false);
    if v.varigEndring.Some? {
      b.ErVarigEndring(true);
      b.Endring(v.varigEndring.value.dato, v.varigEndring.value.forklaring);
    }
    r := b.info;
  }

  /** Where the two period-info mappings differ and where they agree: the
      abroad flag is always the opposite, the country is the same whenever
      the K9Format mapping succeeds (and Norway where it throws), the start-up
      flag comes from different answers, and the rest is the same. */
  lemma {:induction false} InfoVarianterSammenlignet(v: Virksomhet)
    ensures K9Format.SelvstendigInfo(v).Ok? ==>
              JournalforingsInfo(v).registrertIUtlandet.value == !K9Format.SelvstendigInfo(v).value.registrertIUtlandet.value
    ensures K9Format.SelvstendigInfo(v).Ok? ==> JournalforingsInfo(v).landkode == K9Format.SelvstendigInfo(v).value.landkode
    ensures K9Format.SelvstendigInfo(v).Err? ==> JournalforingsInfo(v).landkode == Some(K9Soknad.NORGE)
    ensures K9Format.SelvstendigInfo(v).Ok? ==>
              (JournalforingsInfo(v).erNyoppstartet == K9Format.SelvstendigInfo(v).value.erNyoppstartet
               <==> v.erNyoppstartet == v.yrkesaktivSisteTreFerdigliknedeArene.Some?)
    ensures K9Format.SelvstendigInfo(v).Ok? ==>
              JournalforingsInfo(v).(registrertIUtlandet := None, erNyoppstartet := None)
              == K9Format.SelvstendigInfo(v).value.(registrertIUtlandet := None, erNyoppstartet := None)
  {
  }

  /** This stage's businesses in canonical form, in order; never throws. */
  function TilK9SelvstendingNaeringsdrivende(vs: seq<Virksomhet>): (r: seq<K9SelvstendigNaeringsdrivende>)
    ensures |r| == |vs|
    ensures forall i :: 0 <= i < |vs| ==> r[i] == K9Format.TilK9Virksomhet(vs[i], JournalforingsInfo(vs[i]))
  {
    if vs == [] then [] else [K9Format.TilK9Virksomhet(vs[0], JournalforingsInfo(vs[0]))] + TilK9SelvstendingNaeringsdrivende(vs[1..])
  }

  /** The older canonical application of an enriched application: the ids
      and the applicant are always set; foster children, the freelancer part
      and the businesses only when the application has them. */
  function SnfSoknadAv(p: PreprossesertMeldingV1): (s: SnfSoknad)
    ensures s.soknadId == p.soknadId && s.mottattDato == p.mottatt
    ensures s.soker == K9Format.TilK9Soker(p.soker.fodselsnummer)
    ensures s.fosterbarn.Some? <==> p.fosterbarn.Some?
    ensures p.fosterbarn.Some? ==> s.fosterbarn.value == K9Format.TilK9Barn(p.fosterbarn.value)
    ensures s.frilanser.Some? <==> p.frilans.Some?
    ensures p.frilans.Some? ==> s.frilanser.value == K9Format.TilK9Frilanser(p.frilans.value)
    ensures s.selvstendigNaeringsdrivende.Some? <==> p.selvstendigVirksomheter.Some?
    ensures p.selvstendigVirksomheter.Some? ==>
              s.selvstendigNaeringsdrivende.value == TilK9SelvstendingNaeringsdrivende(p.selvstendigVirksomheter.value)
  {
    SnfSoknad(p.soknadId, p.mottatt, K9Format.TilK9Soker(p.soker.fodselsnummer),
      if p.fosterbarn.Some? then Some(K9Format.TilK9Barn(p.fosterbarn.value)) else None,
      if p.frilans.Some? then Some(K9Format.TilK9Frilanser(p.frilans.value)) else None,
      if p.selvstendigVirksomheter.Some? then Some(TilK9SelvstendingNaeringsdrivende(p.selvstendigVirksomheter.value)) else None)
  }

  /** `tilKOmsorgspengerUtbetalingSøknad` of this stage: a builder seeded
      with the ids and the applicant, each optional part set only when present. */
  method TilKOmsorgspengerUtbetalingSoknad(p: PreprossesertMeldingV1) returns (s: SnfSoknad)
    ensures s == SnfSoknadAv(p)
  {
    var b := new SnfSoknadBuilder(p.soknadId, p.mottatt, K9Format.TilK9Soker(p.soker.fodselsnummer));
    if p.fosterbarn.Some? {
      b.Fosterbarn(K9Format.TilK9Barn(p.fosterbarn.value));
    }
    if p.frilans.Some? {
      b.Frilanser(K9Format.TilK9Frilanser(p.frilans.value));
    }
    if p.selvstendigVirksomheter.Some? {
      b.SelvstendigNaeringsdrivende(TilK9SelvstendingNaeringsdrivende(p.selvstendigVirksomheter.value));
    }
    s := b.soknad;
  }

  /** Both filters of the topology. */
  predicate Akseptert(entry: TopicEntry<PreprossesertMeldingV1>, gittDato: ZonedDateTime) {
    ErEtter(entry.data.mottatt, gittDato) && entry.metadata.version == STOTTET_VERSJON
  }

  /** The archive call for one record: the bundles unchanged, ident, actor id
      and name from the applicant, the correlation id from the metadata. */
  function JournalforingAv(entry: TopicEntry<PreprossesertMeldingV1>): (k: Kall)
    ensures k.dokumenter == entry.data.dokumentUrls
    ensures k.norskIdent == entry.data.soker.fodselsnummer && k.aktorId == AktorId(entry.data.soker.aktorId)
    ensures k.navn == JoarkNavn(entry.data.soker.fornavn, entry.data.soker.mellomnavn, entry.data.soker.etternavn)
    ensures k.correlationId == CorrelationId(entry.metadata.correlationId) && k.mottatt == entry.data.mottatt
  {
    Journalfor(entry.data.mottatt, AktorId(entry.data.soker.aktorId), entry.data.soker.fodselsnummer,
      JoarkNavn(entry.data.soker.fornavn, entry.data.soker.mellomnavn, entry.data.soker.etternavn),
      CorrelationId(entry.metadata.correlationId), entry.data.dokumentUrls)
  }

  /** The stage applied to one record; `svar` is the archive's journal post id
      or its failure. */
  function Topologi(key: string, entry: TopicEntry<PreprossesertMeldingV1>, gittDato: ZonedDateTime,
                    svar: Result<string>): (s: Step<Kall, Cleanup>)
    ensures s.output.Dropped? <==> !Akseptert(entry, gittDato)
    ensures !Akseptert(entry, gittDato) ==> s.calls == []
    ensures Akseptert(entry, gittDato) ==> s.calls == [JournalforingAv(entry)]
    ensures s.output.Emitted? <==> Akseptert(entry, gittDato) && svar.Ok?
    ensures s.output.Emitted? ==>
              s.output.key == key && s.output.value.metadata == entry.metadata &&
              s.output.value.data == Cleanup(entry.metadata, entry.data, Journalfort(svar.value, SnfSoknadAv(entry.data)))
    ensures s.output.Crashed? ==> s.output.error == svar.error
  {
    if !Akseptert(entry, gittDato) then Step([], Dropped)
    else
      var cleanup := match svar
        case Ok(id) => Ok(Cleanup(entry.metadata, entry.data, Journalfort(id, SnfSoknadAv(entry.data))))
        case Err(e) => Err(e);
      Step([JournalforingAv(entry)], Prosesser(key, entry.metadata, cleanup))
  }
}
