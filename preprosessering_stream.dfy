/** The preprocessing stage (prosessering/v1/asynkron/PreprosesseringStream.kt):
    keeps records received after the cutoff with metadata version 1, and maps
    each to the enriched application. The collaborators' answers (the
    rendered PDF and the two store replies) are inputs. */
module PreprosesseringStream {
  import opened Common
  import opened Melding
  import opened Preprosessert
  import opened Dokument
  import opened Topics
  import opened Preprosessering
  import MeldingV1Metrics

  /** Both filters of the topology, applied before any side effect. */
  predicate Akseptert(entry: TopicEntry<MeldingV1>, gittDato: ZonedDateTime) {
    ErEtter(entry.data.mottatt, gittDato) && entry.metadata.version == STOTTET_VERSJON
  }

  /** The stage applied to one record. */
  function Topologi(key: string, entry: TopicEntry<MeldingV1>, gittDato: ZonedDateTime, pdf: seq<bv8>,
                    pdfSvar: Result<seq<Uri>>, jsonSvar: Result<seq<Uri>>): (s: Step<Kall, PreprossesertMeldingV1>)
    requires entry.data.k9FormatSoknad.Some?
    ensures s.output.Dropped? <==> !Akseptert(entry, gittDato)
    ensures !Akseptert(entry, gittDato) ==> s.calls == []
    ensures Akseptert(entry, gittDato) && Forste(pdfSvar).Err? ==>
              s.calls == [PdfKall(entry.data, entry.metadata, pdf)]
    ensures Akseptert(entry, gittDato) && Forste(pdfSvar).Ok? ==>
              s.calls == [PdfKall(entry.data, entry.metadata, pdf), JsonKall(entry.data, entry.metadata)]
    ensures s.output.Emitted? ==>
              s.output.key == key && s.output.value.metadata == entry.metadata &&
              Ok(s.output.value.data) == PreprosesserResultat(entry.data, pdfSvar, jsonSvar)
    ensures s.output.Crashed? <==> Akseptert(entry, gittDato) && PreprosesserResultat(entry.data, pdfSvar, jsonSvar).Err?
    ensures s.output.Crashed? ==> s.output.error == PreprosesserResultat(entry.data, pdfSvar, jsonSvar).error
  {
    if !Akseptert(entry, gittDato) then Step([], Dropped)
    else
      var kall := if Forste(pdfSvar).Ok? then [PdfKall(entry.data, entry.metadata, pdf), JsonKall(entry.data, entry.metadata)]
                  else [PdfKall(entry.data, entry.metadata, pdf)];
      Step(kall, Prosesser(key, entry.metadata, PreprosesserResultat(entry.data, pdfSvar, jsonSvar)))
  }

  /** A record received at the cutoff instant is dropped without any call. */
  lemma VedSkjaeringstidspunktetDroppes(key: string, entry: TopicEntry<MeldingV1>, gittDato: ZonedDateTime, pdf: seq<bv8>,
                                       pdfSvar: Result<seq<Uri>>, jsonSvar: Result<seq<Uri>>)
    requires entry.data.k9FormatSoknad.Some?
    requires entry.data.mottatt.epochSecond == gittDato.epochSecond
    ensures Topologi(key, entry, gittDato, pdf, pdfSvar, jsonSvar) == Step([], Dropped)
  {
  }

  /** Every emitted record carries one bundle more than the application has
      attachments, and the flattened bundles are the two stored documents
      followed by the attachments, in order. */
  lemma {:induction false} EmittertDokumentbolker(key: string, entry: TopicEntry<MeldingV1>, gittDato: ZonedDateTime,
                                                  pdf: seq<bv8>, pdfSvar: Result<seq<Uri>>, jsonSvar: Result<seq<Uri>>)
    requires entry.data.k9FormatSoknad.Some?
    requires Topologi(key, entry, gittDato, pdf, pdfSvar, jsonSvar).output.Emitted?
    ensures |Topologi(key, entry, gittDato, pdf, pdfSvar, jsonSvar).output.value.data.dokumentUrls| == 1 + |entry.data.vedlegg|
    ensures Flatten(Topologi(key, entry, gittDato, pdf, pdfSvar, jsonSvar).output.value.data.dokumentUrls)
            == [pdfSvar.value[0], jsonSvar.value[0]] + entry.data.vedlegg
  {
    var s := Topologi(key, entry, gittDato, pdf, pdfSvar, jsonSvar);
    assert Ok(s.output.value.data) == PreprosesserResultat(entry.data, pdfSvar, jsonSvar);
  }

  /** An accepted application with four attachments whose documents are
      stored is sent on exactly when every period has a `lengde`, and then
      with five bundles. */
  lemma FireVedleggGirFemBolker(key: string, entry: TopicEntry<MeldingV1>, gittDato: ZonedDateTime,
                                pdf: seq<bv8>, pdfUrl: Uri, jsonUrl: Uri)
    requires entry.data.k9FormatSoknad.Some? && |entry.data.vedlegg| == 4
    requires Akseptert(entry, gittDato)
    ensures Topologi(key, entry, gittDato, pdf, Ok([pdfUrl]), Ok([jsonUrl])).output.Emitted?
        <==> forall i :: 0 <= i < |entry.data.utbetalingsperioder| ==> entry.data.utbetalingsperioder[i].lengde.Some?
    ensures Topologi(key, entry, gittDato, pdf, Ok([pdfUrl]), Ok([jsonUrl])).output.Emitted? ==>
              |Topologi(key, entry, gittDato, pdf, Ok([pdfUrl]), Ok([jsonUrl])).output.value.data.dokumentUrls| == 5
  {
    assert Forste(Ok([pdfUrl])) == Ok(pdfUrl) && Forste(Ok([jsonUrl])) == Ok(jsonUrl);
    if Topologi(key, entry, gittDato, pdf, Ok([pdfUrl]), Ok([jsonUrl])).output.Emitted? {
      EmittertDokumentbolker(key, entry, gittDato, pdf, Ok([pdfUrl]), Ok([jsonUrl]));
    }
  }

  /** A period applied for in whole days (no `lengde`) makes the stage
      throw NullPointerException after both documents are stored: the
      metrics report meets the period's missing length. */
  lemma HeleDagerStopperForbehandlingen(key: string, entry: TopicEntry<MeldingV1>, gittDato: ZonedDateTime,
                                        pdf: seq<bv8>, pdfUrl: Uri, jsonUrl: Uri, i: nat)
    requires entry.data.k9FormatSoknad.Some? && Akseptert(entry, gittDato)
    requires i < |entry.data.utbetalingsperioder| && entry.data.utbetalingsperioder[i].lengde.None?
    ensures Topologi(key, entry, gittDato, pdf, Ok([pdfUrl]), Ok([jsonUrl]))
         == Step([PdfKall(entry.data, entry.metadata, pdf), JsonKall(entry.data, entry.metadata)], Crashed(NullPointerException))
  {
    assert Forste(Ok([pdfUrl])) == Ok(pdfUrl) && Forste(Ok([jsonUrl])) == Ok(jsonUrl);
    assert MeldingV1Metrics.ReportMetrics(entry.data).Some?;
  }
}

/** The employee variant of preprocessing
    (prosessering/v1/asynkron/arbeidstaker/ArbeidstakerutbetalingPreprosseseringStream.kt):
    only the version filter, then one call to the preprocessing service,
    whose answer is an input. */
module ArbeidstakerPreprosesseringStream {
  import opened Common
  import opened Topics
  import opened Arbeidstaker

  /** The one collaborator call: preprocess this application with this metadata. */
  datatype Kall = Preprosesser(melding: ArbeidstakerutbetalingMelding, metadata: Metadata)

  /** The stage applied to one record; `svar` is what the service answers. */
  function Topologi(key: string, entry: TopicEntry<ArbeidstakerutbetalingMelding>,
                    svar: Result<PreprosessertArbeidstakerutbetalingMelding>)
    : (s: Step<Kall, PreprosessertArbeidstakerutbetalingMelding>)
    ensures s.output.Dropped? <==> entry.metadata.version != STOTTET_VERSJON
    ensures s.output.Dropped? ==> s.calls == []
    ensures !s.output.Dropped? ==> s.calls == [Preprosesser(entry.data, entry.metadata)]
    ensures s.output.Emitted? <==> entry.metadata.version == STOTTET_VERSJON && svar.Ok?
    ensures s.output.Emitted? ==> s.output.key == key && s.output.value == TopicEntry(entry.metadata, svar.value)
    ensures s.output.Crashed? ==> s.output.error == svar.error
  {
    if entry.metadata.version != STOTTET_VERSJON then Step([], Dropped)
    else Step([Preprosesser(entry.data, entry.metadata)], Prosesser(key, entry.metadata, svar))
  }

  /** No cutoff applies: whether a record is kept does not depend on when it
      was received. */
  lemma IngenSkjaeringsdato(key: string, entry: TopicEntry<ArbeidstakerutbetalingMelding>,
                            mottatt: ZonedDateTime, svar: Result<PreprosessertArbeidstakerutbetalingMelding>)
    ensures Topologi(key, entry, svar).output.Dropped?
        <==> Topologi(key, TopicEntry(entry.metadata, entry.data.(mottatt := mottatt)), svar).output.Dropped?
  {
  }
}
