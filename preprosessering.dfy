/** The two preprocessing services: store the summary PDF and the
    application JSON, collect them and the attachments into document bundles,
    and enrich the application with the bundles
    (prosessering/v1/PreprosesseringV1Service.kt, backed by the intermediate
    store, and prosessering/v1/PreprosseseringV1Service.kt, backed by the
    older document store). The rendered PDF is an input. */
module Preprosessering {
  import opened Common
  import opened Melding
  import opened Preprosessert
  import opened Dokument
  import K9Soknad
  import K9Format
  import MeldingV1Metrics

  /** One one-element bundle per attachment, in attachment order. */
  function Enkeltbolker(vedlegg: seq<Uri>): (r: seq<seq<Uri>>)
    ensures |r| == |vedlegg|
    ensures forall i :: 0 <= i < |r| ==> r[i] == [vedlegg[i]]
    decreases |vedlegg|
  {
    if vedlegg == [] then [] else Enkeltbolker(vedlegg[..|vedlegg| - 1]) + [[vedlegg[|vedlegg| - 1]]]
  }

  /** The complete bundle list: the PDF and the JSON together first, then
      each attachment alone. */
  function KomplettDokumentUrls(pdfUrl: Uri, jsonUrl: Uri, vedlegg: seq<Uri>): (r: seq<seq<Uri>>)
    ensures |r| == 1 + |vedlegg|
    ensures r[0] == [pdfUrl, jsonUrl]
    ensures forall i :: 0 <= i < |vedlegg| ==> r[i + 1] == [vedlegg[i]]
  {
    [[pdfUrl, jsonUrl]] + Enkeltbolker(vedlegg)
  }

  /** Flattening the complete bundle list gives the PDF, the JSON and the
      attachments, in that order: 2 + |vedlegg| documents. */
  lemma {:induction false} KomplettFlatten(pdfUrl: Uri, jsonUrl: Uri, vedlegg: seq<Uri>)
    ensures Flatten(KomplettDokumentUrls(pdfUrl, jsonUrl, vedlegg)) == [pdfUrl, jsonUrl] + vedlegg
    ensures |Flatten(KomplettDokumentUrls(pdfUrl, jsonUrl, vedlegg))| == 2 + |vedlegg|
    decreases |vedlegg|
  {
    var k := KomplettDokumentUrls(pdfUrl, jsonUrl, vedlegg);
    if vedlegg == [] {
      assert k == [[pdfUrl, jsonUrl]];
      assert Flatten(k) == Flatten([]) + [pdfUrl, jsonUrl];
    } else {
      var n := |vedlegg|;
      var forrige := KomplettDokumentUrls(pdfUrl, jsonUrl, vedlegg[..n - 1]);
      assert k[..|k| - 1] == forrige;
      assert k[|k| - 1] == [vedlegg[n - 1]];
      assert Flatten(k) == Flatten(forrige) + [vedlegg[n - 1]];
      KomplettFlatten(pdfUrl, jsonUrl, vedlegg[..n - 1]);
      assert vedlegg == vedlegg[..n - 1] + [vedlegg[n - 1]];
    }
  }

  /** Builds the bundle list the way the services do: a mutable list seeded
      with the PDF/JSON pair, one `add` per attachment. */
  method ByggDokumentbolker(pdfUrl: Uri, jsonUrl: Uri, vedlegg: seq<Uri>) returns (komplett: seq<seq<Uri>>)
    ensures komplett == KomplettDokumentUrls(pdfUrl, jsonUrl, vedlegg)
  {
    komplett := [[pdfUrl, jsonUrl]];
    for i := 0 to |vedlegg|
      invariant komplett == [[pdfUrl, jsonUrl]] + Enkeltbolker(vedlegg[..i])
    {
      assert vedlegg[..i + 1][..i] == vedlegg[..i];
      komplett := komplett + [[vedlegg[i]]];
    }
    assert vedlegg[..|vedlegg|] == vedlegg;
  }

  // ---- PreprosesseringV1Service (intermediate store) ----

  const PDF_TITTEL_V1: string := "Søknad om utbetaling av omsorgspenger"
  const JSON_TITTEL_V1: string := "Søknad om utbetaling av omsorgspenger som JSON"

  /** The summary PDF as stored, owned by the applicant's national id. */
  function OppsummeringPdf(melding: MeldingV1, pdf: seq<bv8>): (d: Dokument)
    ensures d.eier == Some(DokumentEier(melding.soker.fodselsnummer))
    ensures d.contentType == "application/pdf" && d.content == Pdf(pdf)
    ensures d.title == PDF_TITTEL_V1
  {
    Dokument(Some(DokumentEier(melding.soker.fodselsnummer)), Pdf(pdf), "application/pdf", PDF_TITTEL_V1)
  }

  /** The canonical application as stored, owned by the applicant's national id. */
  function OppsummeringJson(melding: MeldingV1): (d: Dokument)
    requires melding.k9FormatSoknad.Some?
    ensures d.eier == Some(DokumentEier(melding.soker.fodselsnummer))
    ensures d.contentType == "application/json" && d.content == SoknadJson(melding.k9FormatSoknad.value)
    ensures d.title == JSON_TITTEL_V1
  {
    Dokument(Some(DokumentEier(melding.soker.fodselsnummer)), SoknadJson(melding.k9FormatSoknad.value),
      "application/json", JSON_TITTEL_V1)
  }

  /** The two store calls `preprosesser` makes, in order. */
  function PdfKall(melding: MeldingV1, metadata: Metadata, pdf: seq<bv8>): Kall {
    Lagre({OppsummeringPdf(melding, pdf)}, None, CorrelationId(metadata.correlationId))
  }

  function JsonKall(melding: MeldingV1, metadata: Metadata): Kall
    requires melding.k9FormatSoknad.Some?
  {
    Lagre({OppsummeringJson(melding)}, None, CorrelationId(metadata.correlationId))
  }

  /** What `preprosesser` returns, given the store's answers to the PDF and
      the JSON store calls: the first failing store call's error; else the
      exception `reportMetrics` throws (a period without `lengde`); else the
      application enriched with the complete bundle list. */
  function PreprosesserResultat(melding: MeldingV1, pdfSvar: Result<seq<Uri>>, jsonSvar: Result<seq<Uri>>)
    : (r: Result<PreprossesertMeldingV1>)
    ensures r.Ok? <==> Forste(pdfSvar).Ok? && Forste(jsonSvar).Ok? && MeldingV1Metrics.ReportMetrics(melding).None?
    ensures Forste(pdfSvar).Err? ==> r == Err(Forste(pdfSvar).error)
    ensures Forste(pdfSvar).Ok? && Forste(jsonSvar).Err? ==> r == Err(Forste(jsonSvar).error)
    ensures Forste(pdfSvar).Ok? && Forste(jsonSvar).Ok? && MeldingV1Metrics.ReportMetrics(melding).Some? ==>
              r == Err(NullPointerException)
    ensures r.Ok? ==> r.value == FraMelding(melding, KomplettDokumentUrls(pdfSvar.value[0], jsonSvar.value[0], melding.vedlegg),
                                            AktorId(melding.soker.aktorId))
    ensures r.Ok? ==> |r.value.dokumentUrls| == 1 + |melding.vedlegg|
    ensures r.Ok? ==> r.value.dokumentUrls[0] == [pdfSvar.value[0], jsonSvar.value[0]]
    ensures r.Ok? ==> Flatten(r.value.dokumentUrls) == [pdfSvar.value[0], jsonSvar.value[0]] + melding.vedlegg
    ensures r.Ok? ==> r.value.soknadId == melding.soknadId && r.value.soker.fodselsnummer == melding.soker.fodselsnummer
  {
    match Forste(pdfSvar)
    case Err(e) => Err(e)
    case Ok(pdfUrl) =>
      match Forste(jsonSvar)
      case Err(e) => Err(e)
      case Ok(jsonUrl) =>
        match MeldingV1Metrics.ReportMetrics(melding)
        case Some(e) => Err(e)
        case None =>
          KomplettFlatten(pdfUrl, jsonUrl, melding.vedlegg);
          Ok(FraMelding(melding, KomplettDokumentUrls(pdfUrl, jsonUrl, melding.vedlegg), AktorId(melding.soker.aktorId)))
  }

  /** `PreprosesseringV1Service.preprosesser`: stores the PDF, then (only if
      that succeeded) the JSON, each with the message's correlation id,
      builds the bundles, reports the metrics and returns the enriched
      application. */
  method Preprosesser(lager: DokumentGateway, melding: MeldingV1, metadata: Metadata, pdf: seq<bv8>,
                      pdfSvar: Result<seq<Uri>>, jsonSvar: Result<seq<Uri>>) returns (r: Result<PreprossesertMeldingV1>)
    requires melding.k9FormatSoknad.Some?
    modifies lager
    ensures r == PreprosesserResultat(melding, pdfSvar, jsonSvar)
    ensures Forste(pdfSvar).Err? ==> lager.kall == old(lager.kall) + [PdfKall(melding, metadata, pdf)]
    ensures Forste(pdfSvar).Ok? ==> lager.kall == old(lager.kall) + [PdfKall(melding, metadata, pdf), JsonKall(melding, metadata)]
  {
    var correlationId := CorrelationId(metadata.correlationId);
    var pdfUrl := MellomlagringLagreDokument(lager, OppsummeringPdf(melding, pdf), correlationId, pdfSvar);
    if pdfUrl.Err? {
      return Err(pdfUrl.error);
    }
    var jsonUrl := MellomlagringLagreDokument(lager, OppsummeringJson(melding), correlationId, jsonSvar);
    if jsonUrl.Err? {
      return Err(jsonUrl.error);
    }
    var komplett := ByggDokumentbolker(pdfUrl.value, jsonUrl.value, melding.vedlegg);
    var preprosessert := FraMelding(melding, komplett, AktorId(melding.soker.aktorId));
    var delDager := MeldingV1Metrics.TilAntallDelDager(melding.utbetalingsperioder);
    if delDager.Err? {
      return Err(delDager.error);
    }
    r := Ok(preprosessert);
  }

  // ---- PreprosseseringV1Service (older document store) ----

  /** The canonical application the older service stores: the one the
      application carries, or else the one converted from it (which throws
      when a business registered abroad names no country). */
  function K9FormatSoknadFor(melding: MeldingV1): (r: Result<K9Soknad.Soknad>)
    ensures melding.k9FormatSoknad.Some? ==> r == Ok(melding.k9FormatSoknad.value)
    ensures melding.k9FormatSoknad.None? ==> r == K9Format.MeldingTilK9Soknad(melding)
  {
    match melding.k9FormatSoknad
    case Some(s) => Ok(s)
    case None => K9Format.MeldingTilK9Soknad(melding)
  }

  /** The two store calls `preprosseser` makes, in order; both under the
      applicant's actor id. */
  function EldrePdfKall(melding: MeldingV1, metadata: Metadata, pdf: seq<bv8>): Kall {
    Lagre({Dokument(None, Pdf(pdf), "application/pdf", PDF_TITTEL)}, Some(AktorId(melding.soker.aktorId)),
          CorrelationId(metadata.correlationId))
  }

  function EldreJsonKall(melding: MeldingV1, metadata: Metadata, k9: K9Soknad.Soknad): Kall {
    Lagre({Dokument(None, SoknadJson(k9), "application/json", JSON_TITTEL)}, Some(AktorId(melding.soker.aktorId)),
          CorrelationId(metadata.correlationId))
  }

  /** What `preprosseser` returns, given the store's answers: errors in call
      order (PDF store, conversion, JSON store, `reportMetrics`), else the
      enriched application carrying the canonical application it stored. */
  function PreprosseserResultat(melding: MeldingV1, pdfSvar: Result<seq<Uri>>, jsonSvar: Result<seq<Uri>>)
    : (r: Result<PreprossesertMeldingV1>)
    ensures r.Ok? <==> Forste(pdfSvar).Ok? && K9FormatSoknadFor(melding).Ok? && Forste(jsonSvar).Ok? &&
                       MeldingV1Metrics.ReportMetrics(melding).None?
    ensures Forste(pdfSvar).Err? ==> r == Err(Forste(pdfSvar).error)
    ensures Forste(pdfSvar).Ok? && K9FormatSoknadFor(melding).Err? ==> r == Err(K9FormatSoknadFor(melding).error)
    ensures Forste(pdfSvar).Ok? && K9FormatSoknadFor(melding).Ok? && Forste(jsonSvar).Err? ==>
              r == Err(Forste(jsonSvar).error)
    ensures (Forste(pdfSvar).Ok? && K9FormatSoknadFor(melding).Ok? && Forste(jsonSvar).Ok? &&
             MeldingV1Metrics.ReportMetrics(melding).Some?) ==> r == Err(NullPointerException)
    ensures r.Ok? ==> r.value == FraMelding(melding, KomplettDokumentUrls(pdfSvar.value[0], jsonSvar.value[0], melding.vedlegg),
                                            AktorId(melding.soker.aktorId)).(k9FormatSoknad := Some(K9FormatSoknadFor(melding).value))
    ensures r.Ok? ==> r.value.k9FormatSoknad == Some(K9FormatSoknadFor(melding).value)
    ensures r.Ok? ==> r.value.soknadId == melding.soknadId && r.value.soker.aktorId == melding.soker.aktorId
    ensures r.Ok? ==> r.value.dokumentUrls == KomplettDokumentUrls(pdfSvar.value[0], jsonSvar.value[0], melding.vedlegg)
    ensures r.Ok? ==> Flatten(r.value.dokumentUrls) == [pdfSvar.value[0], jsonSvar.value[0]] + melding.vedlegg
  {
    match Forste(pdfSvar)
    case Err(e) => Err(e)
    case Ok(pdfUrl) =>
      match K9FormatSoknadFor(melding)
      case Err(e) => Err(e)
      case Ok(k9) =>
        match Forste(jsonSvar)
        case Err(e) => Err(e)
        case Ok(jsonUrl) =>
          match MeldingV1Metrics.ReportMetrics(melding)
          case Some(e) => Err(e)
          case None =>
            KomplettFlatten(pdfUrl, jsonUrl, melding.vedlegg);
            Ok(FraMelding(melding, KomplettDokumentUrls(pdfUrl, jsonUrl, melding.vedlegg), AktorId(melding.soker.aktorId))
                 .(k9FormatSoknad := Some(k9)))
  }

  /** `PreprosseseringV1Service.preprosseser`: stores the PDF under the
      applicant's actor id, picks the canonical application, stores it as
      JSON, builds the bundles, reports the metrics (the enriched record's
      own `reportMetrics` does nothing) and returns the enriched application. */
  method Preprosseser(lager: DokumentGateway, melding: MeldingV1, metadata: Metadata, pdf: seq<bv8>,
                      pdfSvar: Result<seq<Uri>>, jsonSvar: Result<seq<Uri>>) returns (r: Result<PreprossesertMeldingV1>)
    modifies lager
    ensures r == PreprosseserResultat(melding, pdfSvar, jsonSvar)
    ensures !(Forste(pdfSvar).Ok? && K9FormatSoknadFor(melding).Ok?) ==>
              lager.kall == old(lager.kall) + [EldrePdfKall(melding, metadata, pdf)]
    ensures Forste(pdfSvar).Ok? && K9FormatSoknadFor(melding).Ok? ==>
              lager.kall == old(lager.kall) + [EldrePdfKall(melding, metadata, pdf),
                                               EldreJsonKall(melding, metadata, K9FormatSoknadFor(melding).value)]
  {
    var correlationId := CorrelationId(metadata.correlationId);
    var sokerAktorId := AktorId(melding.soker.aktorId);
    var pdfUrl := LagreSoknadsOppsummeringPdf(lager, pdf, sokerAktorId, correlationId, pdfSvar);
    if pdfUrl.Err? {
      return Err(pdfUrl.error);
    }
    var k9 := K9FormatSoknadFor(melding);
    if k9.Err? {
      return Err(k9.error);
    }
    var jsonUrl := LagreSoknadsMelding(lager, k9.value, sokerAktorId, correlationId, jsonSvar);
    if jsonUrl.Err? {
      return Err(jsonUrl.error);
    }
    var komplett := ByggDokumentbolker(pdfUrl.value, jsonUrl.value, melding.vedlegg);
    var preprosessert := FraMelding(melding, komplett, sokerAktorId).(k9FormatSoknad := Some(k9.value));
    var delDager := MeldingV1Metrics.TilAntallDelDager(melding.utbetalingsperioder);
    if delDager.Err? {
      return Err(delDager.error);
    }
    r := Ok(preprosessert);
  }
}
