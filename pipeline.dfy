/** The three stages of one application chained together
    (prosessering/v1/asynkron/AsynkronProsesseringV1Service.kt wires them:
    preprocessing, archiving, cleanup). */
module Pipeline {
  import opened Common
  import opened Melding
  import opened Dokument
  import opened Topics
  import opened Beskjed
  import PreprosesseringStream
  import Journalforing
  import CleanupStream
  import Preprosessering
  import MeldingV1Metrics

  /** An accepted application whose periods all have a `lengde` (the
      metrics report throws otherwise, see
      PreprosesseringStream.HeleDagerStopperForbehandlingen) and whose
      documents are stored and archived travels through all three stages
      under one key and one metadata; the cleanup deletes exactly the two
      stored documents and the attachments,
      as the applicant, and the notification is grouped by the application
      id and addressed to the applicant. */
  lemma EndeTilEnde(key: string, entry: TopicEntry<MeldingV1>, gittDato: ZonedDateTime,
                                       pdf: seq<bv8>, pdfUrl: Uri, jsonUrl: Uri, journalpostId: string, eventId: string)
    requires entry.data.k9FormatSoknad.Some?
    requires PreprosesseringStream.Akseptert(entry, gittDato)
    requires forall i :: 0 <= i < |entry.data.utbetalingsperioder| ==> entry.data.utbetalingsperioder[i].lengde.Some?
    ensures var s1 := PreprosesseringStream.Topologi(key, entry, gittDato, pdf, Ok([pdfUrl]), Ok([jsonUrl]));
            s1.output.Emitted? && s1.output.key == key && s1.output.value.metadata == entry.metadata &&
            var s2 := Journalforing.Topologi(key, s1.output.value, gittDato, Ok(journalpostId));
            s2.output.Emitted? && s2.output.key == key && s2.output.value.metadata == entry.metadata &&
            s2.output.value.data.journalfortMelding.journalpostId == journalpostId &&
            var s3 := CleanupStream.Topologi(key, s2.output.value, gittDato, None, eventId);
            s3.calls == [Slett([pdfUrl, jsonUrl] + entry.data.vedlegg, Aktor(AktorId(entry.data.soker.aktorId)),
                               CorrelationId(entry.metadata.correlationId))] &&
            s3.output.Emitted? && s3.output.key == key && s3.output.value.metadata == entry.metadata &&
            s3.output.value.data.grupperingsId == entry.data.soknadId &&
            s3.output.value.data.sokerFodselsnummer == entry.data.soker.fodselsnummer
  {
    var s1 := PreprosesseringStream.Topologi(key, entry, gittDato, pdf, Ok([pdfUrl]), Ok([jsonUrl]));
    var r := Preprosessering.PreprosesserResultat(entry.data, Ok([pdfUrl]), Ok([jsonUrl]));
    assert Forste(Ok([pdfUrl])) == Ok(pdfUrl) && Forste(Ok([jsonUrl])) == Ok(jsonUrl);
    assert MeldingV1Metrics.ReportMetrics(entry.data).None?;
    var p := s1.output.value;
    assert Ok(p.data) == r;
    assert p.data.mottatt == entry.data.mottatt && p.data.soker.aktorId == entry.data.soker.aktorId;
    assert Journalforing.Akseptert(p, gittDato);
    var s2 := Journalforing.Topologi(key, p, gittDato, Ok(journalpostId));
    var c := s2.output.value;
    assert c.data.melding == p.data;
    assert CleanupStream.Akseptert(c, gittDato);
    assert Flatten(c.data.melding.dokumentUrls) == [pdfUrl, jsonUrl] + entry.data.vedlegg;
  }
}
