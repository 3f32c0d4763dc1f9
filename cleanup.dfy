/** The cleanup stage (prosessering/v1/asynkron/CleanupStream.kt): deletes
    every stored document of the application, then sends the applicant a
    notification. The store's answer and the notification's event id are
    inputs. */
module CleanupStream {
  import opened Common
  import opened Dokument
  import opened Topics
  import opened Beskjed

  /** Both filters of the topology; the cutoff is checked against the
      enriched application's receipt time. */
  predicate Akseptert(entry: TopicEntry<Cleanup>, gittDato: ZonedDateTime) {
    ErEtter(entry.data.melding.mottatt, gittDato) && entry.metadata.version == STOTTET_VERSJON
  }

  /** The stage applied to one record. The notification is built only after
      the delete call returned; a failing delete stops the stage with no
      notification. */
  function Topologi(key: string, entry: TopicEntry<Cleanup>, gittDato: ZonedDateTime,
                    slettSvar: Option<Error>, eventId: string): (s: Step<Kall, K9Beskjed>)
    ensures s.output.Dropped? <==> !Akseptert(entry, gittDato)
    ensures !Akseptert(entry, gittDato) ==> s.calls == []
    ensures Akseptert(entry, gittDato) ==>
              s.calls == [Sletting(entry.data.melding.dokumentUrls, AktorId(entry.data.melding.soker.aktorId),
                                   CorrelationId(entry.metadata.correlationId))]
    ensures s.output.Emitted? <==> Akseptert(entry, gittDato) && slettSvar.None?
    ensures s.output.Emitted? ==>
              s.output.key == key && s.output.value == TopicEntry(entry.metadata, TilK9Beskjed(entry.data, eventId))
    ensures s.output.Crashed? ==> s.output.error == slettSvar.value
  {
    if !Akseptert(entry, gittDato) then Step([], Dropped)
    else
      var beskjed := match slettSvar
        case None => Ok(TilK9Beskjed(entry.data, eventId))
        case Some(e) => Err(e);
      var sletting := Sletting(entry.data.melding.dokumentUrls, AktorId(entry.data.melding.soker.aktorId),
                               CorrelationId(entry.metadata.correlationId));
      Step([sletting], Prosesser(key, entry.metadata, beskjed))
  }
}

/** The employee variant of cleanup
    (prosessering/v1/asynkron/arbeidstaker/ArbeidstakerutbetalingCleanupStream.kt):
    only the version filter, the same deletion, then the archived record is
    sent on unchanged. Its type is not part of this model, hence the
    parameter `J`. */
module ArbeidstakerCleanupStream {
  import opened Common
  import opened Dokument
  import opened Topics
  import opened Arbeidstaker

  datatype ArbeidstakerCleanup<J> = ArbeidstakerCleanup(
    metadata: Metadata,
    melding: PreprosessertArbeidstakerutbetalingMelding,
    journalfortMelding: J)

  /** The stage applied to one record. */
  function Topologi<J>(key: string, entry: TopicEntry<ArbeidstakerCleanup<J>>, slettSvar: Option<Error>)
    : (s: Step<Kall, J>)
    ensures s.output.Dropped? <==> entry.metadata.version != STOTTET_VERSJON
    ensures s.output.Dropped? ==> s.calls == []
    ensures !s.output.Dropped? ==>
              s.calls == [Sletting(entry.data.melding.dokumentUrls, AktorId(entry.data.melding.soker.aktorId),
                                   CorrelationId(entry.metadata.correlationId))]
    ensures s.output.Emitted? <==> entry.metadata.version == STOTTET_VERSJON && slettSvar.None?
    ensures s.output.Emitted? ==>
              s.output.key == key && s.output.value == TopicEntry(entry.metadata, entry.data.journalfortMelding)
    ensures s.output.Crashed? ==> s.output.error == slettSvar.value
  {
    if entry.metadata.version != STOTTET_VERSJON then Step([], Dropped)
    else
      var videre := match slettSvar
        case None => Ok(entry.data.journalfortMelding)
        case Some(e) => Err(e);
      var sletting := Sletting(entry.data.melding.dokumentUrls, AktorId(entry.data.melding.soker.aktorId),
                               CorrelationId(entry.metadata.correlationId));
      Step([sletting], Prosesser(key, entry.metadata, videre))
  }
}
