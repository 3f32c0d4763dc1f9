/** The records that travel between stages (prosessering/v1/asynkron/Topics.kt)
    and the shape every stage has once the stream runtime is taken away:
    one incoming record, the calls made to collaborators, and at most one
    outgoing record. */
module Topics {
  import opened Common
  import K9Soknad
  import Preprosessert

  /** The journaling stage's result: the archive's id and the application
      in the older canonical form. */
  datatype Journalfort = Journalfort(journalpostId: string, soknad: K9Soknad.SnfSoknad)

  /** The record handed from journaling to cleanup. Topics.kt names the
      enriched application `melding`; the cleanup stage and the notification
      builder read the same field as `preprosessertMelding`. */
  datatype Cleanup = Cleanup(metadata: Metadata, melding: Preprosessert.PreprossesertMeldingV1, journalfortMelding: Journalfort)

  /** What one stage does with one record: nothing (filtered out), one
      record under the incoming key, or an exception that stops the stage. */
  datatype Output<+V> = Dropped | Emitted(key: string, value: TopicEntry<V>) | Crashed(error: Error)

  /** The collaborator calls a stage made for one record, in order, and its output. */
  datatype Step<+C, +V> = Step(calls: seq<C>, output: Output<V>)

  /** The only metadata version the stages accept. */
  const STOTTET_VERSJON: int := 1

  /** `erEtter`: strictly later than the cutoff. */
  predicate ErEtter(t: ZonedDateTime, gittDato: ZonedDateTime) {
    IsAfter(t, gittDato)
  }

  /** The per-record wrapper around a stage's transform: a value is sent on
      under the same key with the incoming metadata; an exception stops the
      stage. */
  function Prosesser<V>(key: string, metadata: Metadata, r: Result<V>): (o: Output<V>)
    ensures o.Emitted? <==> r.Ok?
    ensures o.Emitted? ==> o.key == key && o.value == TopicEntry(metadata, r.value)
    ensures r.Err? ==> o == Crashed(r.error)
  {
    match r
    case Ok(v) => Emitted(key, TopicEntry(metadata, v))
    case Err(e) => Crashed(e)
  }
}
