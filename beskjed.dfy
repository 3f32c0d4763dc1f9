/** The notification sent to the applicant once the documents are cleaned up
    (K9Beskjed.kt). The random event id is an input. */
module Beskjed {
  import opened Common
  import opened Topics

  datatype K9Beskjed = K9Beskjed(
    metadata: Metadata,
    grupperingsId: string,
    tekst: string,
    link: Option<string>,
    dagerSynlig: int,
    sokerFodselsnummer: string,
    eventId: string,
    ytelse: string)

  const TEKST_K9BESKJED: string := "Søknad om utbetaling av omsorgspenger er mottatt."
  const YTELSE_K9BESKJED: string := "OMSORGSPENGER_UT_SNF"
  const DAGER_SYNLIG_K9BESKJED: int := 7

  /** `Cleanup.tilK9Beskjed`: grouped by the application id, addressed to the
      applicant, fixed text, product and visibility, no link. */
  function TilK9Beskjed(cleanup: Cleanup, eventId: string): (b: K9Beskjed)
    ensures b.metadata == cleanup.metadata
    ensures b.grupperingsId == cleanup.melding.soknadId
    ensures b.sokerFodselsnummer == cleanup.melding.soker.fodselsnummer
    ensures b.tekst == TEKST_K9BESKJED && b.ytelse == YTELSE_K9BESKJED
    ensures b.dagerSynlig == 7 && b.link == None
    ensures b.eventId == eventId
  {
    K9Beskjed(
      metadata := cleanup.metadata,
      grupperingsId := cleanup.melding.soknadId,
      tekst := TEKST_K9BESKJED,
      sokerFodselsnummer := cleanup.melding.soker.fodselsnummer,
      dagerSynlig := DAGER_SYNLIG_K9BESKJED,
      link := None,
      eventId := eventId,
      ytelse := YTELSE_K9BESKJED)
  }

  /** Two notifications for the same cleanup record differ at most in the
      event id; the archive result does not affect the notification. */
  lemma ToBeskjederSkillerBareIEventId(cleanup: Cleanup, journalfort: Journalfort, a: string, b: string)
    ensures TilK9Beskjed(cleanup, a).(eventId := b) == TilK9Beskjed(cleanup.(journalfortMelding := journalfort), b)
    ensures TilK9Beskjed(cleanup, a) == TilK9Beskjed(cleanup, b) <==> a == b
  {
  }
}
