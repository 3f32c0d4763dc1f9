/** The request for registering children the applicant has sole custody of
    (prosessering/v1/asynkron/AleneOmOmsorgenProducer.kt). The sequence id
    (a ULID) is an input; the JSON text of the request is modelled by the
    request value itself. */
module AleneOmOmsorgen {
  import opened Common
  import opened Melding

  datatype BehovBarn = BehovBarn(identitetsnummer: string)

  datatype AleneOmOmsorgenBehov = AleneOmOmsorgenBehov(identitetsnummer: string, mottaksdato: LocalDate, barn: seq<BehovBarn>)

  datatype Behovssekvens = Behovssekvens(id: string, correlationId: string, behov: seq<AleneOmOmsorgenBehov>)

  /** A record sent by the producer: topic, key and value. */
  datatype ProducerRecord = ProducerRecord(topic: string, key: string, value: TopicEntry<Behovssekvens>)

  const K9_RAPID_V2: string := "k9-rapid-v2"

  /** The children with sole custody, in input order, by their ids. */
  function AleneOmOmsorgenBarn(barn: seq<Barn>): (r: seq<BehovBarn>)
    ensures |r| <= |barn|
    ensures forall i :: 0 <= i < |barn| && barn[i].aleneOmOmsorgen ==> BehovBarn(barn[i].identitetsnummer) in r
    ensures forall x :: x in r ==> exists i :: 0 <= i < |barn| && barn[i].aleneOmOmsorgen && x == BehovBarn(barn[i].identitetsnummer)
  {
    if barn == [] then []
    else
      var rest := AleneOmOmsorgenBarn(barn[1..]);
      assert forall i :: 1 <= i < |barn| ==> barn[i] == barn[1..][i - 1];
      if barn[0].aleneOmOmsorgen then [BehovBarn(barn[0].identitetsnummer)] + rest else rest
  }

  /** Order: selecting from two lists one after the other is selecting from
      their concatenation. With the one-child case below this fixes the
      result completely. */
  lemma {:induction false} AleneOmOmsorgenBarnAppend(a: seq<Barn>, b: seq<Barn>)
    ensures AleneOmOmsorgenBarn(a + b) == AleneOmOmsorgenBarn(a) + AleneOmOmsorgenBarn(b)
    decreases |a|
  {
    if a == [] {
      assert a + b == b;
    } else {
      assert (a + b)[1..] == a[1..] + b;
      AleneOmOmsorgenBarnAppend(a[1..], b);
    }
  }

  lemma AleneOmOmsorgenBarnEtt(x: Barn)
    ensures AleneOmOmsorgenBarn([x]) == if x.aleneOmOmsorgen then [BehovBarn(x.identitetsnummer)] else []
  {
  }

  /** When no child has the flag the list is empty; when all have it, every
      child is in it, in order. */
  lemma {:induction false} AleneOmOmsorgenBarnAlle(barn: seq<Barn>)
    requires forall i :: 0 <= i < |barn| ==> barn[i].aleneOmOmsorgen
    ensures |AleneOmOmsorgenBarn(barn)| == |barn|
    ensures forall i :: 0 <= i < |barn| ==> AleneOmOmsorgenBarn(barn)[i] == BehovBarn(barn[i].identitetsnummer)
    decreases |barn|
  {
    if barn != [] {
      AleneOmOmsorgenBarnAlle(barn[1..]);
    }
  }

  lemma {:induction false} AleneOmOmsorgenBarnIngen(barn: seq<Barn>)
    requires forall i :: 0 <= i < |barn| ==> !barn[i].aleneOmOmsorgen
    ensures AleneOmOmsorgenBarn(barn) == []
    decreases |barn|
  {
    if barn != [] {
      AleneOmOmsorgenBarnIngen(barn[1..]);
    }
  }

  /** `tilK9RapidBehovssekvens`: one need, for the applicant, dated by the
      local date of receipt, listing the children with sole custody. */
  function TilK9RapidBehovssekvens(melding: MeldingV1, metadata: Metadata, ulid: string): (b: Behovssekvens)
    ensures b.id == ulid && b.correlationId == metadata.correlationId
    ensures |b.behov| == 1
    ensures b.behov[0].identitetsnummer == melding.soker.fodselsnummer
    ensures b.behov[0].mottaksdato == ToLocalDate(melding.mottatt)
    ensures b.behov[0].barn == AleneOmOmsorgenBarn(melding.barn)
  {
    Behovssekvens(ulid, metadata.correlationId,
      [AleneOmOmsorgenBehov(melding.soker.fodselsnummer, ToLocalDate(melding.mottatt), AleneOmOmsorgenBarn(melding.barn))])
  }

  /** The record `leggPåKø` sends: keyed by the sequence id, carrying the
      incoming metadata. */
  function LeggPaKo(melding: MeldingV1, metadata: Metadata, ulid: string): (r: ProducerRecord)
    ensures r.topic == K9_RAPID_V2
    ensures r.key == ulid && r.key == r.value.data.id
    ensures r.value.metadata == metadata
    ensures r.value.data == TilK9RapidBehovssekvens(melding, metadata, ulid)
  {
    ProducerRecord(K9_RAPID_V2, ulid, TopicEntry(metadata, TilK9RapidBehovssekvens(melding, metadata, ulid)))
  }

  /** `SøknadSerializer.serialize`: only the payload is written. */
  function Serialiser(entry: TopicEntry<Behovssekvens>): Behovssekvens {
    entry.data
  }

  /** The metadata never reaches the serialised form: two records with the
      same payload serialise alike whatever their metadata. */
  lemma SerialiseringUtenMetadata(a: TopicEntry<Behovssekvens>, b: TopicEntry<Behovssekvens>)
    requires a.data == b.data
    ensures Serialiser(a) == Serialiser(b)
  {
  }
}
