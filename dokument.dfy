/** The document-store side of the pipeline: the bundle list and its
    flattening, the gateway (as a log of the calls made to it), and the two
    services that store and delete documents through it
    (dokument/DokumentService.kt and k9mellomlagring/K9MellomlagringService.kt). */
module Dokument {
  import opened Common
  import K9Soknad

  /** What a stored document holds: the rendered summary PDF, or the
      canonical application serialised as JSON. */
  datatype Innhold = Pdf(bytes: seq<bv8>) | SoknadJson(soknad: K9Soknad.Soknad)

  /** A document handed to the store; the owner is part of the document for
      the intermediate store and a separate argument for the older one. */
  datatype Dokument = Dokument(eier: Option<DokumentEier>, content: Innhold, contentType: string, title: string)

  datatype Eier = Aktor(aktorId: AktorId) | Fnr(dokumentEier: DokumentEier)

  /** One call made to the document store. */
  datatype Kall =
    | Lagre(dokumenter: set<Dokument>, aktorId: Option<AktorId>, correlationId: CorrelationId)
    | Slett(urls: seq<Uri>, eier: Eier, correlationId: CorrelationId)

  /** The document store as the services see it: every call is appended to
      `kall`; what the store answers is passed in by the caller. */
  class DokumentGateway {
    var kall: seq<Kall>

    constructor ()
      ensures kall == []
    {
      kall := [];
    }

    method LagreDokumenter(dokumenter: set<Dokument>, aktorId: Option<AktorId>, correlationId: CorrelationId,
                           svar: Result<seq<Uri>>) returns (r: Result<seq<Uri>>)
      modifies this
      ensures kall == old(kall) + [Lagre(dokumenter, aktorId, correlationId)]
      ensures r == svar
    {
      kall := kall + [Lagre(dokumenter, aktorId, correlationId)];
      r := svar;
    }

    method SlettDokumenter(urls: seq<Uri>, eier: Eier, correlationId: CorrelationId, svar: Option<Error>)
      returns (feil: Option<Error>)
      modifies this
      ensures kall == old(kall) + [Slett(urls, eier, correlationId)]
      ensures feil == svar
    {
      kall := kall + [Slett(urls, eier, correlationId)];
      feil := svar;
    }
  }

  /** All ids of all bundles, bundle after bundle, each bundle in its own order. */
  function Flatten(bolker: seq<seq<Uri>>): seq<Uri>
    decreases |bolker|
  {
    if bolker == [] then [] else Flatten(bolker[..|bolker| - 1]) + bolker[|bolker| - 1]
  }

  /** The sum of the bundle sizes. */
  function AntallDokumenter(bolker: seq<seq<Uri>>): nat
    decreases |bolker|
  {
    if bolker == [] then 0 else |bolker[0]| + AntallDokumenter(bolker[1..])
  }

  /** Flattening distributes over concatenation of bundle lists. */
  lemma {:induction false} FlattenAppend(a: seq<seq<Uri>>, b: seq<seq<Uri>>)
    ensures Flatten(a + b) == Flatten(a) + Flatten(b)
    decreases |b|
  {
    if b == [] {
      assert a + b == a;
    } else {
      assert (a + b)[..|a + b| - 1] == a + b[..|b| - 1];
      FlattenAppend(a, b[..|b| - 1]);
    }
  }

  /** The flattened list holds as many ids as the bundles together. */
  lemma {:induction false} FlattenLength(bolker: seq<seq<Uri>>)
    ensures |Flatten(bolker)| == AntallDokumenter(bolker)
    decreases |bolker|
  {
    if bolker != [] {
      assert bolker == [bolker[0]] + bolker[1..];
      FlattenAppend([bolker[0]], bolker[1..]);
      assert Flatten([bolker[0]]) == Flatten([]) + bolker[0];
      FlattenLength(bolker[1..]);
    }
  }

  /** `first()` of the list the store answers: the first id, or an exception
      when the store failed or answered with no id. */
  function Forste(svar: Result<seq<Uri>>): (r: Result<Uri>)
    ensures r.Ok? <==> svar.Ok? && |svar.value| > 0
    ensures r.Ok? ==> r.value == svar.value[0]
    ensures svar.Ok? && svar.value == [] ==> r == Err(NoSuchElementException)
    ensures svar.Err? ==> r == Err(svar.error)
  {
    match svar
    case Err(e) => Err(e)
    case Ok(urls) => if urls == [] then Err(NoSuchElementException) else Ok(urls[0])
  }

  const PDF_TITTEL: string := "Søknad om omsorgspengerutbetaling"
  const JSON_TITTEL: string := "Søknad om omsorgspengerutbetaling som JSON"

  // ---- DokumentService (the older document store) ----

  /** `DokumentService.lagreDokument`: one store call with a one-element set,
      answering the first id. */
  method LagreDokument(gateway: DokumentGateway, dokument: Dokument, aktorId: AktorId,
                       correlationId: CorrelationId, svar: Result<seq<Uri>>) returns (r: Result<Uri>)
    modifies gateway
    ensures gateway.kall == old(gateway.kall) + [Lagre({dokument}, Some(aktorId), correlationId)]
    ensures r == Forste(svar)
  {
    var urls := gateway.LagreDokumenter({dokument}, Some(aktorId), correlationId, svar);
    r := Forste(urls);
  }

  /** The summary PDF is stored as "application/pdf" under its fixed title. */
  method LagreSoknadsOppsummeringPdf(gateway: DokumentGateway, pdf: seq<bv8>, aktorId: AktorId,
                                     correlationId: CorrelationId, svar: Result<seq<Uri>>) returns (r: Result<Uri>)
    modifies gateway
    ensures gateway.kall == old(gateway.kall) +
      [Lagre({Dokument(None, Pdf(pdf), "application/pdf", PDF_TITTEL)}, Some(aktorId), correlationId)]
    ensures r == Forste(svar)
  {
    r := LagreDokument(gateway, Dokument(None, Pdf(pdf), "application/pdf", PDF_TITTEL), aktorId, correlationId, svar);
  }

  /** The application is stored as "application/json" under its fixed title. */
  method LagreSoknadsMelding(gateway: DokumentGateway, melding: K9Soknad.Soknad, aktorId: AktorId,
                             correlationId: CorrelationId, svar: Result<seq<Uri>>) returns (r: Result<Uri>)
    modifies gateway
    ensures gateway.kall == old(gateway.kall) +
      [Lagre({Dokument(None, SoknadJson(melding), "application/json", JSON_TITTEL)}, Some(aktorId), correlationId)]
    ensures r == Forste(svar)
  {
    r := LagreDokument(gateway, Dokument(None, SoknadJson(melding), "application/json", JSON_TITTEL), aktorId, correlationId, svar);
  }

  /** The one delete call `slettDokumeter` makes for these bundles: every id
      of every bundle, bundle after bundle, as the given actor. */
  function Sletting(urlBolks: seq<seq<Uri>>, aktorId: AktorId, correlationId: CorrelationId): (k: Kall)
    ensures k.Slett? && k.urls == Flatten(urlBolks) && |k.urls| == AntallDokumenter(urlBolks)
    ensures k.eier == Aktor(aktorId) && k.correlationId == correlationId
  {
    FlattenLength(urlBolks);
    Slett(Flatten(urlBolks), Aktor(aktorId), correlationId)
  }

  /** `DokumentService.slettDokumeter`: gathers the ids of every bundle into
      one list and makes exactly one delete call with it, even when there is
      nothing to delete. */
  method SlettDokumenter(gateway: DokumentGateway, urlBolks: seq<seq<Uri>>, aktorId: AktorId,
                         correlationId: CorrelationId, svar: Option<Error>) returns (feil: Option<Error>)
    modifies gateway
    ensures gateway.kall == old(gateway.kall) + [Sletting(urlBolks, aktorId, correlationId)]
    ensures feil == svar
  {
    var urls: seq<Uri> := [];
    var i := 0;
    while i < |urlBolks|
      invariant 0 <= i <= |urlBolks|
      invariant urls == Flatten(urlBolks[..i])
    {
      urls := urls + urlBolks[i];
      assert urlBolks[..i + 1][..i] == urlBolks[..i];
      i := i + 1;
    }
    assert urlBolks[..i] == urlBolks;
    feil := gateway.SlettDokumenter(urls, Aktor(aktorId), correlationId, svar);
  }

  // ---- K9MellomlagringService (the intermediate store) ----

  /** `K9MellomlagringService.lagreDokument`: the owner travels inside the
      document; one store call with a one-element set. */
  method MellomlagringLagreDokument(gateway: DokumentGateway, dokument: Dokument, correlationId: CorrelationId,
                                    svar: Result<seq<Uri>>) returns (r: Result<Uri>)
    modifies gateway
    ensures gateway.kall == old(gateway.kall) + [Lagre({dokument}, None, correlationId)]
    ensures r == Forste(svar)
  {
    var urls := gateway.LagreDokumenter({dokument}, None, correlationId, svar);
    r := Forste(urls);
  }

  /** `K9MellomlagringService.slettDokumeter`: one delete call with the
      flattened bundles, the owner and the correlation id unchanged. */
  method MellomlagringSlettDokumenter(gateway: DokumentGateway, urlBolks: seq<seq<Uri>>, dokumentEier: DokumentEier,
                                      correlationId: CorrelationId, svar: Option<Error>) returns (feil: Option<Error>)
    modifies gateway
    ensures gateway.kall == old(gateway.kall) + [Slett(Flatten(urlBolks), Fnr(dokumentEier), correlationId)]
    ensures feil == svar
  {
    feil := gateway.SlettDokumenter(Flatten(urlBolks), Fnr(dokumentEier), correlationId, svar);
  }
}
