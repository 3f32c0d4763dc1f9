# Omsorgspengerutbetaling processing — a Dafny model

This project models the per-record business logic of the pipeline that
processes applications for payment of care benefits (omsorgspengerutbetaling).
The pipeline has three stages, each reading one record from a topic and
writing at most one record:

- **Preprocessing** stores a summary PDF and the canonical application (JSON)
  in a document store. It then builds the list of document bundles: first
  `[pdf, json]`, then one single-element bundle per attachment. Finally it
  enriches the application with that list.
- **Journaling** files the bundles with the archive. It hands a `Cleanup`
  record on, carrying the journal post id and the application in canonical
  form.
- **Cleanup** deletes every stored document, then sends the applicant a
  notification (`K9Beskjed`).

The employee variant of preprocessing and cleanup is modelled as well, and so
are the following:

- the conversion to the canonical K9 application format, in two versions;
- the request for children the applicant has sole custody of;
- the `JaNei` codec;
- the classifiers and counters of the metrics files;
- the text helpers of the PDF template;
- the Kafka configuration, including the one properties object that every
  `stream(name)` call updates in place.

Modelling choices:

- **Stages.** Each stage is a pure function. It takes the record, the cutoff
  time and the collaborators' answers (the rendered PDF, the store's replies,
  the archive's id, a random event id). It returns a `Step`: the calls it made,
  in order, and its output, which is either dropped, emitted under the incoming
  key, or an exception that stops the stage.
- **Stateful code.** Code that changes state step by step is imperative:
  - the document gateway is a class that logs the calls made to it;
  - the services and the bundle-building loops are methods;
  - the K9 builders are classes with a field that the setters reassign;
  - the Kafka properties are a `map` field of `KafkaConfig`.

  Each method is proved equal to a function, and the properties are proved
  about that function.
- **Time.** An instant is an epoch second with a zone offset. `erEtter`
  compares epoch seconds strictly. A local date is a day number. A duration is
  a number of seconds. JVM integer division truncates toward zero, and is
  written out as `Common.Quot` / `Common.Rem`.
- **Record fields.** The files of this snapshot do not agree on the fields of
  some records; for example, MeldingV1.kt declares no `vedlegg`, but the
  services read it. The datatypes carry every field that some modelled file
  reads, and each stage uses the fields its own file uses. MeldingV1.kt
  declares `k9FormatSøknad` non-null, and the newer preprocessing path requires
  it. The older service tests it for null, so the field is an `Option`.
- **Stored JSON.** The older document service is declared to store a
  `MeldingV1` as JSON. The older preprocessing service passes it the canonical
  application, so the model stores the canonical application.
- **Enriched application.** The newer preprocessing service calls a two-argument
  constructor of `PreprossesertMeldingV1`, which PreprossesertMeldingV1.kt does
  not declare. It is modelled by the declared three-argument constructor, with
  the applicant's actor id.
- **Metrics report.** Both preprocessing services call `reportMetrics` after
  both documents are stored. Its part-day count discards the result of its
  `filter`, so its `!!` meets every period. An application with a period
  applied for in whole days (no `lengde`) therefore makes preprocessing throw
  NullPointerException. The model keeps this: the stage stops on such a
  record (`PreprosesseringStream.HeleDagerStopperForbehandlingen`).
- **Cleanup record.** Topics.kt names the enriched application in `Cleanup`
  `melding`. The cleanup stage and `tilK9Beskjed` read it as
  `preprosessertMelding`. The model uses one field.
- **ASCII names.** Identifiers are ASCII: ø→o, æ→ae, å→a.

## Model

| member | source | states |
|---|---|---|
| Melding.JaNei.Boolean | src/main/kotlin/no/nav/helse/prosessering/v1/MeldingV1.kt:91 | the wrapped boolean is true exactly for `Ja` |
| Melding.FraBoolean | src/main/kotlin/no/nav/helse/prosessering/v1/MeldingV1.kt:98-102 | true gives Ja, false gives Nei, null throws IllegalStateException (all three as iffs) |
| Melding.JaNeiRoundTrip | src/main/kotlin/no/nav/helse/prosessering/v1/MeldingV1.kt:91-102 | `fraBoolean(j.boolean) == j` for every answer |
| Melding.BooleanRoundTrip | src/main/kotlin/no/nav/helse/prosessering/v1/MeldingV1.kt:91-102 | `fraBoolean(b).boolean == b` for every non-null boolean |
| Melding.NyMelding | src/main/kotlin/no/nav/helse/prosessering/v1/MeldingV1.kt:12-31 | an application built without the defaulted fields has no foster children, children or attachments, no freelancer or business part |
| Melding.NyVirksomhet | src/main/kotlin/no/nav/helse/prosessering/v1/MeldingV1.kt:58-75 | a business built without a fisher answer is not on "blad B" |
| Melding.ToStringRevealsNothing | src/main/kotlin/no/nav/helse/prosessering/v1/MeldingV1.kt:76-78 | the text of an applicant, foster child or business is the same whatever its field values |
| Preprosessert.FraSoker | src/main/kotlin/no/nav/helse/prosessering/v1/PreprossesertMeldingV1.kt:48-54 | national id and names copied, actor id taken from the looked-up AktørId |
| Preprosessert.NyPreprossesertMelding | src/main/kotlin/no/nav/helse/prosessering/v1/PreprossesertMeldingV1.kt:7-20 | `relasjonTilBarnet` defaults to null and `sammeAdresse` to false |
| Preprosessert.FraMelding | src/main/kotlin/no/nav/helse/prosessering/v1/PreprossesertMeldingV1.kt:21-38 | bundles stored exactly as given, applicant via FraSoker, the eleven other declared fields copied from the application; the six undeclared fields the later stages read are copied as well (see Left out) |
| Arbeidstaker.FraMelding | src/main/kotlin/no/nav/helse/prosessering/v1/asynkron/arbeidstaker/PreprosessertArbeidstakerutbetalingMelding.kt:22-39 | ids, time, language, employers, residences, stays, questions, periods, foster children and confirmations copied; bundles as given |
| Arbeidstaker.JobbHosNaavaerendeArbeidsgiverDropped | src/main/kotlin/no/nav/helse/prosessering/v1/asynkron/arbeidstaker/PreprosessertArbeidstakerutbetalingMelding.kt:22-39 | the answer about the current employer does not reach the enriched application |
| K9Soknad.PeriodeInfoBuilder.constructor | src/main/kotlin/no/nav/helse/k9format/K9Format.kt:117-120 | a new period-info builder holds no values |
| K9Soknad.PeriodeInfoBuilder.Virksomhetstyper | src/main/kotlin/no/nav/helse/k9format/K9Format.kt:119 | sets the business types and nothing else |
| K9Soknad.PeriodeInfoBuilder.RegistrertIUtlandet | src/main/kotlin/no/nav/helse/k9format/K9Format.kt:121 | sets the abroad flag and nothing else |
| K9Soknad.PeriodeInfoBuilder.SetLandkode | src/main/kotlin/no/nav/helse/k9format/K9Format.kt:123-124 | sets the country and nothing else |
| K9Soknad.PeriodeInfoBuilder.BruttoInntekt | src/main/kotlin/no/nav/helse/k9format/K9Format.kt:126 | sets the gross income and nothing else |
| K9Soknad.PeriodeInfoBuilder.ErNyoppstartet | src/main/kotlin/no/nav/helse/k9format/K9Format.kt:128 | sets the start-up flag and nothing else |
| K9Soknad.PeriodeInfoBuilder.Regnskapsforer | src/main/kotlin/no/nav/helse/k9format/K9Format.kt:130-134 | sets the accountant's name and phone and nothing else |
| K9Soknad.PeriodeInfoBuilder.ErVarigEndring | src/main/kotlin/no/nav/helse/k9format/K9Format.kt:135-136 | sets the lasting-change flag and nothing else |
| K9Soknad.PeriodeInfoBuilder.Endring | src/main/kotlin/no/nav/helse/k9format/K9Format.kt:137-141 | sets the change date and reason and nothing else |
| K9Soknad.SnfSoknadBuilder.constructor | src/main/kotlin/no/nav/helse/prosessering/v1/asynkron/JournalforingsStream.kt:95-98 | a new application builder holds the id, receipt time and applicant, nothing optional |
| K9Soknad.SnfSoknadBuilder.Fosterbarn | src/main/kotlin/no/nav/helse/prosessering/v1/asynkron/JournalforingsStream.kt:100 | sets the foster children and nothing else |
| K9Soknad.SnfSoknadBuilder.Frilanser | src/main/kotlin/no/nav/helse/prosessering/v1/asynkron/JournalforingsStream.kt:102 | sets the freelancer part and nothing else |
| K9Soknad.SnfSoknadBuilder.SelvstendigNaeringsdrivende | src/main/kotlin/no/nav/helse/prosessering/v1/asynkron/JournalforingsStream.kt:104 | sets the businesses and nothing else |
| K9Format.TilK9Soker | src/main/kotlin/no/nav/helse/k9format/K9Format.kt:170-171 | the canonical applicant carries the national id |
| K9Format.TilK9Barn | src/main/kotlin/no/nav/helse/k9format/K9Format.kt:164-168 | one child per foster child, in order, with its national id and no birth date |
| K9Format.TilFravaersperiode | src/main/kotlin/no/nav/helse/k9format/K9Format.kt:90-92 | one absence period per payment period, same length, order, dates and duration |
| K9Format.TilK9Virksomhetstype | src/main/kotlin/no/nav/helse/k9format/K9Format.kt:149-156 | each business type maps to the canonical type of the same name (iff per constant) |
| K9Format.TilK9VirksomhetstypeInjective | src/main/kotlin/no/nav/helse/k9format/K9Format.kt:149-156 | different business types never map to the same canonical type |
| K9Format.TilK9Virksomhetstyper | src/main/kotlin/no/nav/helse/k9format/K9Format.kt:149-156 | the list is mapped element by element, same length and order |
| K9Format.PeriodeLandMapKeys | src/main/kotlin/no/nav/helse/k9format/K9Format.kt:68-88 | the period map's keys are exactly the input's (fraOgMed, tilOgMed) pairs |
| K9Format.PeriodeLandMapLastWins | src/main/kotlin/no/nav/helse/k9format/K9Format.kt:68-88 | for a repeated period the last entry's country is the one kept |
| K9Format.TilK9Bosteder | src/main/kotlin/no/nav/helse/k9format/K9Format.kt:80-88 | the entry-by-entry loop over a mutable map yields the period map of the residences |
| K9Format.TilK9Utenlandsopphold | src/main/kotlin/no/nav/helse/k9format/K9Format.kt:68-78 | the same loop over the stays abroad yields their period map |
| K9Format.TilK9Frilanser | src/main/kotlin/no/nav/helse/k9format/K9Format.kt:158-161 | start date and "still freelancing" copied |
| K9Format.SelvstendigInfo | src/main/kotlin/no/nav/helse/k9format/K9Format.kt:117-143 | throws exactly when not registered in Norway and no foreign country is given; abroad flag is the negated Norway flag; NORGE or the foreign code; gross income iff income given; lasting change iff given, with date and reason; start-up flag copied |
| K9Format.TilK9SelvstendingNaeringsdrivendeInfo | src/main/kotlin/no/nav/helse/k9format/K9Format.kt:117-143 | the step-by-step builder calls produce SelvstendigInfo, including the early throw |
| K9Format.TilK9Virksomhet | src/main/kotlin/no/nav/helse/k9format/K9Format.kt:104-115 | one business: name, organisation number, and a one-period map holding its period info |
| K9Format.TilK9SelvstendigNaeringsdrivende | src/main/kotlin/no/nav/helse/k9format/K9Format.kt:104-115 | succeeds iff every business's period info does; then one canonical business per business, in order |
| K9Format.ArbeidAktivitetAv | src/main/kotlin/no/nav/helse/k9format/K9Format.kt:94-102 | freelancer part iff given, businesses as converted; fails iff a business conversion fails |
| K9Format.Soknad | src/main/kotlin/no/nav/helse/k9format/K9Format.kt:34-66 | version "2.0", id and receipt copied, applicant, foster children iff given, absence periods, residences, stays and activity as defined above |
| K9Format.MeldingTilK9Soknad | src/main/kotlin/no/nav/helse/k9format/K9Format.kt:51-66 | from an application: succeeds iff every business can be converted; version "2.0", id, receipt, ident and period count kept |
| K9Format.PreprosessertTilK9Soknad | src/main/kotlin/no/nav/helse/k9format/K9Format.kt:34-49 | the same from an enriched application |
| K9Format.ConversionCommutesWithEnrichment | src/main/kotlin/no/nav/helse/k9format/K9Format.kt:34-66 | enriching then converting gives the same canonical application as converting the application itself (given the six copied undeclared fields, see Left out) |
| Dokument.DokumentGateway.constructor | src/main/kotlin/no/nav/helse/dokument/DokumentService.kt:12-14 | a new gateway has made no calls |
| Dokument.DokumentGateway.LagreDokumenter | src/main/kotlin/no/nav/helse/dokument/DokumentService.kt:20-24 | one store call is logged; the store's answer is returned |
| Dokument.DokumentGateway.SlettDokumenter | src/main/kotlin/no/nav/helse/dokument/DokumentService.kt:68-72 | one delete call is logged; the store's answer is returned |
| Dokument.FlattenAppend | src/main/kotlin/no/nav/helse/dokument/DokumentService.kt:64-65 | flattening distributes over concatenation of bundle lists |
| Dokument.FlattenLength | src/main/kotlin/no/nav/helse/dokument/DokumentService.kt:64-67 | the flattened list has as many ids as the bundles together |
| Dokument.Forste | src/main/kotlin/no/nav/helse/dokument/DokumentService.kt:20-24 | `first()`: the first id; an empty answer throws NoSuchElementException; a failed store call passes its error on |
| Dokument.LagreDokument | src/main/kotlin/no/nav/helse/dokument/DokumentService.kt:15-25 | exactly one store call with a one-element set; the first returned id |
| Dokument.LagreSoknadsOppsummeringPdf | src/main/kotlin/no/nav/helse/dokument/DokumentService.kt:27-41 | the PDF is stored as "application/pdf" under its fixed title, under the actor id |
| Dokument.LagreSoknadsMelding | src/main/kotlin/no/nav/helse/dokument/DokumentService.kt:43-57 | the application is stored as "application/json" under its fixed title |
| Dokument.Sletting | src/main/kotlin/no/nav/helse/prosessering/v1/asynkron/CleanupStream.kt:49-53 | the delete request both cleanup stages make: every id of every bundle in order (as many as the bundles hold), as the applicant's actor, with the record's correlation id |
| Dokument.SlettDokumenter | src/main/kotlin/no/nav/helse/dokument/DokumentService.kt:59-73 | exactly one delete call, the one Sletting describes, even for no bundles; the store's answer is returned |
| Dokument.MellomlagringLagreDokument | src/main/kotlin/no/nav/helse/k9mellomlagring/K9MellomlagringService.kt:14-23 | one store call with a one-element set, owner inside the document; the first returned id |
| Dokument.MellomlagringSlettDokumenter | src/main/kotlin/no/nav/helse/k9mellomlagring/K9MellomlagringService.kt:24-34 | one delete call with the flattened bundles; owner and correlation id unchanged |
| Topics.Prosesser | src/main/kotlin/no/nav/helse/prosessering/v1/asynkron/JournalforingsStream.kt:56-84 | a value is emitted under the same key with the incoming metadata; an exception stops the stage |
| Preprosessering.Enkeltbolker | src/main/kotlin/no/nav/helse/prosessering/v1/PreprosesseringV1Service.kt:64 | one single-element bundle per attachment, in order |
| Preprosessering.KomplettDokumentUrls | src/main/kotlin/no/nav/helse/prosessering/v1/PreprosesseringV1Service.kt:56-64 | 1 + \|vedlegg\| bundles; bundle 0 is [pdf, json]; bundle i+1 is [vedlegg[i]] |
| Preprosessering.KomplettFlatten | src/main/kotlin/no/nav/helse/prosessering/v1/PreprosesseringV1Service.kt:66 | the flattened bundles are pdf, json, then the attachments: 2 + \|vedlegg\| ids |
| Preprosessering.ByggDokumentbolker | src/main/kotlin/no/nav/helse/prosessering/v1/PreprosseseringV1Service.kt:62-70 | the mutable list grown by one `add` per attachment is the complete bundle list |
| Preprosessering.OppsummeringPdf | src/main/kotlin/no/nav/helse/prosessering/v1/PreprosesseringV1Service.kt:35-43 | the PDF is owned by the applicant's national id and stored as "application/pdf" under the fixed title "Søknad om utbetaling av omsorgspenger" |
| Preprosessering.OppsummeringJson | src/main/kotlin/no/nav/helse/prosessering/v1/PreprosesseringV1Service.kt:46-54 | the canonical application is owned by the applicant's national id and stored as "application/json" under the fixed title "Søknad om utbetaling av omsorgspenger som JSON" |
| Preprosessering.PreprosesserResultat | src/main/kotlin/no/nav/helse/prosessering/v1/PreprosesseringV1Service.kt:21-75 | fails iff a store call fails (first failure) or, after both stores, `reportMetrics` throws NullPointerException; otherwise exactly FraMelding of the application with the complete bundle list and the applicant's actor id |
| Preprosessering.Preprosesser | src/main/kotlin/no/nav/helse/prosessering/v1/PreprosesseringV1Service.kt:21-75 | returns PreprosesserResultat, including the metrics exception; logs the PDF store call, then the JSON one only if the PDF was stored |
| Preprosessering.K9FormatSoknadFor | src/main/kotlin/no/nav/helse/prosessering/v1/PreprosseseringV1Service.kt:50-53 | the carried canonical application if present, else the one converted from the application |
| Preprosessering.PreprosseserResultat | src/main/kotlin/no/nav/helse/prosessering/v1/PreprosseseringV1Service.kt:22-84 | errors in call order (PDF store, conversion, JSON store, metrics NullPointerException); on success FraMelding with the complete bundle list, carrying the stored canonical application |
| Preprosessering.Preprosseser | src/main/kotlin/no/nav/helse/prosessering/v1/PreprosseseringV1Service.kt:22-84 | returns PreprosseserResultat; the PDF then the chosen canonical application are stored under the actor id, before the metrics can throw |
| PreprosesseringStream.Topologi | src/main/kotlin/no/nav/helse/prosessering/v1/asynkron/PreprosesseringStream.kt:39-55 | dropped with no call iff not after the cutoff or version is not 1; otherwise the service's calls, its result under the same key and metadata, or the stage stops with the service's exception |
| PreprosesseringStream.VedSkjaeringstidspunktetDroppes | src/main/kotlin/no/nav/helse/OmsorgspengerutbetalingeSoknadProsessering.kt:119 | a record received at the cutoff instant is dropped without any call |
| PreprosesseringStream.EmittertDokumentbolker | src/main/kotlin/no/nav/helse/prosessering/v1/asynkron/PreprosesseringStream.kt:43-52 | an emitted record has 1 + \|vedlegg\| bundles flattening to pdf, json, attachments |
| PreprosesseringStream.FireVedleggGirFemBolker | src/main/kotlin/no/nav/helse/prosessering/v1/asynkron/PreprosesseringStream.kt:43-52 | with both documents stored, four attachments are sent on iff every period has a length, and then as five bundles |
| PreprosesseringStream.HeleDagerStopperForbehandlingen | src/main/kotlin/no/nav/helse/prosessering/v1/PreprosesseringV1Service.kt:68-74 | a period without a length stops the stage with NullPointerException after both store calls, for every such application |
| ArbeidstakerPreprosesseringStream.Topologi | src/main/kotlin/no/nav/helse/prosessering/v1/asynkron/arbeidstaker/ArbeidstakerutbetalingPreprosseseringStream.kt:41-58 | dropped with no call iff version is not 1; otherwise one service call and its answer unchanged under the same key |
| ArbeidstakerPreprosesseringStream.IngenSkjaeringsdato | src/main/kotlin/no/nav/helse/prosessering/v1/asynkron/arbeidstaker/ArbeidstakerutbetalingPreprosseseringStream.kt:46 | whether a record is kept does not depend on its receipt time |
| Journalforing.JournalforingsInfo | src/main/kotlin/no/nav/helse/prosessering/v1/asynkron/JournalforingsStream.kt:122-151 | abroad flag is the Norway flag itself; NORGE, else the foreign code, else NORGE; start-up iff the last three years are given; lasting change, income and accountant as given |
| Journalforing.TilK9SelvstendingNaeringsdrivendeInfo | src/main/kotlin/no/nav/helse/prosessering/v1/asynkron/JournalforingsStream.kt:122-151 | the step-by-step builder calls with their overrides produce JournalforingsInfo |
| Journalforing.InfoVarianterSammenlignet | src/main/kotlin/no/nav/helse/prosessering/v1/asynkron/JournalforingsStream.kt:127-137 | against the K9Format mapping: opposite abroad flag, same country where that succeeds (NORGE where it throws), start-up flags agree iff the two answers do, all else equal |
| Journalforing.TilK9SelvstendingNaeringsdrivende | src/main/kotlin/no/nav/helse/prosessering/v1/asynkron/JournalforingsStream.kt:109-120 | one canonical business per business, in order, never throwing |
| Journalforing.SnfSoknadAv | src/main/kotlin/no/nav/helse/prosessering/v1/asynkron/JournalforingsStream.kt:94-107 | id, receipt and ident copied; foster children, freelancer and businesses set iff present |
| Journalforing.TilKOmsorgspengerUtbetalingSoknad | src/main/kotlin/no/nav/helse/prosessering/v1/asynkron/JournalforingsStream.kt:94-107 | the builder calls produce SnfSoknadAv |
| Journalforing.JournalforingAv | src/main/kotlin/no/nav/helse/prosessering/v1/asynkron/JournalforingsStream.kt:59-72 | the archive gets the bundles unchanged, ident, actor id and name from the applicant, correlation id from the metadata |
| Journalforing.Topologi | src/main/kotlin/no/nav/helse/prosessering/v1/asynkron/JournalforingsStream.kt:49-86 | dropped with no call iff not accepted; else one archive call; emitted iff the archive answers, with metadata and application unchanged and the returned journal post id |
| Beskjed.TilK9Beskjed | src/main/kotlin/no/nav/helse/K9Beskjed.kt:22-33 | grouped by the application id, addressed to the applicant, fixed text and product, visible 7 days, no link, metadata unchanged |
| Beskjed.ToBeskjederSkillerBareIEventId | src/main/kotlin/no/nav/helse/K9Beskjed.kt:22-33 | two notifications for one cleanup record differ only in event id, and are equal iff their event ids are |
| CleanupStream.Topologi | src/main/kotlin/no/nav/helse/prosessering/v1/asynkron/CleanupStream.kt:41-60 | dropped with no call iff not accepted; else one delete call; the notification is emitted iff the delete succeeded, otherwise the stage stops with its error |
| ArbeidstakerCleanupStream.Topologi | src/main/kotlin/no/nav/helse/prosessering/v1/asynkron/arbeidstaker/ArbeidstakerutbetalingCleanupStream.kt:43-62 | version filter only; the delete call, then the archived record forwarded unchanged under the same key |
| Pipeline.EndeTilEnde | src/main/kotlin/no/nav/helse/prosessering/v1/asynkron/AsynkronProsesseringV1Service.kt:23-36 | an accepted application whose periods all have a length flows through all three stages under one key and metadata; cleanup deletes exactly pdf, json and the attachments; the notification is for the applicant |
| AleneOmOmsorgen.AleneOmOmsorgenBarn | src/main/kotlin/no/nav/helse/prosessering/v1/asynkron/AleneOmOmsorgenProducer.kt:61-63 | exactly the children with sole custody, by id |
| AleneOmOmsorgen.AleneOmOmsorgenBarnAppend | src/main/kotlin/no/nav/helse/prosessering/v1/asynkron/AleneOmOmsorgenProducer.kt:61-63 | the selection distributes over concatenation, so input order is kept |
| AleneOmOmsorgen.AleneOmOmsorgenBarnEtt | src/main/kotlin/no/nav/helse/prosessering/v1/asynkron/AleneOmOmsorgenProducer.kt:61-63 | one child is kept iff it has sole custody |
| AleneOmOmsorgen.AleneOmOmsorgenBarnAlle | src/main/kotlin/no/nav/helse/prosessering/v1/asynkron/AleneOmOmsorgenProducer.kt:61-63 | when all children have the flag, all are listed in order |
| AleneOmOmsorgen.AleneOmOmsorgenBarnIngen | src/main/kotlin/no/nav/helse/prosessering/v1/asynkron/AleneOmOmsorgenProducer.kt:61-63 | when none has the flag, the list is empty |
| AleneOmOmsorgen.TilK9RapidBehovssekvens | src/main/kotlin/no/nav/helse/prosessering/v1/asynkron/AleneOmOmsorgenProducer.kt:59-76 | id is the ulid, correlation id from metadata, exactly one need for the applicant dated by the local receipt date |
| AleneOmOmsorgen.LeggPaKo | src/main/kotlin/no/nav/helse/prosessering/v1/asynkron/AleneOmOmsorgenProducer.kt:35-54 | sent to k9-rapid-v2, keyed by the sequence id, with the incoming metadata |
| AleneOmOmsorgen.SerialiseringUtenMetadata | src/main/kotlin/no/nav/helse/prosessering/v1/asynkron/AleneOmOmsorgenProducer.kt:80-86 | the serialised form depends on the payload only |
| MeldingV1Metrics.TilJaEllerNei | src/main/kotlin/no/nav/helse/prosessering/v1/MeldingV1Metrics.kt:127 | "Ja" iff true, else "Nei" |
| MeldingV1Metrics.AntallTimePerioder | src/main/kotlin/no/nav/helse/prosessering/v1/MeldingV1Metrics.kt:88-93 | the count of periods with a length: all iff every one has one, zero iff none has |
| MeldingV1Metrics.AntallDagPerioder | src/main/kotlin/no/nav/helse/prosessering/v1/MeldingV1Metrics.kt:114-119 | the periods without a length are the rest |
| MeldingV1Metrics.SokerBareOmTimer | src/main/kotlin/no/nav/helse/prosessering/v1/MeldingV1Metrics.kt:88-93 | "Ja" iff the list is non-empty and every period has a length |
| MeldingV1Metrics.SokerBareOmDager | src/main/kotlin/no/nav/helse/prosessering/v1/MeldingV1Metrics.kt:114-119 | "Ja" iff the list is non-empty and no period has a length |
| MeldingV1Metrics.SokerOmBadeDagerOgTimer | src/main/kotlin/no/nav/helse/prosessering/v1/MeldingV1Metrics.kt:121-124 | "Ja" iff the periods combine both kinds: at least one in hours and at least one in whole days (or there are no periods at all); otherwise "Nei" |
| MeldingV1Metrics.EksaktEnJa | src/main/kotlin/no/nav/helse/prosessering/v1/MeldingV1Metrics.kt:88-124 | exactly one of the three labels is "Ja"; the empty list counts as "both" |
| MeldingV1Metrics.TilAntallHeleDager | src/main/kotlin/no/nav/helse/prosessering/v1/MeldingV1Metrics.kt:95-102 | the filter's result is discarded: the absolute value of the day spans summed over all periods |
| MeldingV1Metrics.SumDagerAppend | src/main/kotlin/no/nav/helse/prosessering/v1/MeldingV1Metrics.kt:95-102 | the day-span sum distributes over concatenation |
| MeldingV1Metrics.DagerIVarighet | src/main/kotlin/no/nav/helse/prosessering/v1/MeldingV1Metrics.kt:104-111 | whole days of a duration, truncating toward zero |
| MeldingV1Metrics.SumDelDager | src/main/kotlin/no/nav/helse/prosessering/v1/MeldingV1Metrics.kt:104-111 | throws NullPointerException iff some period has no length |
| MeldingV1Metrics.TilAntallDelDager | src/main/kotlin/no/nav/helse/prosessering/v1/MeldingV1Metrics.kt:104-111 | the accumulating loop computes SumDelDager, failing at the first period without a length |
| MeldingV1Metrics.SumDelDagerErr | src/main/kotlin/no/nav/helse/prosessering/v1/MeldingV1Metrics.kt:104-111 | once a prefix throws, the whole list throws |
| MeldingV1Metrics.BlandetFeiler | src/main/kotlin/no/nav/helse/prosessering/v1/MeldingV1Metrics.kt:104-124 | a list mixing days and hours always makes the part-day count throw |
| MeldingV1Metrics.ReportMetrics | src/main/kotlin/no/nav/helse/prosessering/v1/MeldingV1Metrics.kt:47-86 | reporting throws NullPointerException exactly when some period has no length (the discarded filter lets `!!` meet it); otherwise it completes |
| MeldingV1Metrics.SettInn | src/main/kotlin/no/nav/helse/prosessering/v1/MeldingV1Metrics.kt:71 | inserting into a descending list keeps it descending and adds exactly the new element |
| MeldingV1Metrics.SortertSynkende | src/main/kotlin/no/nav/helse/prosessering/v1/MeldingV1Metrics.kt:71 | the result is sorted descending and a permutation of the input |
| MeldingV1Metrics.SortertEntydig | src/main/kotlin/no/nav/helse/prosessering/v1/MeldingV1Metrics.kt:71 | two descending permutations of the same multiset are equal |
| MeldingV1Metrics.OrdinalInjektiv | src/main/kotlin/no/nav/helse/prosessering/v1/MeldingV1Metrics.kt:71 | distinct business types have distinct ordinals |
| MeldingV1Metrics.NaeringstypeLabelUavhengigAvRekkefolge | src/main/kotlin/no/nav/helse/prosessering/v1/MeldingV1Metrics.kt:71 | the business-type label depends only on the multiset of types |
| ArbeidstakerMetrics.TilAntallDelDager | src/main/kotlin/no/nav/helse/prosessering/v1/asynkron/arbeidstaker/ArbeidstakerutbetalingMeldingMetrics.kt:75-82 | the loop sums whole days of the lengths, a missing length counting as 0, and never throws |
| ArbeidstakerMetrics.IkkeNegativ | src/main/kotlin/no/nav/helse/prosessering/v1/asynkron/arbeidstaker/ArbeidstakerutbetalingMeldingMetrics.kt:75-82 | non-negative lengths give a non-negative count |
| ArbeidstakerMetrics.VarianterSammenlignet | src/main/kotlin/no/nav/helse/prosessering/v1/asynkron/arbeidstaker/ArbeidstakerutbetalingMeldingMetrics.kt:75-82 | where the other metrics' count does not throw, both counts agree |
| PdfTekst.FormatertNavn | src/main/kotlin/no/nav/helse/prosessering/v1/PdfV1Generator.kt:192 | the length of "fornavn [mellomnavn] etternavn" with one space between parts |
| PdfTekst.FormatertNavnOrd | src/main/kotlin/no/nav/helse/prosessering/v1/PdfV1Generator.kt:192 | for names without spaces, the words of the formatted name are exactly the given names, the middle name only when present |
| PdfTekst.Split | src/main/kotlin/no/nav/helse/prosessering/v1/PdfV1Generator.kt:194 | at least one piece, none containing a space |
| PdfTekst.JoinSplit | src/main/kotlin/no/nav/helse/prosessering/v1/PdfV1Generator.kt:194 | joining the pieces with " " gives the string back |
| PdfTekst.SplitForan | src/main/kotlin/no/nav/helse/prosessering/v1/PdfV1Generator.kt:194 | a space-free prefix extends the first piece |
| PdfTekst.SplitJoin | src/main/kotlin/no/nav/helse/prosessering/v1/PdfV1Generator.kt:194 | splitting a join of space-free words gives the words back |
| PdfTekst.CapitalizeWord | src/main/kotlin/no/nav/helse/prosessering/v1/PdfV1Generator.kt:194 | same length; first letter upper-cased after lower-casing, the rest lower-cased |
| PdfTekst.CapitalizeWordEgenskaper | src/main/kotlin/no/nav/helse/prosessering/v1/PdfV1Generator.kt:194 | capitalising adds no space and is idempotent |
| PdfTekst.CapitalizeWords | src/main/kotlin/no/nav/helse/prosessering/v1/PdfV1Generator.kt:194 | every word capitalised, in place |
| PdfTekst.CapitalizeNameOrd | src/main/kotlin/no/nav/helse/prosessering/v1/PdfV1Generator.kt:194 | the words of the capitalised name are the capitalised words; word count kept |
| PdfTekst.CapitalizeNameIdempotent | src/main/kotlin/no/nav/helse/prosessering/v1/PdfV1Generator.kt:194 | capitalising a name twice is capitalising it once |
| PdfTekst.SprakTilTekst | src/main/kotlin/no/nav/helse/prosessering/v1/PdfV1Generator.kt:196-200 | "nb" gives "Bokmål", "nn" gives "Nynorsk", ignoring case; anything else unchanged |
| PdfTekst.SprakUavhengigAvStorBokstav | src/main/kotlin/no/nav/helse/prosessering/v1/PdfV1Generator.kt:196-200 | any two spellings of "nb" or "nn" that lower-case alike get the same language name, which differs from the code |
| PdfTekst.SprakEksempler | src/main/kotlin/no/nav/helse/prosessering/v1/PdfV1Generator.kt:196-200 | examples: "NB", "Nb", "nb" give "Bokmål", "NN", "nN", "nn" give "Nynorsk", "en" stays "en" |
| PdfTekst.VarighetHeleTimer | src/main/kotlin/no/nav/helse/prosessering/v1/PdfV1Generator.kt:187-190 | a whole number of hours (plus seconds) prints as "<hours> timer" |
| PdfTekst.VarighetTimerOgMinutter | src/main/kotlin/no/nav/helse/prosessering/v1/PdfV1Generator.kt:187-190 | under a day with minutes prints as "<h> timer og <m> minutter" |
| PdfTekst.VarighetMedMinutter | src/main/kotlin/no/nav/helse/prosessering/v1/PdfV1Generator.kt:187-190 | for any duration whose minute part is non-zero, the hour count printed is the total hour count modulo 24: whole days are dropped |
| PdfTekst.VarighetDropperDager | src/main/kotlin/no/nav/helse/prosessering/v1/PdfV1Generator.kt:187-190 | example: 25 h prints "25 timer" but 25 h 30 min prints "1 timer og 30 minutter" |
| Common.NatToStringVerdi | src/main/kotlin/no/nav/helse/prosessering/v1/PdfV1Generator.kt:187-190 | the decimal text of the hour and minute counts spells exactly the number |
| PdfTekst.JaNeiSvar | src/main/kotlin/no/nav/helse/prosessering/v1/PdfV1Generator.kt:62-64 | "Ja" iff true; false and null give "Nei" |
| PdfTekst.FravaerSomFormat | src/main/kotlin/no/nav/helse/prosessering/v1/PdfV1Generator.kt:78-84 | "Fravær som" for one, "Fravær både som" for two, "" iff neither |
| PdfTekst.ArsakVerdi | src/main/kotlin/no/nav/helse/prosessering/v1/PdfV1Generator.kt:65-71 | `valueOf`: a known name iff one of the three constants; otherwise IllegalArgumentException |
| PdfTekst.ArsakTekst | src/main/kotlin/no/nav/helse/prosessering/v1/PdfV1Generator.kt:65-71 | each reason's fixed Norwegian label |
| PdfTekst.ArsakHelper | src/main/kotlin/no/nav/helse/prosessering/v1/PdfV1Generator.kt:65-71 | the label of the named reason; throws iff the name is unknown |
| PdfTekst.ArsakTekstInjektiv | src/main/kotlin/no/nav/helse/prosessering/v1/PdfV1Generator.kt:65-71 | different reasons have different labels |
| PdfTekst.NaeringstypeVerdi | src/main/kotlin/no/nav/helse/prosessering/v1/MeldingV1.kt:119-124 | `valueOf`: a business type iff one of the four constant names; otherwise IllegalArgumentException |
| PdfTekst.NaeringstypeHelper | src/main/kotlin/no/nav/helse/prosessering/v1/PdfV1Generator.kt:39-41 | the `enumNæringstyper` helper: each constant name gives its fixed description; an unknown name throws |
| PdfTekst.BeskrivelseInjektiv | src/main/kotlin/no/nav/helse/prosessering/v1/MeldingV1.kt:119-124 | different business types have different descriptions |
| PdfTekst.AktivitetVerdi | src/main/kotlin/no/nav/helse/prosessering/v1/PdfV1Generator.kt:72-77 | a known activity iff one of the two constants; otherwise IllegalArgumentException |
| PdfTekst.AktivitetTekst | src/main/kotlin/no/nav/helse/prosessering/v1/PdfV1Generator.kt:72-77 | each activity's fixed label |
| PdfTekst.AktivitetHelper | src/main/kotlin/no/nav/helse/prosessering/v1/PdfV1Generator.kt:72-77 | the label of the named activity; throws iff unknown |
| PdfTekst.Siste12 | src/main/kotlin/no/nav/helse/prosessering/v1/PdfV1Generator.kt:112-114 | holds iff some residence starts before the receipt date or ends on it |
| PdfTekst.Neste12 | src/main/kotlin/no/nav/helse/prosessering/v1/PdfV1Generator.kt:115-117 | holds iff some residence starts on or after the receipt date |
| PdfTekst.Siste12EllerNeste12 | src/main/kotlin/no/nav/helse/prosessering/v1/PdfV1Generator.kt:111-118 | every non-empty residence list satisfies one of the two; the empty list neither |
| PdfTekst.BekreftelserSomMap | src/main/kotlin/no/nav/helse/prosessering/v1/PdfV1Generator.kt:180-185 | exactly the two confirmation keys, each true iff the answer is Ja |
| Configuration.Valgfri | src/main/kotlin/no/nav/helse/Configuration.kt:27-60 | an optional setting is present iff its key is |
| Configuration.LagerAv | src/main/kotlin/no/nav/helse/Configuration.kt:29-40 | a store exists iff both its path and the password are given |
| Configuration.AutoOffsetReset | src/main/kotlin/no/nav/helse/Configuration.kt:42-49 | absent gives "none"; none/latest/earliest in any case are returned lower-cased; anything else throws IllegalArgumentException |
| Configuration.AutoOffsetResetFastpunkt | src/main/kotlin/no/nav/helse/Configuration.kt:42-49 | every accepted value is itself accepted unchanged |
| Configuration.AutoOffsetResetStorBokstav | src/main/kotlin/no/nav/helse/Configuration.kt:42-49 | any two values that lower-case alike give the same answer, accepted or refused |
| Configuration.AutoOffsetResetEksempel | src/main/kotlin/no/nav/helse/Configuration.kt:42-49 | example: "LATEST" is accepted as "latest" |
| Configuration.AutoOffsetResetUkjent | src/main/kotlin/no/nav/helse/Configuration.kt:42-49 | example: "smallest" is refused |
| Configuration.GetKafkaConfig | src/main/kotlin/no/nav/helse/Configuration.kt:27-60 | bootstrap servers required; stores paired with the password; exactly-once iff a trust store; errors in evaluation order |
| Configuration.LagreneDelerPassord | src/main/kotlin/no/nav/helse/Configuration.kt:29-40 | both stores carry the one configured password |
| Kafka.AbsolutePath | src/main/kotlin/no/nav/helse/kafka/KafkaConfig.kt:53-79 | an absolute path is kept; a relative one is resolved against the working directory; the empty path is the working directory itself |
| Kafka.EgenskaperInnhold | src/main/kotlin/no/nav/helse/kafka/KafkaConfig.kt:28-51 | bootstrap servers, LogAndFail, offset reset; EXACTLY_ONCE_V2 with replication 3, or AT_LEAST_ONCE without; store keys iff stores; no application id yet |
| Kafka.EgenskaperTrustStore | src/main/kotlin/no/nav/helse/kafka/KafkaConfig.kt:53-68 | trust store type "jks", protocol SSL, absolute location, password |
| Kafka.EgenskaperKeyStore | src/main/kotlin/no/nav/helse/kafka/KafkaConfig.kt:70-79 | key store type "PKCS12", absolute location, password |
| Kafka.KafkaConfig.constructor | src/main/kotlin/no/nav/helse/kafka/KafkaConfig.kt:20-35 | the properties are those described by EgenskaperInnhold |
| Kafka.KafkaConfig.PutTrustStore | src/main/kotlin/no/nav/helse/kafka/KafkaConfig.kt:53-68 | puts the trust store entries into the shared properties iff a trust store is given |
| Kafka.KafkaConfig.PutKeyStore | src/main/kotlin/no/nav/helse/kafka/KafkaConfig.kt:70-79 | puts the key store entries iff a key store is given |
| Kafka.KafkaConfig.PutProcessingGuarantee | src/main/kotlin/no/nav/helse/kafka/KafkaConfig.kt:42-51 | puts the guarantee, and the replication factor only for exactly-once |
| Kafka.KafkaConfig.Stream | src/main/kotlin/no/nav/helse/kafka/KafkaConfig.kt:37-39 | returns the same object, with the application id "omsut-prs-" + name and every other entry unchanged |
| Kafka.ToStrommer | src/main/kotlin/no/nav/helse/kafka/KafkaConfig.kt:28-39 | two streams share one object: after both calls the first reference sees the second name's id |
| Kafka.LagKafkaConfig | src/main/kotlin/no/nav/helse/Configuration.kt:27-60 | a configuration object exists iff getKafkaConfig succeeds, with the properties built from its settings |

## Left out

- The Kafka Streams runtime is not modelled: topics, serdes, `ManagedKafkaStreams`, the health and readiness checks, and the wiring in AsynkronProsesseringV1Service.kt. Each stage is modelled as a function on one record. The `process` wrapper's own file is not part of this model; only its observable rule is modelled (Topics.Prosesser).
- The HTTP clients are represented only by their answers, which are inputs: the archive gateway (JoarkGateway.kt) and the two document-store gateways. Retries, authentication and HTTP errors are not modelled.
- PDF rendering (Handlebars, openhtmltopdf, fonts) is left out; the rendered bytes are an input. Also left out are `fritekst` (library HTML escaping), the Europe/Oslo date and time formatters, `mottaksUkedag`, and template flags such as `harFosterbarn`.
- JSON serialisation is not modelled: a stored document holds the value, not its bytes.
- The producer's `send` and its offset are left out, and so is the JSON text of the behovssekvens.
- Random and clock values are inputs: the UUID event id, the ULID sequence id, and the working directory used for absolute paths.
- `erEldreEnn3År` (K9Format.kt:145-146) is never called, so it is not modelled.
- The Prometheus counters and histograms, their registration and their increments are not modelled; only the label values and the counted quantities are. The arbeidstaker counter at ArbeidstakerutbetalingMeldingMetrics.kt:37-42 has `labels(...)` called but is never incremented, so nothing is recorded there.
- `PreprossesertMeldingV1.reportMetrics` (PreprossesertMeldingV1Metrics.kt:17-19) has an empty body and its counter is never used: nothing to model.
- MeldingV1Metrics.TilAntallHeleDager: the counter's `Long` arithmetic and its `toDouble()` are not modelled; integers are unbounded.
- ArbeidstakerMetrics.TilAntallDelDager: the same; no overflow is modelled.
- PdfTekst.CapitalizeWord: case mapping covers ASCII letters only. The JVM's locale-dependent `capitalize` behaves the same on ASCII; on other letters the model leaves them unchanged.
- PdfTekst.CapitalizeWords: the same ASCII-only case mapping, word by word.
- PdfTekst.SprakTilTekst: `toLowerCase` is modelled on ASCII letters only; other letters are left unchanged.
- Configuration.AutoOffsetReset: the same ASCII-only `toLowerCase`.
- The `===` comparisons of the metrics labels with "Nei" are modelled as value equality. String literals are interned, so the two agree for the values produced here.
- Kafka.AbsolutePath: `File.absolutePath` is modelled as prefixing the working directory to a relative path. Separator normalisation is not modelled.
- The `try/catch` in `medTrustStore` and `medKeyStore` is not modelled. With a store present its path and password are non-null, so nothing there can throw.
- Configuration.GetKafkaConfig: the configuration library's error for a missing required key is modelled as an IllegalStateException. Its exact type is in a library that is not part of this model.
- Configuration.GetKafkaConfig: the parsing of `unreadyAfterStreamStoppedIn` is an input (a result).
- Preprosessert.FraMelding: also copies `fosterbarn`, `frilans`, `selvstendigVirksomheter` (wrapped as present), `utbetalingsperioder`, `bosteder` and `opphold`. This snapshot's PreprossesertMeldingV1.kt neither declares nor sets them. The journaling stage and the K9 conversion read them from the enriched application, so the model follows the class version those files compile against.
- K9Format.ConversionCommutesWithEnrichment: holds only because FraMelding copies those six fields. Against the class as declared in this snapshot, the enriched application carries none of the data the conversion reads, and the source promises nothing of the kind.
- MeldingV1Metrics.ReportMetrics: the other label computations are taken not to throw. `fiskerErPåBladB.boolean` is read as if non-null, as the file must be compiled against a version where it is.
- PdfTekst.VarighetTilString: the lemmas cover non-negative durations only. Negative durations (truncating division, a leading "-") are defined but nothing is proved about their text.
- The integration tests and their wiring (KafkaWrapper, WireMock stubs) are not modelled.
