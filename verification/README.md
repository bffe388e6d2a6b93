# Verified model of the matrícula pipeline

The repository turns scanned property-registry PDFs into structured data. An API stores the PDF,
converts it to page images and hands an OCR job to a separate worker; the worker writes one text row
per page; a poller claims finished documents, asks an LLM to extract the *matrícula* and stores it in
six tables; a janitor inside the poller recovers documents that stopped moving. Several API
replicas and OCR workers may run at once. PostgreSQL is the only thing they share.

This project models that system in Dafny and proves what it guarantees.

* **The protocol** (`Tables`, `Pipeline`, `PipelineInvariant`, `PipelineTheorems`, `ClaimBudget`,
  `Polls`,
  `Provenance`, `SinglePoller`, `TwoPollers`, `Recovery`, `Stranded`, `FairRuns`, `TickOrder`, `Redispatches`, `RetryRounds`,
  `ExtractedText`): one state machine whose state
  is the database, the clock and a soup of activities — ingest runs, OCR jobs, pollers with their
  extraction workers and janitors. Every SQL statement or transaction is one atomic step. Activities crash between
  any two steps, jobs are delivered more than once, statements fail before or after taking effect, and time passes. The theorems
  hold in every reachable state of every interleaving. Safety is about all runs; liveness (`FairRuns`) is about all
  fair runs in which, from some moment on, nothing fails any more.
* **The code that runs the protocol** (`DocumentStore`, `Ingest`, `ExtractionService`, `PollerTraces`, `Poller`,
  `OCRWorker`): the stores and services as classes with loops and in-place updates. Between any two statements
  other activities may write to the same rows. Every run of an ingest, a re-dispatch or an extraction is proved to be
  a path of the protocol's own state machine, each move made on the rows as that statement finds them, so the protocol
  theorems speak about this code. Results that need a quiet database are stated for a run that is alone.
* **The OCR fan-out** (`FanOut`): semaphore, first-error cancellation and wait group as interleaved steps.
* **The aggregate store** (`Lists`, `AggregateRows`, `AggregateTables`, `AggregateQueries`, `TornReads`, `MatriculaStore`,
  `CanonicalForm`): shredding a nested value into tables with foreign keys and putting it together again from five
  queries, between which others may save.
  `ServedAggregates` joins it to the protocol: the tables that the saves of any run leave hold exactly what the
  protocol calls the current aggregate of each document.
* **Normalization** (`Text`, `Dates`, `CheckDigits`, `Aggregate`, `Normalize`, `NormalForm`, `Schema`, `Backoff`):
  dates, CPF/CNPJ check digits, in-place normalization, the enum validator against the schema's CHECK
  constraints, and the retry delay in wrapping 64-bit arithmetic.

`dafny verify dfyconfig.toml` checks everything.

Some properties one would expect are false of the code. For those the project keeps the code as it is, gives a
concrete witness, and proves exactly when the property holds:

* A document can be lost: if the ingest goroutine dies before its first update, or that update fails, the row stays in
  `uploaded` forever, because the janitor never scans that status and the mark-failed is guarded by `processing`
  (`Stranded.RecoverableIff`, `Stranded.LostForever`, `Stranded.LostWithoutCrash`). Every other document ends in every
  fair run (`FairRuns.FairRunEndsIff`).
* A read can be torn: `get` is five queries outside a transaction, and one that comes after a save of the document has
  committed finds nothing. With one poller a served matrícula is always whole; with several, exactly when a second attempt
  is allowed, a poll can serve what nobody ever saved (`MatriculaStore.WholeReadIff`, `SinglePoller.AnswerIsFinal`,
  `TwoPollers.TornReadIff`).
* With two pollers and at least two attempts a served matrícula can be overwritten by a slow worker, without any
  fault (`TwoPollers.ServedMatriculaCanChange`); with one poller, or one attempt, never
  (`SinglePoller.AnswerIsFinal`, `TwoPollers.ServedMatriculaCanChangeIff`).
* The back-off is 30 s doubled and capped at 10 min for attempts up to 29 and ten further values; at 30 the shift
  wraps negative (`Backoff.BackoffIsIdealIff`). Every run keeps the promised back-off exactly when at most 30 attempts
  are allowed: with 30, no claim can follow the 30th; with more, some run claims at once (`RetryRounds.BackoffRespectedIff`).
* Check digits miss some errors when a weighted sum moves between the residues 0 and 1, which share the digit 0
  (`CheckDigits.CPFWrongDigitAcceptedIff`, `CheckDigits.CPFSwapAcceptedIff` and their CNPJ counterparts).
* The enum validator folds case and blanks in `onus.status` but normalization does not, so it accepts `"Ativo"`, which
  the schema rejects (`Schema.AcceptedIsCheckedIff`, `Schema.StatusGapExample`).

Where code and documentation disagree the model follows the code: `docs/ARCHITECTURE.md:236` and
`docs/plans/00-overview.md:50` promise that the janitor re-dispatches a lost OCR job only up to a cap and then fails the
document; the code re-dispatches for as long as the job stays lost (`Redispatches.RedispatchHasNoCap`).

## Model

| member | source | states |
|---|---|---|
| Tables.InsertPagesRows | internal/store/documents.go:117-129 | Recording pages adds exactly the missing numbers 1..n and never overwrites a row that is there. |
| Tables.ExecuteSound | internal/store/documents.go:90-217 | Every statement, issued under the code's own conditions, keeps a document's rows consistent and takes back nothing: page lists, texts, extraction rows, attempts and terminal statuses only grow. |
| Tables.StatementLowersPotential | internal/store/documents.go:90-217 | Every status change by any actor, under no assumption on when it is issued, strictly lowers one potential; terminal statuses are absorbing. |
| Tables.BoundedRuns | internal/store/documents.go:90-217 | No sequence of statements by any actors changes a document's status more than 2M+3 times. |
| PipelineInvariant.OrderedPages | internal/services/ingest/ingest.go:160-171 | Reading a complete page list back in page order gives exactly the objects that were recorded. |
| PipelineInvariant.JobCoversPages | cmd/ocr/worker.go:66-91 | A job that ends without error has put a row for every page of its document into ocr_results, so the flip to `ocr_done` is justified. |
| PipelineInvariant.TokenIssued | internal/store/documents.go:166-183 | Every claim token a worker holds, however stale, is within the attempts counted on its row. |
| PipelineInvariant.StepInv | internal/services/extraction/poller.go:41-91 | Every step of every activity — ingest, OCR job, worker, janitor, crash, duplicate, lost reply — keeps the global invariant. |
| PipelineInvariant.RunInv | internal/services/extraction/poller.go:41-91 | The invariant holds in every reachable state of every interleaving, and no run takes anything back. |
| PipelineTheorems.PageCoverage | internal/services/ingest/ingest.go:131-157 | In every reachable state a document in `ocr_done`, `extracting` or `extracted` has page_count n ≥ 1 and rows exactly 1..n in pages and in ocr_results. |
| PipelineTheorems.WorkersFindText | internal/services/extraction/extraction.go:50-57 | No worker, stale ones included, ever takes the branch for a document without ocr_results rows. |
| ExtractedText.TextHasEveryPage | internal/services/extraction/extraction.go:59-62 | In every reachable state the text built for a document past OCR is one section per page of the PDF, in ascending page order. |
| ExtractedText.TextShowsEveryPage | internal/services/extraction/extraction.go:59-62 | In every reachable state the text consists of one part per page, in order, each a header with the page's number in decimal followed by exactly the stored text of that page. |
| PipelineTheorems.RedispatchResendsTheJob | internal/services/ingest/ingest.go:160-171 | A stamped document has its full page list: `Redispatch` never finds it empty and posts, page for page, the original job. |
| PipelineTheorems.ExtractionsBounded | internal/store/documents.go:166-183 | Committed extraction rows plus live workers that have not saved never exceed the attempts, and those never exceed M. |
| PipelineTheorems.ExtractionSafety | internal/services/extraction/extraction.go:64-92 | In every reachable state `extracted` implies a stored aggregate, and every stored aggregate is normalized and satisfies the schema. |
| PipelineTheorems.TokensNeverReissued | internal/store/documents.go:169-192 | No claim token (document, attempt) is issued twice in any run, even when a claim's reply is lost. |
| PipelineTheorems.StepStatement | internal/services/extraction/poller.go:41-91 | Each step of the whole system changes a document by at most one statement of the code. |
| PipelineTheorems.RunsAreBounded | internal/store/documents.go:90-217 | In no run of the whole system does a document change status more than 2M+3 times. |
| RetryRounds.BoundAttained | internal/services/extraction/poller.go:41-59 | The bound is exact: for every M some run of the whole system changes a document's status 2M+3 times. |
| Polls.PollAnswers | internal/services/matriculas/matriculas.go:42-62 | A poll is six queries with anything in between: it answers with a matrícula exactly when the first finds `extracted`, with the stored stage and message exactly when it finds `failed`, otherwise with the status it finds, and never "not found"; the matrícula is whole exactly when no save of the document commits between the first and the last query of it. |
| Polls.AnswersAreStable | internal/services/matriculas/matriculas.go:42-62 | A polling client is never misled about the outcome, whatever happens between its polls and between the six queries of one poll: a created document is never "not found", "failed" has its stage and message and never changes, a served matrícula stays served. |
| Provenance.TextProvenance | cmd/ocr/store.go:16-26 | In every run a page of a document has a text exactly when some job step stored one for it; the text is the one that the last such step carried, read from that page's own image, in a job of that document. |
| Provenance.FailureProvenance | internal/store/documents.go:104-115 | `failed_stage` tells the truth in every run: `ocr` means a job ended with a page failure or its deadline, `ocr_dispatch` that a third post was refused or the context ended between posts, `ingest` that a step of the ingest failed, `extraction` that the LLM gave a final error, whose message is the stored one, or that the attempts ran out. |
| Provenance.FlowBlamed | internal/services/ingest/ingest.go:84-158 | A run of ingest or re-dispatch goes on to mark its document failed exactly when a step fails that is not forgiven: an update, a query or the conversion, a third refused post or the end of the context, or the stamp of a first dispatch; the stage is that step's. |
| Provenance.StuckIff | internal/store/documents.go:219-240 | What `StuckDocuments` lists are, in every run, exactly the documents in `processing` or `extracting` whose row has not changed at any moment since the cutoff. |
| Provenance.StampProvenance | internal/services/ingest/ingest.go:146-155 | In every run a stamped document had a job that the OCR service accepted: no document is stamped before it is dispatched. |
| Provenance.ExtractionProvenance | internal/services/extraction/extraction.go:64-79 | In every run each stored aggregate is, normalized, what the LLM answered the worker that held this very claim. |
| PipelineTheorems.BackoffRespected | internal/services/extraction/extraction.go:35-42 | With M ≤ 30, in every run no claim follows a transient requeue of attempt k, by a current or a stale worker, sooner than min(30s·2^(k-1), 10min). |
| RetryRounds.ThirtyFirstTooSoon | internal/services/extraction/extraction.go:95-106 | With M ≥ 31 there is a run from the empty database in which attempt 30 is requeued and claimed again at once. |
| RetryRounds.BackoffRespectedIff | internal/services/extraction/extraction.go:35-42 | Every run keeps the promised back-off if and only if M ≤ 30. |
| ClaimBudget.StepBudget | internal/store/documents.go:166-183 | Of all steps only a claim that takes effect spends an attempt, exactly one, and only a new document brings attempts, exactly M. |
| ClaimBudget.ClaimsConserved | internal/store/documents.go:166-217 | In every run, claims that took effect plus attempts left on the rows equal M times the documents created; so claims over a fixed set of documents never exceed what they had left. |
| SinglePoller.OneExtractionAtATime | internal/services/extraction/poller.go:41-91 | With one poller at most one extraction is live, it holds its row's current claim, and none is live while the janitor works, so every row it requeues has no worker. |
| SinglePoller.AnswerIsFinal | internal/services/extraction/extraction.go:71-92 | With one poller, a poll that finds the document extracted serves its whole aggregate, the last claim's, however far apart its six queries are, and the same is served forever. |
| TwoPollers.ServedMatriculaCanChange | internal/services/extraction/poller.go:84-88 | With two pollers and M ≥ 2 there is a fault-free run in which a slow worker overwrites the matrícula already served. |
| TwoPollers.ServedMatriculaCanChangeIff | internal/services/extraction/poller.go:84-88 | With any number of pollers a served matrícula can change exactly when M ≥ 2. |
| TwoPollers.TornRead | internal/store/matriculas.go:138-173 | With two pollers and M ≥ 2 there is a run in which a poll serves the header of the replaced aggregate without its owner: content that no extraction ever had. |
| TwoPollers.TornReadIff | internal/store/matriculas.go:138-173 | With any number of pollers a poll can serve content that nobody ever saved exactly when M ≥ 2. |
| Recovery.DrainAll | internal/services/extraction/poller.go:41-53 | A fault-free drain ends, extracts exactly the claimable documents in updated_at order and leaves the others alone. |
| Recovery.RecoverAll | internal/services/extraction/poller.go:68-91 | A fault-free janitor gets every listed document under way and touches no other. |
| Recovery.Recover | internal/services/extraction/poller.go:41-91 | From every state in which the invariant holds, any document past `uploaded` reaches `extracted` or `failed` by a fault-free schedule linear in documents and pages. |
| Stranded.RecoverableIff | internal/store/documents.go:219-227 | In every reachable state a document can still be brought to an end exactly when it is past `uploaded` or its ingest has not started yet. |
| Stranded.LostForever | internal/store/documents.go:219-227 | A document in `uploaded` without its ingest goroutine stays there in every run, faulty or not. |
| Stranded.LostIsReachable | internal/services/ingest/ingest.go:64-76 | Such a document arises when the process dies between the insert and the goroutine. |
| Stranded.LostWithoutCrash | internal/services/ingest/ingest.go:84-104 | It also arises without a crash: a first update that errors without effect is followed by a mark-failed guarded by a status the row does not have. |
| FairRuns.NobodyStuck | internal/services/extraction/poller.go:26-62 | Fairness asks for nothing impossible: in every reachable state every activity has a move in which nothing fails. |
| FairRuns.FairRunEnds | internal/services/extraction/poller.go:41-91 | From any reachable state, in every fair run in which nothing fails and no document is added, with at least one poller and whatever the LLM answers, every document past `uploaded` is extracted or failed in the end. |
| FairRuns.FairRunEndsIff | internal/store/documents.go:219-227 | In every such run a document ends exactly when it is past `uploaded` or its ingest has not started yet. |
| Redispatches.RedispatchHasNoCap | internal/services/extraction/poller.go:74-83 | For every n some run with one poller starts at least n OCR jobs for one document that is still in `processing`: re-dispatch has no cap. |
| ServedAggregates.TablesHoldCurrent | internal/store/matriculas.go:33-127 | In every reachable state, the tables that the run's calls of `SaveAggregate` have left hold one aggregate for each document that has a current one, with exactly its content, and no other row. |
| ServedAggregates.ServeExtracted | internal/store/matriculas.go:129-173 | A read from the store in the middle of a run: whatever the run's activities save between its five queries, it returns the canonical form of what the protocol's poll delivers at some moments of what follows. |
| ServedAggregates.ChangedIffCommitted | internal/store/matriculas.go:33-127 | Between any two moments of a run the current aggregate of a document changes exactly when a save of it commits. |
| DocumentStore.Documents.UpdateStatus | internal/store/documents.go:90-102 | Moves the row exactly when it is in the expected status and reports whether it did; an error may hide an update that took effect. |
| DocumentStore.Documents.MarkFailed | internal/store/documents.go:104-115 | Fails the row with stage and message exactly when it is in the expected status. |
| DocumentStore.Documents.AddPages | internal/store/documents.go:117-129 | The insert loop leaves exactly the union of the old rows and the missing numbers; all or nothing. |
| DocumentStore.Documents.SetPageCount | internal/store/documents.go:131-136 | Records the page count whatever the status. |
| DocumentStore.Documents.PagesByDocument | internal/store/documents.go:138-157 | Returns every page row once, in ascending page number. |
| DocumentStore.Documents.SetOCRDispatched | internal/store/documents.go:159-164 | Stamps the dispatch moment whatever the status. |
| DocumentStore.Documents.ClaimForExtraction | internal/store/documents.go:166-192 | Claims an unlocked claimable row with least updated_at, counting the attempt; reports nothing exactly when no unlocked row is claimable. |
| DocumentStore.Documents.ReturnForRetry | internal/store/documents.go:194-203 | Requeues an `extracting` row with its backoff and leaves any other alone. |
| DocumentStore.Documents.FailExhausted | internal/store/documents.go:205-217 | Fails exactly the exhausted rows, at stage extraction, in one statement, changes no other, and returns their number. |
| DocumentStore.Documents.StuckDocuments | internal/store/documents.go:219-240 | Lists every `processing` or `extracting` row older than the cutoff, each once, in updated_at order, and no other. |
| DocumentStore.OCRStore.UpsertPage | cmd/ocr/store.go:16-26 | The page's text is afterwards the given one, whatever it was, and nothing else has changed; what becomes of it in a run is `Provenance.TextProvenance`. |
| DocumentStore.OCRStore.MarkOCRDone | cmd/ocr/store.go:28-39 | Flips `processing` to `ocr_done` and reports whether it did. |
| DocumentStore.OCRStore.MarkFailed | cmd/ocr/store.go:41-49 | Fails the document at stage ocr only while it is in `processing`. |
| DocumentStore.Aggregates.ResultsByDocument | internal/store/ocr.go:28-46 | Returns every ocr_results row once, in ascending page number. |
| DocumentStore.Aggregates.SaveAggregate | internal/store/matriculas.go:33-127 | Seen from the pipeline, appends one extraction in one transaction, and nothing when the schema rejects the content. |
| OCRWorker.Worker.Process | cmd/ocr/worker.go:66-91 | Said of the schedule of goroutine steps: if the first page to report an error could not be read, or the deadline passes without a report, the document fails at stage ocr; if that page could not be stored, the document is left for the janitor; without an error it flips, and then every page of the request is in ocr_results, whatever others write. |
| OCRWorker.Worker.RecognizeAll | cmd/ocr/worker.go:93-151 | Runs the fan-out in any interleaving, each upsert a statement: the class of the error is that of the page that reports first, and nil means that every page of the request is in ocr_results; alone, only texts of requested pages have changed, and each is the text of the last turn that stored it. |
| Ingest.Client.NumberPages | internal/clients/ocr/ocr.go:45-48 | Page numbers are positions, whatever the objects are called. |
| Ingest.Client.DispatchOCRJob | internal/clients/ocr/ocr.go:42-69 | Every post is the same job and each but the last is refused; it succeeds exactly when the last is accepted, at the latest the third, and fails when all three are refused or the context ends after one or two refusals; each run is a path of the protocol. |
| Ingest.DispatchDecides | internal/clients/ocr/ocr.go:55-68 | In the protocol, too, an acceptance after no, one or two refusals leads to the stamp, and three refusals, or a context that ends between posts, to failure at stage ocr_dispatch. |
| Ingest.Service.Enter | internal/services/ingest/ingest.go:96-112 | Goes on exactly when it moved the document to `processing` or, reading it again after an update that moved nothing, found it there. |
| Ingest.Service.Convert | internal/services/ingest/ingest.go:126-138 | Yields the objects 1..n of the converted PDF, named by document and page number, or an error. |
| Ingest.Service.RecordAll | internal/services/ingest/ingest.go:139-144 | Records the pages, then their number, stopping at the first error. |
| Ingest.Service.Dispatch | internal/services/ingest/ingest.go:146-155 | Dispatches before it stamps; a refused dispatch fails the document at stage ocr_dispatch and is no further error. |
| Ingest.Service.Process | internal/services/ingest/ingest.go:84-158 | Every run is a path of the flow machine from its first update to its end, whatever others write between its statements, and every job it delivers is the document's; alone it writes no other document, and without faults the document ends dispatched and freshly stamped, or failed if its PDF has no pages. |
| Ingest.Service.Redispatch | internal/services/ingest/ingest.go:160-181 | Every run is a path of the flow machine, whatever others write; every job it delivers is the page list its query found, numbered by position. |
| Ingest.AddAgain | internal/services/ingest/ingest.go:84-86 | Recording the same page list again changes nothing. |
| Ingest.RedispatchFidelity | internal/clients/ocr/ocr.go:44-48 | For any page list recorded any number of times, reading it back and renumbering by position yields exactly the job first sent. |
| ExtractionService.BuildText | internal/services/extraction/extraction.go:59-62 | The loop's text is the sections of the rows in their order. |
| ExtractionService.Service.Persist | internal/services/extraction/extraction.go:69-79 | What is stored is the answer normalized in place; a failed save is transient. |
| ExtractionService.Service.Extract | internal/services/extraction/extraction.go:50-93 | Without an error the run read the text in page order, asked the LLM for it, saved its answer normalized under the claim's token and completed the document, each step on the rows as it found them; alone, the current aggregate is then the normalized answer to the document's text. |
| ExtractionService.Service.ExtractDocument | internal/services/extraction/extraction.go:27-48 | Every run is a path of the worker machine under the token of its claim, whatever others write, and what it hears is the LLM's answer to exactly the text it read, transient or final as the LLM says. Alone and without database faults: a transient error requeues the document, claimable when 30 s doubled per attempt and capped have passed since the update; a final one fails it at extraction with the LLM's message; a storable answer leaves it extracted with that answer normalized. |
| ExtractionService.WorkEnds | internal/services/extraction/extraction.go:27-93 | Every complete run of a worker, whatever others write, is one of seven: a failed query, a transient error, an unacknowledged save or completion puts the document back with this attempt's delay; no text or a final error fails it with the message; it is finished exactly when save and completion are both acknowledged. |
| Poller.BudgetWrite | internal/store/documents.go:166-183 | Writing one document changes the sum of the attempts left by exactly what that document's share changes. |
| Poller.Poller.Drain | internal/services/extraction/poller.go:41-53 | The drain loop ends whatever others do; every claim takes, of the claimable documents nobody has locked, one with least updated_at, and is followed by a whole extraction of that document under the token it issued, from the row it left; without error nothing is claimable at the end but locked rows. The claims never exceed the attempts spent, and alone equal them; alone and without faults every claimed document with a storable answer ends extracted with that answer normalized. |
| PollerTraces.DrainExtracts | internal/services/extraction/poller.go:41-53 | Of any drain alone and without faults: every claimed document with a text and a storable answer is extracted at its end, with the normalized answer to its text as its aggregate. |
| PollerTraces.DrainKeeps | internal/services/extraction/poller.go:41-53 | Of any drain alone: a document outside the queue when it begins is there unchanged when it ends. |
| Poller.Poller.Sweep | internal/services/extraction/poller.go:41-59 | Even after a failed drain, if `FailExhausted` meets no fault no exhausted document is left; alone, after a drain without error, every `ocr_done` document has attempts left and was still in backoff at the last claim; what the drain extracted is still extracted. |
| Poller.Poller.RecoverOne | internal/services/extraction/poller.go:74-90 | An unstamped document is ingested from its first update, a stamped one re-dispatched from its stored pages, an extracting one requeued for now: each as a whole run of its own, delivering exactly its jobs; spends no attempt and, alone, touches no other document. |
| Poller.Poller.Janitor | internal/services/extraction/poller.go:64-91 | Deals in this way with each listed document once, in the order of the list, and with no other; spends no attempt; alone, if nothing fails and the replica's clock is not ahead, no document is stuck afterwards. |
| Poller.Poller.Tick | internal/services/extraction/poller.go:41-91 | A tick is the drain, the exhausted and the janitor in this order, with the documents untouched for the stuck timeout, and a fault in one does not keep the others from their work; the claims never exceed the attempts spent, alone equal them, and alone, if the drain meets no fault, what was claimed and can be extracted is extracted when the tick ends. |
| TickOrder.TickCompletes | internal/services/extraction/poller.go:41-66 | In every run, between the end of a poller's drain, with or without an error, and its next drain come the failing of the exhausted and then the listing of the stuck. |
| FanOut.InvKept | cmd/ocr/worker.go:95-132 | Every step of launcher and page tasks keeps the fan-out invariant. |
| FanOut.FanOutCorrect | cmd/ocr/worker.go:93-132 | In every interleaving at most `concurrency` page tasks are live, tokens equal live tasks plus at most one, no task outlives the return, and a nil result means every page was written. |
| FanOut.NeverStuck | cmd/ocr/worker.go:95-132 | No reachable state before the return is deadlocked. |
| FanOut.AlwaysReturns | cmd/ocr/worker.go:95-132 | No run over n pages takes more than 8n+3 steps besides the deadline, and one that cannot go on has returned. |
| FanOut.ResultTells | cmd/ocr/worker.go:71-150 | In every interleaving the result is the error reported first, a store failure exactly when that page's upsert was not acknowledged, a page failure exactly when its image or text could not be had; the deadline shows exactly when it passes and no page reports, and nil means neither. |
| FanOut.PagesInOrder | cmd/ocr/worker.go:134-151 | In every interleaving an image is fetched only if the engine needs one and then before its text is read, and a text is stored only after it has been read. |
| FanOut.NothingStartsLate | cmd/ocr/worker.go:105-113 | After the first error or the deadline no further page is started. |
| PipelineTheorems.JobsBounded | cmd/ocr/worker.go:99-113 | In every reachable state of the whole system no job works on more pages at once than the worker is configured for. |
| Backoff.BackoffIsIdealIff | internal/services/extraction/extraction.go:95-106 | In wrapping 64-bit nanoseconds the delay is min(30s·2^(k-1), 10min) exactly for k ≤ 29 and ten further values. |
| Backoff.BackoffGrows | internal/services/extraction/extraction.go:95-106 | In that range the delay never shrinks and lies between 30s and 10min. |
| Backoff.ThirtiethDelayIsNegative | internal/services/extraction/extraction.go:101-104 | At 30 the shift wraps negative and passes the cap. |
| Backoff.IdealDelays | internal/services/extraction/extraction.go:95-106 | The promised delays in seconds: 30, 60, 120, 240, 480, then 600. |
| AggregateRows.AtoIdsFaithful | internal/store/matriculas.go:74-87 | The numero-to-id map holds every listed numero, and its id is that of an ato with that numero, repeated numeros included. |
| AggregateRows.DateRoundTrip | internal/store/matriculas.go:286-291 | A normalized date survives the date column. |
| AggregateRows.RefRoundTrip | internal/store/matriculas.go:301-311 | A reference comes back as itself if its numero is listed and empty if it dangles. |
| AggregateTables.DeleteRepresents | internal/store/migrations/00004_matricula_domain.sql:33-81 | Deleting a matrícula cascades to exactly the rows of its aggregate; all other rows stay, unchanged. |
| AggregateTables.NothingCleared | internal/store/migrations/00004_matricula_domain.sql:66-75 | No surviving row refers to a deleted ato, so SET NULL never fires. |
| AggregateTables.SavedRepresents | internal/store/matriculas.go:44-126 | A committed save replaces the document's aggregate, leaves every other one, and appends its provenance. |
| AggregateTables.NoResidue | internal/store/matriculas.go:33-36 | After any sequence of saves over any documents the tables are exactly the rows of one aggregate per saved document, with the content of its last committed save and the id of its last extraction row; extractions only grow. |
| TornReads.KeptOrGone | internal/store/matriculas.go:44-52 | Any further saves leave a live aggregate as it is, or one of them was of its document and its id is never seen again. |
| TornReads.AllAnsweredIff | internal/store/matriculas.go:138-173 | The later queries of a read all find their rows exactly when no save of the document commits between the first and the last. |
| AggregateTables.MatriculaKeysResolve | internal/store/migrations/00004_matricula_domain.sql:16-19 | A matrícula row is its document's only one and points at the document's last extraction row. |
| AggregateTables.AtoKeysResolve | internal/store/migrations/00004_matricula_domain.sql:33-35 | Every ato belongs to a stored matrícula. |
| AggregateTables.ParteKeysResolve | internal/store/migrations/00004_matricula_domain.sql:47-49 | Every parte belongs to a stored ato. |
| AggregateTables.OwnerKeysResolve | internal/store/migrations/00004_matricula_domain.sql:59-67 | Every owner belongs to a stored matrícula and refers to an ato of that same matrícula. |
| AggregateTables.OnusKeysResolve | internal/store/migrations/00004_matricula_domain.sql:70-75 | Every encumbrance belongs to a stored matrícula and refers only to atos of that same matrícula. |
| AggregateQueries.TheMatricula | internal/store/matriculas.go:139-154 | Looking a matrícula up by document or by id finds the row of that aggregate alone. |
| AggregateQueries.AtosInOrder | internal/store/matriculas.go:176-181 | Any result of ORDER BY seq is the atos in the order they were saved. |
| AggregateQueries.PartesInOrder | internal/store/matriculas.go:203-208 | Any result of ORDER BY a.seq, p.seq is the partes ato by ato, in the order they were saved. |
| AggregateQueries.GroupedIs | internal/store/matriculas.go:214-230 | Grouping the partes by ato id gives each ato exactly its own, in order. |
| MatriculaStore.InsertAto | internal/store/matriculas.go:75-97 | Inserts an ato with its partes numbered in order, exactly when their values satisfy the schema and nothing fails. |
| MatriculaStore.InsertAtos | internal/store/matriculas.go:74-98 | Inserts the atos in order and fills the numero-to-id map, last one winning. |
| MatriculaStore.InsertOwners | internal/store/matriculas.go:100-109 | Inserts every owner with its resolved reference, or stops at the first the schema rejects. |
| MatriculaStore.InsertOnus | internal/store/matriculas.go:111-121 | Inserts every encumbrance with its resolved references, or stops at the first the schema rejects. |
| MatriculaStore.Transaction | internal/store/matriculas.go:37-127 | The statements of one save, in their order, make exactly the tables of a committed save; without faults they succeed exactly when the document exists and the schema takes the content. |
| MatriculaStore.Matriculas.SaveAggregate | internal/store/matriculas.go:33-127 | Commits as a whole or changes nothing. |
| MatriculaStore.Matriculas.LoadAtos | internal/store/matriculas.go:175-232 | Reads back the atos with their partes, identical and in order, and the id-to-numero map; after a save of the document has committed, the atos without partes or nothing. |
| MatriculaStore.Matriculas.LoadOwners | internal/store/matriculas.go:234-256 | Reads back a permutation of the owners sorted by nome under the database's collation, or none after a save of the document has committed. |
| MatriculaStore.Matriculas.LoadOnus | internal/store/matriculas.go:258-284 | Reads back a permutation of the encumbrances sorted by tipo, or none after a save of the document has committed. |
| MatriculaStore.Matriculas.GetByDocumentID | internal/store/matriculas.go:129-173 | Finds an aggregate exactly when the document has one at the first query, and returns the canonical form of as many of its parts as are queried before the next save of the document commits; alone, of all of it. |
| MatriculaStore.Matriculas.GetByID | internal/store/matriculas.go:134-173 | The same by matrícula id; the id of a replaced aggregate finds nothing. |
| MatriculaStore.WholeReadIff | internal/store/matriculas.go:138-284 | The value read is the canonical form of the aggregate exactly when every part that was queried too late is empty in it. |
| CanonicalForm.SaveThenGet | internal/store/matriculas.go:33-173 | What `get` returns after a save is the canonical form of what was saved, unless another save of the document has committed in the meantime. |
| CanonicalForm.SavedAgainUnchanged | internal/store/matriculas.go:33-173 | Saving the loaded value and loading again changes nothing, up to order among ties. |
| CanonicalForm.CanonicalStorable | internal/store/matriculas.go:33-173 | What was loaded can be saved: it satisfies the same constraints. |
| CanonicalForm.ComesBackIdenticalIff | internal/store/matriculas.go:33-173 | A value comes back identical exactly when its references are empty or listed, owners are sorted by nome and encumbrances by tipo. |
| CanonicalForm.CanonicalFormsAgree | internal/store/matriculas.go:234-284 | Any two loads of the same save agree up to order among ties. |
| Text.TrimSpaceTrims | internal/services/extraction/normalize.go:18-38 | Trimming leaves no Unicode blank at either end and changes nothing when there is none. |
| Text.TrimIff | internal/services/extraction/normalize.go:18-38 | Trimming leaves exactly the text between the blanks at the two ends. |
| Text.CaseMeetsAlphabet | internal/services/extraction/normalize.go:22-76 | Exactly which characters lower or upper case turns into an ASCII letter; no other ASCII character changes. |
| Text.FoldIdempotent | internal/services/extraction/normalize.go:22-44 | Trimming and lowering, or upper-casing, twice is the same as once. |
| Dates.NormalizeDate | internal/services/extraction/normalize.go:59-71 | The loop over the four layouts computes the specified normal form. |
| Dates.EveryLayoutNormalizes | internal/services/extraction/normalize.go:57-71 | Every valid calendar date in any of the four layouts becomes the same ISO text, and no other layout accepts it, so the order of trial does not matter. |
| Dates.NormalizedDateSpells | internal/services/extraction/normalize.go:59-71 | A non-empty result is the ISO text of the one date that the input spells. |
| Dates.NormalizedDateIff | internal/services/extraction/normalize.go:57-71 | r is the result exactly when it restates, as year-month-day, the date that the trimmed input spells in one of the four ways, digit by digit, or is empty if it spells none. |
| Dates.ValidDateIff | internal/services/extraction/normalize.go:66 | The dates that parse are exactly those of the Gregorian calendar: the day comes before the first of the next month by the closed day-number formula. |
| Dates.KnownDates | internal/services/extraction/normalize_test.go:37-51 | Dates of the repository's own tests and their ISO texts. |
| Dates.NormalizedDateFixedPoints | internal/services/extraction/normalize.go:59-71 | Outputs are empty or valid ISO dates, and those are exactly the fixed points. |
| CheckDigits.CheckCPF | internal/services/extraction/normalize.go:96-111 | The loops decide the CPF equations. |
| CheckDigits.CheckCNPJ | internal/services/extraction/normalize.go:113-133 | The loops decide the CNPJ equations. |
| CheckDigits.CPFCatchesWrongDigit | internal/services/extraction/normalize.go:96-111 | Replacing any one digit of a valid CPF whose first check digit is not 0 is rejected. |
| CheckDigits.CPFCatchesSwap | internal/services/extraction/normalize.go:96-111 | So is swapping any two unequal digits among the first nine. |
| CheckDigits.CNPJCatchesWrongDigit | internal/services/extraction/normalize.go:113-133 | Replacing any one digit of a valid CNPJ whose first check digit is not 0 is rejected. |
| CheckDigits.CNPJCatchesAdjacentSwap | internal/services/extraction/normalize.go:113-133 | So is swapping two unequal neighbours among the first twelve. |
| CheckDigits.WrongCheckDigitCaught | internal/services/extraction/normalize.go:106-130 | A wrong check digit is always rejected, whatever the first one is. |
| CheckDigits.CPFWrongDigitAcceptedIff | internal/services/extraction/normalize.go:96-111 | Exactly which wrong body digits of a valid CPF are accepted. |
| CheckDigits.CNPJWrongDigitAcceptedIff | internal/services/extraction/normalize.go:113-133 | Exactly which wrong body digits of a valid CNPJ are accepted. |
| CheckDigits.CPFSwapAcceptedIff | internal/services/extraction/normalize.go:96-111 | Exactly which swaps in the body of a valid CPF are accepted. |
| CheckDigits.CNPJAdjacentSwapAcceptedIff | internal/services/extraction/normalize.go:113-133 | Exactly which swaps of neighbours in the body of a valid CNPJ are accepted. |
| CheckDigits.ZeroCheckDigitHidesErrors | internal/services/extraction/normalize.go:105-127 | Concrete documents with first check digit 0 for which a wrong digit or a swap is accepted, for each of the four properties. |
| CheckDigits.KnownDocuments | internal/services/extraction/normalize_test.go:9-36 | The CPFs and CNPJs of the repository's own tests, valid and invalid. |
| CheckDigits.CPFBodyHasOneCompletion | internal/services/extraction/normalize.go:96-111 | A nine-character body has an accepted completion exactly when it is nine digits not all equal, and then exactly one, whose check digits the CPF and the CNPJ formula agree on. |
| CheckDigits.CNPJBodyHasOneCompletion | internal/services/extraction/normalize.go:113-133 | A twelve-character body has an accepted completion exactly when it is twelve digits not all zero, and then exactly one. |
| Normalize.NormalizeDoc | internal/services/extraction/normalize.go:73-94 | The loop keeps exactly the characters that upper-casing makes an ASCII letter or digit, upper-cased, and flags their validity; empty has no flag. |
| NormalForm.DocCharIff | internal/services/extraction/normalize.go:77-78 | The characters kept are the ten digits and the 26 capital letters. |
| Normalize.ExtractionDraft.Normalize | internal/services/extraction/normalize.go:13-55 | The in-place pass over all fields leaves the normal form; that this is the only value with the demanded fields is `NormalForm.NormalizationIff`. |
| NormalForm.NormalizationIff | internal/services/extraction/normalize.go:13-94 | n is the normalization of m exactly when, field by field: dates restate dates, enums are trimmed and lowered letter by letter, documents are the letters and digits picked out in order with an exact validity flag, an amount without currency and nothing else gets BRL, a cancelling act makes an encumbrance cancelled and without one only an empty status becomes active; everything else is the same, in the same order. |
| NormalForm.CancelledIff | internal/services/extraction/normalize.go:48-53 | After normalization an encumbrance is cancelled exactly when an act cancels it or it was called so, and active exactly when no act cancels it and it had no status or that one. |
| Normalize.NormalizeIdempotent | internal/services/extraction/normalize.go:13-55 | A second pass over any aggregate changes no field. |
| NormalForm.NormalizedIsNormal | internal/services/extraction/normalize.go:13-55 | Every normalized aggregate has ISO dates, folded enums, letters-and-digits documents with an exact validity flag, a currency for every amount, and a status that a cancelling act decides; names, numbers, references, amounts, descriptions and given currencies survive, and the lists keep length and order. |
| NormalForm.FixedPointsIff | internal/services/extraction/normalize.go:13-55 | The aggregates the pass leaves alone are exactly those in that form. |
| Normalize.FormattingIgnored | internal/services/extraction/normalize.go:73-81 | Punctuation and blanks anywhere in a document number change neither the stored text nor its flag. |
| Schema.CheckEnum | internal/clients/llm/langchain.go:188-199 | Accepts exactly a folded member of the vocabulary, or blank when optional. |
| Schema.ValidateEnums | internal/clients/llm/langchain.go:157-186 | No error exactly when every value is in its vocabulary; an error names an offender. |
| Schema.ValidatorAgreesWithSchema | internal/store/migrations/00004_matricula_domain.sql:37-64 | For kind, papel and tipo_pessoa the validator, with its own lists, accepts exactly the aggregates whose normalized, null-encoded values satisfy the CHECK constraints. |
| Schema.StatusCheckIff | internal/services/extraction/normalize.go:48-53 | After normalization onus.status satisfies its constraint exactly when a cancelling act is named or the status is literally "", "ativo" or "cancelado". |
| Schema.AcceptedIsCheckedIff | internal/store/migrations/00004_matricula_domain.sql:37-74 | An accepted aggregate satisfies every CHECK after normalization exactly when each ônus meets that condition. |
| Schema.StatusGapExample | internal/clients/llm/langchain.go:180-184 | An aggregate the validator accepts and the schema rejects. |
| Schema.NormalizedDatesAreISO | internal/store/matriculas.go:36 | The output of `Normalize` is what `SaveAggregate` asks of its callers: every date is empty or ISO. |

## Left out

Assumptions of the model:

- A SQL statement or transaction is atomic, and so is the batch of `AddPages`; locks, MVCC and isolation inside PostgreSQL are not modelled, except that `ClaimForExtraction` skips rows it is told are locked.
- What others write between two statements of a service is any change to the rows there are, except turning a row into another document, taking back an attempt or deleting an OCR text; no statement of the code does those. New documents appear only in the protocol.
- The page images a PDF converts to are a fixed function of the stored PDF; object contents, GCS, poppler, the OCR engine and the LLM are nondeterministic outcomes.
- All replicas share one `maxAttempts` and OCR jobs come only from the orchestrator; documents are never deleted.
- In the protocol a janitor's list may hold any accurately described `processing` or `extracting` rows, however young, which covers clock skew between replicas; the age limit is exact in `Recovery`, `FairRuns` and `Poller`.
- A crash falls between two statements: a statement in flight when its process dies either took effect or did not before the next step.
- PostgreSQL rejects a NUL character in text and in jsonb; texts are taken to have none, so `Schema.Storable` and `MatriculaStore.Transaction` do not ask for it.
- PostgreSQL has no year 0, so a date in year 0000 is rejected by the cast although Go parses it; the aggregate store counts it as not storable.
- Collation is an arbitrary total preorder on text; numeric columns return the value that was stored.
- Primary keys of partes, owners and encumbrances are never read and are left out; fresh ids come from a counter.

Parts of the repository not modelled:

- HTTP handlers, routes, middleware, configuration, logging and upload checks: no state of the protocol depends on them.
- JSON decoding of the LLM answer, the repair prompt and the classification of LLM errors: they hang on libraries outside the repository; an answer is an aggregate or a transient or final error.
- `Atos`, `Onus` and `OwnershipChain`: simple list filters that would add only easy members.
- The texts of error messages: the message of the LLM's final error is carried through; every other failing step has one fixed message, and the OCR worker's cut at 500 bytes is not modelled.
- Goroutine scheduling inside `recognizeAll`: the interleaving is a parameter of `OCRWorker.Worker.RecognizeAll`, any schedule that `FanOut` allows, with the deadline a step of its own.
- Confidence and engine columns of ocr_results, file names, buckets and creation times: no decision reads them.

Contracts weaker than the whole of what the code does:

- DocumentStore.Aggregates.SaveAggregate: shows only that an extraction is appended; what happens in the six tables is `MatriculaStore.Transaction`, and that the two agree is `ServedAggregates.TablesHoldCurrent`.
- Ingest.Service.Process: says nothing about a document without a row, which no caller passes.
- Text.FoldIdempotent: case mapping is Unicode's on ASCII and Latin-1 and on every character that maps into them; other letters are left alone. That is exact for what becomes of CPF, CNPJ and enum values, which are ASCII.
- FairRuns.FairRunEndsIff: no document is added to the run; under a stream of uploads a drain, and with it the janitor, need never come to its end.
- Recovery.Recover: promises that some short schedule exists; that every fair run gets there, in its own time, is `FairRuns.FairRunEnds`.
