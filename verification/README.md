# Verification of the content agent's core algorithms

This project models the parts of the repository that hold state over long runs or do real arithmetic, and proves what
they keep. It covers the document chunker and its Markdown tables, the migration of media from disk to S3, the job queue
and its wake-up hints, the authorization server for external clients, the session graph and its transcript recap, the
two hybrid rankings, the rate limiters, and SKU allocation.

Verify everything with `dafny verify dfyconfig.toml`.

## How the model is laid out

Pure code is modelled by functions. Code with loops is modelled by methods that are proved equal to such a function, and
objects with changing fields by classes whose methods state the whole new state. The properties are lemmas about the
functions. Systems with several actors are state machines: a state, an event type, `Enabled` and `Apply`, an invariant,
and theorems over every possible run.

| file | what it models |
|---|---|
| `text.dfy`, `sentences.dfy`, `paragraphs.dfy`, `tables.dfy`, `blocks.dfy` | the document chunker |
| `overlap.dfy`, `budget.dfy` | when overlaps are whole sentences; when everything is within the budget |
| `markdown.dfy`, `markdown_document.dfy` | parsing and printing of Markdown tables; whole documents and their round trip |
| `media_migration.dfy`, `media_verdict.dfy`, `media_store.dfy`, `media_copy.dfy` | the two object stores, the migration, the copy pass |
| `jobs.dfy`, `wake.dfy` | the job queue; commit-bound hints and the worker's drain loop |
| `oauth.dfy`, `oauth_history.dfy`, `oauth_runs.dfy`, `oauth_scopes.dfy`, `oauth_store.dfy` | consents, grants, codes, refresh-token families |
| `session_graph.dfy`, `session_intent.dfy`, `session_lookup.dfy`, `angles.dfy`, `recap.dfy` | routing and parks, the angle pick, the rolling recap |
| `ordering.dfy`, `rrf.dfy`, `document_rank.dfy`, `product_rank.dfy`, `product_order.dfy` | sorting, reciprocal-rank fusion, the two rankings |
| `rate_limit.dfy`, `sku.dfy` | sliding-window limiters; unique SKUs |
| `wrappers.dfy` | optional values and the size of a subset, shared by the others |

## Where the code does not do what is said of it

Each of these has a lemma with the exact condition, or a run that shows it.

- A chunk can be over budget. All paragraphs under a heading path fit exactly when the path alone is below the budget
  (`Budget.ParagraphsFitIff`), and all tables under a header row fit exactly when it leaves room for a line break and one
  wide character (`Budget.TablesFitIff`).
- The overlap is documented as whole sentences. That holds for every text and budget exactly with an overlap of at most
  one, the default (`Overlap.OverlapIsWholeIff`): with more, only the last carried piece is checked, and a chunk can open
  with a slice of a cut sentence (`Overlap.LargerOverlapCarriesSlice`).
- After a migration is `done` a key can be unreadable. It is so exactly when its copy to S3 never succeeded, and then
  verification had not listed it or had excused it (`MediaMigration.LostIff`). A key written after the verification is
  lost when its second write fails (`MediaMigration.LateKeyIsLost`). So can a key be that was once recorded as missing on
  disk, because the record is kept when the file is written after all (`MediaMigration.ExcusedKeyIsLost`).
- A cleanup that crashes leaves the migration in `cleaning` for good: it can finish exactly while its cleaner lives
  (`MediaMigration.CleanupCanFinishIff`).
- Only the last 50 error records are kept. When the copies succeed, the migration becomes ready exactly if at most 50
  listed keys are unmarked and missing on disk (`MediaCopy.ReadyIffFewMissing`).
- A job can be claimed more often than `max_attempts`: with handlers within the lease exactly when it was reclaimed more
  often than it had attempts to spare (`Jobs.AttemptsAreAccounted`). A handler that outlives its lease can share its job and can end it after another.
  Jobs are held once, succeeded and failed rows never change, and failures stay within the attempts meant, each in all
  runs exactly when no handler takes longer than the lease (`Jobs.HeldOnceIff`, `Jobs.TerminalStaysIff`,
  `Jobs.FailuresWithinIff`).
- A job that goes back to pending raises no hint. The worker never sleeps past the due time of a row that was pending when
  it looked, and always past that of a row that comes later, unless a hint arrives (`Wake.NoLostWakeup`,
  `Wake.SleptPastOnlyIfLate`, `Wake.LateRowsAreSleptPast`).
- The replay of a rotated refresh token kills its family only if the transaction is committed, and the token route
  commits on success only (`OAuthRuns.ReplayEndsFamilyIff`).
- The retry counter of the reviewer is never reset, so the two retries are those of a whole session
  (`SessionGraph.FailingRunUsesAll`, `SessionGraph.SessionGetsTwoEdits`).
- A user who asks for a new post at the image park can be shown the old picture plan with the new draft
  (`SessionGraph.StalePlanRun`, `SessionGraph.PlanIsStaleIff`).
- An angle card whose text holds a doubled blank is not honoured, unless it reads as its own number
  (`Angles.CardIsHonouredIff`). It turns into feedback or locks another angle (`Angles.CardLocksAnotherIff`,
  `Angles.DoubledBlankLocksFirst`).
- Summary and live window together are documented as the whole transcript. Over any run they are exactly when every fold
  that went through had at most 40 messages waiting and none is due in the end (`Recap.TranscriptCoveredIff`). A fold that
  was due and did not go through leaves a gap until a later one does (`Recap.GapIff`, `Recap.LaterSuccessCatchesUp`).

## Assumptions

- Floating point is modelled exactly: chunk lengths in fifths of a unit, scores and clock readings as reals.
- Strings are sequences of code points. Lower-casing beyond ASCII and the normalisation of search text are not modelled:
  ranking works on text that is already normalised.
- Media keys are written once, and the disk loses no files. A migration runs against one bucket. All
  processes see the same storage configuration at each step.
- Tokens and ids are new when made up, and hashes are injective. Each step of the authorization server is one transaction,
  and whether it is committed is a parameter of the step.
- A limiter's clock readings come in the order in which its lock is taken, and its window is not negative.
- Workers' handlers end within the lease where a lemma of `Jobs` says `Some(LEASE)`; the counts of attempts and the
  draining of the queue do not need it.
- The worker's lane is active, its claims do not raise, and its sweep interval is the default of 300 seconds.
- What models, classifiers, providers and the network return is arbitrary.

## Model

| member | source | states |
|---|---|---|
| Text.UnitsAppend | internal/memory/document_chunk.py:29-34 | the weighted length is monotone, and joining two strings never costs more than both |
| Text.UnitsConcat | internal/memory/document_chunk.py:29-34 | the length of a concatenation is at most the sum over its parts, which is what the running totals rely on |
| Sentences.SplitSentences | internal/memory/document_chunk.py:67-89 | the loops that split, fold blank pieces forward and put a blank tail on the last piece compute `SentencePieces` |
| Sentences.SentencePiecesKeepText | internal/memory/document_chunk.py:67-89 | the sentence pieces concatenate to the text, except that a blank text has none |
| Sentences.SeparatorMeaning | internal/memory/document_chunk.py:16-24 | a separator is a longest run of stops or of emoji, or a full stop before whitespace |
| Sentences.RawMeaning | internal/memory/document_chunk.py:67-72 | a text is cut after its first separator, and the rest in the same way |
| Sentences.SentencesMeaning | internal/memory/document_chunk.py:67-89 | there are as many sentences as cut fragments with text, and none is blank |
| Sentences.SliceChars | internal/memory/document_chunk.py:92-117 | the slicing loop, with its search for the longest fit and its snap to a blank, computes `CharSlices` |
| Sentences.CutPointMeaning | internal/memory/document_chunk.py:92-117 | with the longest prefix that fits as window, the cut is just after the last blank in its second half, or at its end exactly when there is none |
| Sentences.CharSlicesMeaning | internal/memory/document_chunk.py:92-117 | slices keep all text in order, none is blank, and each fits when the budget is at least one unit |
| Sentences.FittingIsOneSlice | internal/memory/document_chunk.py:92-117 | a text that fits is one slice, or none when it is blank |
| Sentences.LongIsCut | internal/memory/document_chunk.py:92-117 | a longer one gives up its text to the cut point as a slice, and the rest is sliced in the same way |
| Paragraphs.PackParagraph | internal/memory/document_chunk.py:120-164 | the nested packing loops, with carry and defensive branches, compute `ParagraphChunks` |
| Paragraphs.FillChunk | internal/memory/document_chunk.py:140-157 | one round fills a chunk with the carry if it leaves room, at least one piece, and what else fits |
| Paragraphs.ParagraphFits | internal/memory/document_chunk.py:120-164 | every paragraph chunk is non-empty and within the allowed units, whatever the overlap |
| Paragraphs.ParagraphConserved | internal/memory/document_chunk.py:120-164 | without the carries the chunks hold exactly the text in order; each chunk was full, and each carry is the last new pieces of the chunk before, taken over exactly when they end a sentence and leave room |
| Paragraphs.OverlapIsOneSentence | internal/memory/document_chunk.py:120-164 | with the default overlap a carry is one whole sentence that fits |
| Overlap.LargerOverlapCarriesSlice | internal/memory/document_chunk.py:155-163 | with any larger overlap a concrete text has a chunk that opens with a slice of a cut sentence |
| Overlap.EndsWholeIff | internal/memory/document_chunk.py:120-164 | a chunk may hand on an overlap exactly when its last new piece is a whole sentence that fits |
| Overlap.OverlapIsWholeIff | internal/memory/document_chunk.py:120-164 | for every text and budget the chunks open with whole sentences exactly when the overlap is at most one |
| Tables.SplitIntoChunks | internal/memory/document_chunk.py:167-204 | the row-packing loop computes `TableChunks` |
| Tables.TableFits | internal/memory/document_chunk.py:167-204 | every table chunk is within the allowed units when the header leaves room for a line break and one wide character, or the whole table fits |
| Tables.LargeHeaderNeverFits | internal/memory/document_chunk.py:167-204 | a header row longer than the allowed units makes every chunk too large |
| Budget.TablesFitIff | internal/memory/document_chunk.py:167-204 | all chunks of all tables under a header are within the allowed units exactly when it leaves room for a line break and one wide character |
| Tables.SplitTableKeepsRows | internal/memory/document_chunk.py:167-204 | rows that fit below the header appear whole, once and in order, and the text of the body is kept |
| Tables.SplitSlices | internal/memory/document_chunk.py:191-199 | only rows that do not fit below the header are sliced |
| Tables.TableChunksMeaning | internal/memory/document_chunk.py:167-204 | a table without rows is chunked as a paragraph; one with rows is split only when it must be, under a repeated header, and each group was full when it was closed |
| Blocks.UpdatePath | internal/memory/document_chunk.py:207-212 | the loop pops headings of equal or larger level, pushes the new one and joins the path |
| Blocks.StackIsAncestors | internal/memory/document_chunk.py:207-212 | after any blocks the stack is the chain of headings with no later heading of equal or smaller level, and its levels strictly increase |
| Blocks.ChunkBlocks | internal/memory/document_chunk.py:215-257 | exactly the first `max_chunks` of the uncapped chunks, numbered in order; truncated exactly when there are more |
| Blocks.ChunkOrigin | internal/memory/document_chunk.py:215-257 | every chunk comes from one block, with that block's page and kind and the path of the headings before it |
| Blocks.EveryBlockIsChunked | internal/memory/document_chunk.py:215-257 | and no block is left out: its texts, under the headings that cover it, follow those of the blocks before it, in order; a heading has none |
| Blocks.BlockFits | internal/memory/document_chunk.py:223-257 | the embed text of every chunk is within budget when path and header leave room |
| Blocks.LongPathNeverFits | internal/memory/document_chunk.py:242-248 | a path longer than the budget puts every chunk of its section over budget |
| Budget.ParagraphsFitIff | internal/memory/document_chunk.py:242-248 | all chunks of all paragraphs under a path are within the budget exactly when the path alone is below it |
| Blocks.MoreBlocks | internal/memory/document_chunk.py:215-257 | the chunks of the first blocks are a prefix of the chunks of all |
| Markdown.ParseMarkdown | internal/memory/document_parse.py:86-133 | the line loop with its two buffers computes `Parse` |
| Markdown.RowRoundTrip | internal/memory/document_parse.py:53-79 | the cells of a rendered row are the row, for stripped cells free of bars and newlines |
| Markdown.CellsAreClean | internal/memory/document_parse.py:77-79 | the cells of a line are of that kind |
| Markdown.RuleIff | internal/memory/document_parse.py:46-84 | a separator cell is some dashes, with or without a colon at each end |
| Markdown.SeparatorIff | internal/memory/document_parse.py:82-84 | a row is a separator exactly when it has a filled cell and every filled one is such a cell |
| Markdown.TableRoundTrip | internal/memory/document_parse.py:53-133 | a rendered table parses to one table block with its rows less the separators |
| Markdown.TableSurvivesIff | internal/memory/document_parse.py:53-133 | it parses to the same rows exactly when none of them reads as a separator |
| MarkdownDocument.ParsedTableIsStable | internal/memory/document_parse.py:86-133 | printing and parsing any parsed table that has rows changes nothing |
| MarkdownDocument.HeadingIff | internal/memory/document_parse.py:45-45 | a stripped line is a heading exactly when it opens with one to six marks that end it or that whitespace follows |
| MarkdownDocument.BlocksAreClean | internal/memory/document_parse.py:86-133 | every block found in any text has the form of its kind: trimmed text, a level of one to six, lines of a paragraph that are no headings or table lines, clean rows that are no separators |
| MarkdownDocument.DocumentRoundTrip | internal/memory/document_parse.py:86-133 | such blocks, printed as a document, are parsed back in order, less the tables without rows |
| MarkdownDocument.ParsedAgain | internal/memory/document_parse.py:86-133 | so printing and parsing what was parsed from any text gives it back, less those tables |
| MarkdownDocument.DocumentSurvivesIff | internal/memory/document_parse.py:86-133 | for any blocks at all, they come back from their document exactly when each of them has the form of its kind |
| Markdown.GroupChunkIsTable | internal/memory/document_chunk.py:167-204 | every chunk that shows a group of rows parses back to a table of the header and those rows |
| MediaMigration.StepKeepsInv | internal/media/migrate.py:130-371 | every write, deletion, copy step, flip, rollback, cleanup step and crash keeps the invariant of the two stores |
| MediaMigration.RunKeepsInv | internal/media/migrate.py:130-371 | every run, whatever it interleaves, ends in a state that satisfies the invariant |
| MediaMigration.MigrationIsSafe | internal/media/migrate.py:130-371 | in every run, a done key that was not deleted is on S3 with its bytes, and every stored key reads back until the migration is done |
| MediaMigration.BackendFollowsPhase | internal/media/migrate.py:310-342 | in every run the active store is S3 exactly after a flip that no rollback has taken back |
| MediaMigration.RollbackWritesDisk | internal/media/migrate.py:326-342 | after a rollback and until the next flip, a new key is on disk whether or not S3 works, and reads back |
| MediaMigration.CleanupUnlinksCopies | internal/media/migrate.py:345-371 | cleanup unlinks only keys whose bytes are on S3, or deleted ones |
| MediaMigration.VerifiedKeysSurvive | internal/media/migrate.py:252-276 | in every run, a key that verification passed with, unless excused or deleted, is on S3 with its bytes and reads back, after the end of the cleanup too |
| MediaVerdict.VerdictIsFresh | internal/media/migrate.py:210-276 | verification passes, in any run, with a listing made since the copying ended, and each listed key is marked or its file was missing at some time since the migration began |
| MediaVerdict.FailureCanStartOver | internal/media/migrate.py:197-276 | a failed migration can be started over with nothing excused or listed, and with the marks and both stores as they were |
| MediaMigration.LostIff | internal/media/migrate.py:252-371 | after the migration a stored key is lost exactly when it went to disk first and its copy never succeeded; and then verification had not listed it or had excused it |
| MediaMigration.LostKeysAreLate | internal/media/migrate.py:252-371 | if verification listed every key stored at that moment and excused none, the lost keys are exactly those first written later whose copy never succeeded |
| MediaMigration.FinishIsSafeIff | internal/media/migrate.py:345-371 | in every run, finishing the cleanup loses nothing exactly when no stored key is left whose copy to S3 never succeeded |
| MediaMigration.LateKeyIsLost | internal/media/migrate.py:345-371 | a run in which a key written before the migration survives it and a key written after the verification does not |
| MediaMigration.ExcusedKeyIsLost | internal/media/migrate.py:256-270 | a run in which a stale record of a missing file lets an unmarked key pass verification, and the key is lost |
| MediaMigration.CleanupCanFinishIff | internal/media/migrate.py:345-371 | from `cleaning` a run to `done` exists exactly while the cleaner lives |
| MediaMigration.CleanerCanDie | internal/media/migrate.py:345-371 | and a run from the start leads to `cleaning` without a cleaner |
| MediaStore.PutIsRun | internal/media/storage.py:413-484 | a write, whatever fails, is these steps of the machine, and makes the key readable unless its first step fails |
| MediaStore.DeleteIsRun | internal/media/storage.py:457-466 | a deletion, whichever store is active, is these steps of the machine |
| MediaStore.Store.PutBytes | internal/media/storage.py:413-484 | the method on the two stores has the effect of that write and reports whether it took place |
| MediaStore.Store.GetBytes | internal/media/storage.py:442-454 | a read gives the machine's answer, and the written bytes of every stored key until the migration is done |
| MediaStore.Store.DeleteKey | internal/media/storage.py:457-466 | the method on the two stores has the effect of that deletion |
| MediaCopy.CopyRun.RunCopyPass | internal/media/migrate.py:148-194 | a pass stopped after any number of batches has committed exactly that prefix of the pending keys |
| MediaCopy.PassKeys | internal/media/migrate.py:148-162 | a copying pass goes, in order, through the listed keys after its cursor, a verifying one through all |
| MediaCopy.EveryKeyCounts | internal/media/migrate.py:130-194 | a pass counts every key once, as copied, skipped or an error |
| MediaCopy.MarkedIsUploaded | internal/media/migrate.py:130-194 | a pass marks exactly the keys with a local file that is uploaded or already there in its size, and leaves the keys that are not listed alone |
| MediaCopy.RestartIsSeamless | internal/media/migrate.py:148-194 | resuming from the cursor after any batch equals an uninterrupted pass, statistics and errors included |
| MediaCopy.RestartAfterCrash | internal/media/migrate.py:148-194 | with copies that succeed, a crash in the middle of a batch changes neither the done set, S3, the cursor nor the errors |
| MediaCopy.Verdict | internal/media/migrate.py:243-276 | the verification loop says ready exactly when no enumerated key is still to be copied |
| MediaCopy.VerdictIsGate | internal/media/migrate.py:252-276 | the verdict on the listed keys is the gate of the migration machine: every key marked, or recorded as missing in the records kept |
| MediaCopy.ReadyIffFewMissing | internal/media/migrate.py:148-276 | when the copies succeed, the verifying pass makes the migration ready exactly if at most 50 listed keys are unmarked and missing on disk, whatever records there were |
| MediaCopy.ManyMissingNeverReady | internal/media/migrate.py:148-276 | with more of them verification fails, whatever copies succeed |
| Jobs.Queue.EnqueueJob | internal/memory/repos.py:2194-2228 | adds a pending row with the given dedupe key, budget and due time, or nothing when the key is taken; other rows are unchanged |
| Jobs.Queue.ClaimNextJob | internal/memory/repos.py:2231-2256 | claims the least (run_after, created_at) of the due, pending, unlocked rows, or none exactly when there is none |
| Jobs.Queue.FinishJob | internal/memory/repos.py:2259-2285 | success, retry with backoff, or failure once the attempts are used up |
| Jobs.Queue.ReclaimStaleJobs | internal/memory/repos.py:2288-2300 | afterwards no row is stale, the stale ones may be claimed when due, no other row has changed, and the count is theirs |
| Jobs.BackoffFormula | internal/memory/repos.py:2259-2285 | the retry delay doubles with each attempt up to its maximum |
| Jobs.EndMeaning | internal/memory/repos.py:2259-2285 | an end is final exactly when it is a success or the attempts are used up; otherwise the row is claimable exactly from now plus the delay on |
| Jobs.RetryWaits | internal/memory/repos.py:2231-2300 | in no run, late handlers or not, is a job claimed again before the delay after its failure is over |
| Jobs.RunKeepsInv | internal/memory/repos.py:2194-2300 | with handlers that end within the lease, every run keeps the invariant of rows, accounts and live workers |
| Jobs.AccountsAlwaysHold | internal/memory/repos.py:2194-2300 | in every run, late handlers or not, attempts equal claims, a pending row has at most its budget minus one plus its reclaims as attempts, a failed row has used up its attempts, and dedupe keys are unique |
| Jobs.JobsAreHeldOnce | internal/memory/repos.py:2231-2300 | if live handlers end within the lease, no two workers hold the same job and failures stay within the attempts meant |
| Jobs.TerminalForever | internal/memory/repos.py:2231-2300 | if live handlers end within the lease, a succeeded or failed row never changes again |
| Jobs.HeldOnceIff | cmd/worker/main.py:109-162 | for every bound on handlers: in all runs no two live workers hold one job, exactly when the bound is at most the lease |
| Jobs.TerminalStaysIff | internal/memory/repos.py:2259-2300 | for every bound on handlers: in all runs no event changes a succeeded or failed row, exactly when the bound is at most the lease |
| Jobs.FailuresWithinIff | internal/memory/repos.py:2259-2300 | for every bound on handlers: in all runs failures stay within the attempts meant, exactly when the bound is at most the lease |
| Jobs.AttemptsAreAccounted | internal/memory/repos.py:2231-2300 | with handlers within the lease, attempts are failures plus reclaims plus the one under way or successful, and exceed the budget exactly when reclaims exceed the attempts to spare |
| Jobs.RunsDrain | internal/memory/repos.py:2231-2285 | without enqueues and reclaims every claim and every finish uses up a measure of the queue, however long handlers take |
| Jobs.RunsDrainAnyway | internal/memory/repos.py:2231-2285 | from any state, also with workers that have lost their jobs, a run without enqueues and reclaims has a bounded number of claims and finishes |
| Jobs.DrainedIff | internal/memory/repos.py:2231-2285 | the measure is used up exactly when every row is terminal |
| Jobs.WorkGoesOn | cmd/worker/main.py:109-162 | a held job can finish, and while a row is claimable a free worker can claim one |
| Jobs.LostJobsComeBack | internal/memory/repos.py:2288-2300 | a stale row is held by nobody and a reclaim makes it pending again, unchanged otherwise |
| Jobs.ClaimsInOrder | internal/memory/repos.py:2231-2256 | a row can be claimed exactly when it is pending, due and unlocked, and none such was due earlier, or at the same time and created earlier |
| Jobs.NoOvertaking | internal/memory/repos.py:2231-2285 | while a due row that nobody holds or locks waits, without new jobs and reclaims, no more other claims are possible than rows were ahead of it, however often these fail |
| Wake.Session.Transact | internal/memory/wake.py:48-76 | a transaction emits the hints of the rows it landed when it commits, none when it rolls back, and leaves no marks |
| Wake.StepKeepsInv | cmd/worker/main.py:183-255 | every step of the drain loop and of the rest of the system keeps the invariant about delivered hints |
| Wake.NoLostWakeup | cmd/worker/main.py:109-255 | a worker parked with the flag clear has missed no delivered hint of an unclaimed due job, except one locked at its claim; and it sleeps past neither the sweep nor the due time of any row, retried and reclaimed ones included, pending since its query |
| Wake.SleepsUntilDue | cmd/worker/main.py:176-180 | nor does it sleep less than to the end of the sweep or to the earliest due time of its query |
| Wake.QueryFindsRow | cmd/worker/main.py:120-126 | which is that of a pending row |
| Wake.WakesAndClaims | cmd/worker/main.py:183-255 | woken by a hint or by the timer, the worker can claim exactly the pending rows that are due, and can claim again when it has worked on one |
| Wake.WakesAndParks | cmd/worker/main.py:176-255 | when none is due, it parks again until the earliest is, for at least a second and at most the sweep interval |
| Wake.SleptPastOnlyIfLate | cmd/worker/main.py:109-255 | a pending row is slept past only if it became pending after the query, and with the flag clear only if it came back or no hint of it has arrived |
| Wake.LateRowsAreSleptPast | internal/memory/repos.py:2194-2300 | in every run, a retry or an unhinted commit that is due earlier than the worker is parked for is slept past |
| OAuth.MergeAddsStepUpOnly | internal/mcp/oauth.py:81-99 | a consent keeps what was requested and adds step-up scopes only; it fails exactly when an extra is none |
| OAuth.ParseScopeMeaning | internal/mcp/oauth.py:65-73 | an authorize request is accepted with known scopes only, and without any gets all but the step-up ones |
| OAuth.StepKeepsInv | internal/mcp/oauth.py:102-384 | every operation, committed or not, keeps the invariant of requests, codes, grants and tokens |
| OAuthRuns.TokensAreSafe | internal/mcp/oauth.py:223-384 | in every reachable state a family has at most one live token, a live token has a live grant, and (user, client, company) is unique |
| OAuthRuns.ExchangesTraceToConsents | internal/mcp/oauth.py:166-338 | every exchange traces to an approved consent of its own and gave exactly the user, company, client and scopes approved |
| OAuthHistory.RedeemsIff | internal/mcp/oauth.py:286-338 | in every reachable state a code is exchanged exactly when it was consented to, is unused and in time, and is shown with the client and redirect of the authorize request and the verifier of its challenge |
| OAuthHistory.RedeemedRightly | internal/mcp/oauth.py:102-338 | so was every exchange of a run: by the client that asked, at its redirect, with the verifier of its challenge, in time after an accepted request and its consent |
| OAuthHistory.AuthorizesIff | internal/mcp/oauth.py:102-150 | an authorize request is accepted exactly from a known client, for one of its redirects, with a challenge, for this server and known scopes; rows out of time are dropped and no others |
| OAuthHistory.GivesWhatWasChosen | internal/mcp/oauth.py:65-99 | and it gave exactly the scopes that were asked for and the step-up ones that the user added |
| OAuthHistory.ConsentsIff | internal/mcp/oauth.py:166-220 | an answer goes through exactly for an accepted request that is unanswered and in time; an approval needs a company too, and step-up extras only |
| OAuthHistory.RotatesIff | internal/mcp/oauth.py:341-384 | a refresh token is rotated exactly when it goes back to an exchange, is live and in time, and its client is the one that asked |
| OAuthRuns.StepStaysOver | internal/mcp/oauth.py:102-384 | a revoked grant, a revoked token, a used code and a family without a live token stay so |
| OAuthRuns.RevokedIsForever | internal/mcp/grants.py:67-83 | after a revocation no run makes the grant or any of its tokens live again |
| OAuthRuns.IssuesIff | internal/mcp/grants.py:24-46 | a grant is issued directly exactly for known scopes and a free (user, client, company) |
| OAuthRuns.GrantEndsIff | internal/mcp/grants.py:67-83 | a live grant ends exactly by a committed revocation of its own user |
| OAuthRuns.TokenEndsOnlyBy | internal/mcp/oauth.py:341-384 | a live token ends only by its rotation, the replay of a revoked token of its family, or the revocation of its grant |
| OAuthRuns.CodeIsSingleUse | internal/mcp/oauth.py:286-338 | after one exchange every later exchange of the code fails |
| OAuthRuns.RefreshIsSingleUse | internal/mcp/oauth.py:341-384 | after one rotation every later rotation of the token fails |
| OAuthRuns.ReplayEndsFamilyIff | internal/mcp/oauth.py:353-366 | the replay of an unexpired revoked token ends the family for good exactly when it is committed or no live token was left |
| OAuthScopes.LatestConsentRules | internal/mcp/oauth.py:223-259 | a grant always gives what the latest exchange for it gave |
| OAuthStore.Tables.IssueAuthRequest | internal/mcp/oauth.py:102-150 | the method on the tables has the effect of an authorize request |
| OAuthStore.Tables.CompleteConsent | internal/mcp/oauth.py:166-220 | the method on the tables has the effect of a consent |
| OAuthStore.Tables.UpsertGrant | internal/mcp/oauth.py:223-259 | the grant found by user, client and company is refreshed; a revoked one is replaced under a new id |
| OAuthStore.Tables.ExchangeCode | internal/mcp/oauth.py:262-338 | the method on the tables has the effect of a code exchange |
| OAuthStore.Tables.RotateRefresh | internal/mcp/oauth.py:341-384 | the method on the tables has the effect of a rotation, or kills the family of a replayed token |
| OAuthStore.Tables.RevokeGrant | internal/mcp/grants.py:49-83 | the method on the tables has the effect of a revocation |
| Angles.ResolveAnglePick | internal/session/nodes.py:338-353 | the three passes over the offer compute `Resolve` |
| Angles.PickIsOffered | internal/session/nodes.py:257-259 | whatever a reply resolves to was offered |
| Angles.NumberPicks | internal/session/nodes.py:322-335 | digits, with or without a hash, pick the angle of that number, counted from one, unless they are an angle themselves |
| Angles.OrdinalPicks | internal/session/nodes.py:322-335 | so do the numerals from one to five, with or without the ordinal mark and a classifier |
| Angles.PartPicks | internal/session/nodes.py:338-353 | any other text picks the first angle that it is a part of or that is a part of it |
| Angles.CapitalsDoNotMatter | internal/session/nodes.py:338-353 | replies that differ in ASCII capitals only pick the same angle |
| Angles.CardIsHonoured | internal/session/nodes.py:338-353 | a single-spaced card resolves to the first angle with its text, ignoring case |
| Angles.CardIsHonouredIff | internal/session/nodes.py:320-353 | for every offer, a card resolves to an angle with its text exactly when it is single-spaced, or no angle has the squeezed text and it reads as the number of one with its own |
| Angles.CardLocksAnotherIff | internal/session/nodes.py:320-353 | exactly when any other card locks an angle with another text |
| Angles.DoubledBlankLocksFirst | internal/session/nodes.py:338-353 | a card of two words with a doubled blank locks the card of its first word |
| SessionGraph.MoveKeepsInv | internal/session/graph.py:95-173 | every node, message and reply keeps the invariant of the graph |
| SessionGraph.PreviewIsReviewed | internal/session/nodes.py:1243-1342 | a preview is published only with the draft as last reviewed, passed and grounded, and after the image park when the draft is new |
| SessionGraph.PostFollowsPick | internal/session/nodes.py:1149-1180 | a post is written only to an angle of the offer at hand, unless none was offered |
| SessionIntent.TurnGoesWhereHeard | internal/session/nodes.py:565-605 | over any session, a turn confirms, revises, starts a post, does research or chats only when that was heard, and confirms or revises only the version in the preview |
| SessionLookup.ResearchIff | internal/session/nodes.py:454-605 | over any session, a turn past the router has done research exactly when the rule and the router asked for facts, and a message to a parked version is heard as one to a preview |
| SessionLookup.PostIsPicked | internal/session/nodes.py:1149-1180 | over any session, a post is written to the angle that the latest reply resolves to among those at hand, and angles are thought up again only after a reply that resolves to none |
| SessionIntent.RenderedIff | internal/session/nodes.py:1345-1404 | over any session, a version is published without rendering exactly when nothing in the turn, and nothing left from before, asked for a picture |
| SessionGraph.PlanIsStaleIff | internal/session/nodes.py:1345-1404 | a new draft reaches the image park without a plan of its own exactly when a parked version is being revised and the latest edit asked for no picture |
| SessionGraph.StalePlanRun | internal/session/nodes.py:1466-1481 | a run from the image park to the image park with a new draft and the old plan |
| SessionGraph.RunsStop | internal/session/graph.py:95-173 | whatever is answered, a run ends or parks within 23 nodes |
| SessionGraph.EditsAreBounded | internal/session/nodes.py:1619-1635 | over the rest of a session the reviewer causes at most as many edits as retries are left |
| SessionGraph.SessionGetsTwoEdits | internal/session/nodes.py:1619-1635 | a session has at most two review-driven edits |
| SessionGraph.FailingRunUsesAll | internal/session/nodes.py:1619-1651 | a draft that no review passes uses up exactly the retries that are left, which are two only before the first failure |
| Recap.LiveIsBounded | internal/session/nodes.py:496-504 | the live window holds at most 15 messages |
| Recap.LiveIsTailIff | internal/session/nodes.py:486-504 | it is the whole unfolded tail exactly when no recap is due |
| Recap.PayloadOf | internal/session/nodes.py:517-540 | a fold is told, in order, every message of the user and the assistant that is not blank, by its first 400 characters |
| Recap.TurnKeepsCoverage | internal/session/nodes.py:517-561 | a turn keeps summary and window complete exactly when no fold was due, or it went through and had at most 40 messages waiting |
| Recap.TranscriptCoveredIff | internal/session/nodes.py:478-561 | over any run from an empty session, with any turns and outcomes, what was folded and the live window are the whole transcript exactly when no fold that went through had more than 40 messages waiting and none is due in the end |
| Recap.TranscriptCovered | internal/session/nodes.py:478-561 | so it is when every recap succeeds and no turn adds more than 33 messages |
| Recap.GapIff | internal/session/nodes.py:496-561 | a turn leaves messages that neither the summary nor the window holds exactly when a fold was due and did not go through, for whatever reason |
| Recap.LaterSuccessCatchesUp | internal/session/nodes.py:517-561 | the next success restores the window, and reads all that was missing exactly when it is at most 40 messages |
| Ordering.SortMeaning | internal/memory/product_retrieve.py:57-81 | sorting by a key permutes and orders |
| Ordering.SortStable | internal/memory/product_retrieve.py:57-81 | entries with equal keys keep their order |
| DocumentRank.RrfMerge | internal/memory/document_retrieve.py:82-98 | the dictionaries and the final sort compute `Merged` |
| DocumentRank.MergeIsOrderedUnion | internal/memory/document_retrieve.py:82-98 | the merge is an ordered permutation of the union of the lists |
| DocumentRank.SharedComeFirst | internal/memory/document_retrieve.py:82-98 | chunks found by both lists precede all others when the last places of both weigh more than a first place |
| DocumentRank.SharedComeFirstHere | internal/memory/document_retrieve.py:82-98 | so it is with at most 150 lexical and 20 vector hits |
| DocumentRank.SharedFirstIff | internal/memory/document_retrieve.py:82-98 | that condition on the list lengths is exact |
| ProductRank.FindLexical | internal/memory/product_retrieve.py:159-191 | the scoring loops over rows and queries compute `LexicalHits` |
| ProductRank.LexicalAboveFloor | internal/memory/product_retrieve.py:159-191 | every lexical hit is above the score a primary needs |
| ProductRank.TierMeaning | internal/memory/product_retrieve.py:159-191 | a query scores one exactly for the SKU or name itself, above the name tiers exactly for a SKU match, and above zero exactly for some match |
| ProductRank.ExactComesFirst | internal/memory/product_retrieve.py:159-191 | the hits are the rows with a match, and one asked for by its SKU or name comes before every other |
| ProductOrder.KindFollowsScore | internal/memory/product_retrieve.py:159-191 | a lexical hit shows an exact SKU exactly when its score is above that of a name match |
| ProductOrder.ContainsIff | internal/memory/product_retrieve.py:168-185 | a text contains another exactly when it is some text before it, it, and some text after it |
| ProductRank.FuseHits | internal/memory/product_retrieve.py:112-156 | the dictionaries, the lift and the sort compute `Merge` |
| ProductRank.MergeShowsEachOnce | internal/memory/product_retrieve.py:112-156 | each id of the two lists appears exactly once, in order |
| ProductRank.LexicalOnlyUnchanged | internal/memory/product_retrieve.py:112-156 | fusion never changes a hit that only the lexical list has |
| ProductRank.LiftNeedsBoth | internal/memory/product_retrieve.py:112-156 | fusion never lowers a score, and lifts a hit to the primary score only when both lists have it |
| ProductRank.SharedLift | internal/memory/product_retrieve.py:112-156 | a product of both lists gets the best of its scores and of thirty times the sum of its reciprocal ranks, at most one |
| ProductRank.AloneLift | internal/memory/product_retrieve.py:112-156 | one of a single list gets the best of its score and of thirty over its rank |
| ProductOrder.SharedKind | internal/memory/product_retrieve.py:112-140 | a product of both lists shows the hit of the better score, then of the stronger kind, then the lexical one |
| ProductRank.DedupeOrgWins | internal/memory/product_retrieve.py:57-81 | the loop that keeps one hit for each SKU computes `Dedupe` |
| ProductRank.DedupeMeaning | internal/memory/product_retrieve.py:57-81 | one hit for each SKU, in order: an organisation's own if there is one, and of its kind the best |
| ProductOrder.FirstOfEqualsWins | internal/memory/product_retrieve.py:57-74 | of equal hits for a SKU the first is kept |
| ProductOrder.ListsAreOrdered | internal/memory/product_retrieve.py:57-191 | lexical hits are ordered by score and owner, fused ones by score, kind, owner and name, de-duplicated ones by score, owner and name |
| ProductRank.CutKeepsChoice | internal/memory/product_retrieve.py:84-93 | cutting the list changes the choice of a primary exactly when it hides a close second |
| ProductRank.PrimaryIsClear | internal/memory/product_retrieve.py:230-270 | after a cut of at least two, a primary beats every other hit by the margin, cut ones included, and is lexical or found by both lists |
| ProductRank.PrimaryIff | internal/memory/product_retrieve.py:84-93 | a search of at least two returns a primary exactly when some product is clear of all others, and asks exactly when products are found and none is |
| RateLimit.SlidingWindowLimiter.Reset | internal/auth/rate_limit.py:25-27 | forgets every accepted call |
| RateLimit.SlidingWindowLimiter.Allow | internal/auth/rate_limit.py:29-42 | a call is allowed exactly when fewer than the maximum of accepted calls lie in the closed window ending now |
| RateLimit.GrantLimiter.CheckGrantRate | internal/mcp/server.py:54-69 | the same for mutating calls of a grant; other calls pass and leave no trace |
| RateLimit.NoWindowOverflows | internal/auth/rate_limit.py:29-42 | a history so admitted has no closed window of that length with more than the maximum |
| Sku.AllocateUniqueSku | internal/memory/product_sku.py:4-16 | the search loop computes `Allocate` |
| Sku.PreferredIfFree | internal/memory/product_sku.py:4-8 | a free value is returned as it is, stripped and cut to 200 characters; a blank one stands for the default |
| Sku.LeastFreeNumber | internal/memory/product_sku.py:4-16 | a taken one gets the least free number from 2 on, or the overflow when all are taken |
| Sku.NumberedKeepsBase | internal/memory/product_sku.py:9-14 | a numbered candidate keeps as much of the base as 200 characters hold |
| Sku.AllocateLength | internal/memory/product_sku.py:4-16 | the result has at most 200 characters |
| Sku.NumberedInjective | internal/memory/product_sku.py:9-14 | different suffixes give different candidates, however much of the base is cut off |
| Sku.TakenIffAllTaken | internal/memory/product_sku.py:4-16 | the result is taken exactly when every candidate is |
| Sku.FreeWhenRoom | internal/memory/product_sku.py:4-16 | with at most 9998 taken values the result is free |
| Sku.BoundIsTight | internal/memory/product_sku.py:4-16 | a base that is its own second candidate has only 9999 candidates |

## Left out

- A printer of whole Markdown documents: the repository has none, `MarkdownDocument.Document` is the model's own.
- Custom length counters of the chunker: only the built-in weighted length is modelled.
- Documents other than Markdown (docx, PDF, plain text) and the folding of transcripts.
- Reference peeling, orphan files, probes and lease timing of the migration; two runners that overlap after a slow batch.
- Per-process staleness of the storage snapshot.
- Savepoints and row expiry of the database session; transactions are flat.
- Kick delivery over HTTP and the maintenance of the listening connection: a hint may arrive at any time.
- The worker's polling mode without a lane, and the gap of a second between hinted claims.
- JWT access tokens, redirect URI matching, client metadata and display names of the authorization server.
- Cookies that bind a consent to the browser that began it, and `last_used_at`.
- Stopping, discarding and re-parking a turn, provider errors in the middle of a run, and manual edits of a caption or a plan.
- Personas, image formats and prompt texts of the session graph, which steer what is written but not where a run goes.
- SQL filters of the rankings and the lexical scores of document chunks; the rows and lists they give are parameters.
- The limiter's table of grants: an entry never goes away there, so the model keeps one for each grant seen.
- Angles.AngleIndex: reads ASCII digits only, because digits of other scripts are not modelled.
