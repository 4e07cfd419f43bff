# Verified model of the Asianode backend's protocols and algorithms

This project models the stateful core of the FastAPI backend in Dafny and proves what its code and
documentation promise about it. Each module follows one component of the backend, in that component's own
form: objects with state are classes with the same fields, loops over changing variables are methods with
invariants, and concurrent protocols are state machines with one step per Redis call or SQL statement.
Every method is proved against a definition of its result, and the laws are proved about that definition.

`dafny verify dfyconfig.toml` checks the whole project.

- **Resumable streams** (`ResumableStreams`): a producer, any number of polling readers and later captures,
  interleaved call by call, where any Redis call may fail with or without taking effect.
- **Streaming text filters** (`MarkerFilter`, `IncrementalUserText`, `ReviewTextStream`): what is shown does
  not depend on how a text is cut into deltas. `MarkerFilter.StableIff` says for which markers this can hold.
- **SQL splitting** (`SqlSplitter`, `SqlLexemes`, `SqlRoundTrip`): the scanner against a lexeme by lexeme
  definition, what each lexeme is in terms of the text, and the round trip through a re-joined script.
- **Reviewed imports** (`ImportPaths`, `ImportValidation`, `ImportCandidate`, `ImportPlan`, `ImportTotality`,
  `ImportRecords`, `ImportRuns`, `ImportSafety`, `ImportAtomicity`, `ImportDecisions`, `ImportConservation`,
  `ImportOverlaps`, `ImportApplication`, `ImportDatabase`): from a validated candidate to its write plan and the
  transaction that applies it, with decisions and applies of several jobs interleaved statement by statement.
- **Agent loops** (`Conversations`, `AgentWorkflow`, `ChatResponse`, `ChatLoop`, `ChatQuirks`): the bounded tool
  loops over an arbitrary provider and arbitrary tools.
- **Rate limits** (`RateLimit`, `RedisRateLimit`), **sessions** (`AuthSessions`), **seeding**
  (`KnowledgeSeed`, `SeedSections`), **permissions and members** (`Permissions`, `AdminMembers`), **price
  filters** (`PriceFilters`, `PriceMeaning`) and **embedding batches** (`Embeddings`).
- `Wrappers`, `Sequences`, `Whitespace` and `Decimal` are shared helpers: options and results, sequence facts,
  stripping, decimal texts.

## Where the code and its promises differ

- Validation does not make planning total. `_validate_candidate` accepts an operation, price or document
  without any value, and `build_product_write_plan` refuses it (for an operation with an `IndexError`).
  `ImportTotality.ValidationMakesPlanningTotal` gives the exact condition, a check on the candidate. With the
  shipped profile only the operation can be accepted empty (`ImportTotality.OnlyAnEmptyOperationFails`).
- A reader that stops on `done` can miss chunks: after a failed append, `done` is still set
  (`ResumableStreams.FailedAppendTruncates`). It has everything exactly if no RPUSH was lost and nothing was
  produced after persisting stopped (`ResumableStreams.CompleteIffNothingLost`).
- No lock covers product names across jobs. Overlapping applies can commit the same name
  (`ImportAtomicity.OverlappingAppliesCanDuplicate`). Names stay distinct exactly if the duplicate check, made
  again at each commit, finds nothing (`ImportOverlaps.NamesDistinctIffCommitsClean`), as in serial applies.
- Overrides are computed against the role's own permissions but read back against the guest ones. At which
  permissions a guest gets what was requested is `Permissions.GuestRoundTripIff`; acting members keep their own
  access except guests that update themselves (`AdminMembers.ActorKeepsAccess`, `AdminMembers.GuestUpdatesItself`).
- In the chat loop, a first invalid markup in the very last request falls out of the loop and still ends with
  `finish`, and only then (`ChatQuirks.FinishedOnMarkupIff`, with a run in `ChatQuirks.LastMarkupFinishes`). Calls
  in the markup are announced even if they are cut, and run exactly within the budget
  (`ChatQuirks.RunIffWithinBudget`, with a run in `ChatQuirks.EleventhCallIsCut`).
- The Redis limiter's bound depends on how late an INCR runs. A deadline guarantees it if and only if it is at
  most one second after the end of the bucket (`RedisRateLimit.RedisRateLimiter.SpanBound`,
  `RedisRateLimit.LateIncrementsExceed`); without any deadline it holds as long as no INCR finds its counter
  expired (`RedisRateLimit.RedisRateLimiter.SteadySpanBound`).

## Model

| member | source | states |
|---|---|---|
| ResumableStreams.StepKeepsInv | app/services/resumable_streams.py:62-148 | Every single step of a producer, a reader or a later capture, with any Redis call succeeding, failing or failing after taking effect, keeps the protocol invariant; no buffer is ever shortened, and none changes once `done` is set |
| ResumableStreams.RunKeepsInv | app/services/resumable_streams.py:62-148 | The same for every interleaved run |
| ResumableStreams.ReaderYieldsPrefixOfSource | app/services/resumable_streams.py:120-148 | In every run, what a reader has yielded is a prefix of what the source of its stream has produced: no gap, no repeat, no foreign chunk |
| ResumableStreams.CaptureYieldsTheSource | app/services/resumable_streams.py:85-109 | `capture` itself hands on exactly what its source produced, at most one chunk behind, whatever Redis does |
| ResumableStreams.SawDoneMeansComplete | app/services/resumable_streams.py:130-144 | A reader that stopped because it saw `done` has yielded the final buffer, which no later step changes; if starting and all appends succeeded, that is the whole source |
| ResumableStreams.CompleteIffNothingLost | app/services/resumable_streams.py:62-109 | In every run, a reader that stopped because it saw `done` has everything the source produced if and only if nothing was lost, said of the replies: no RPUSH failed to take effect, and no chunk was produced after an earlier call of the stream had failed |
| ResumableStreams.UnfailingRunIsComplete | app/services/resumable_streams.py:85-109 | If every call of a stream's producer succeeds and nobody cancels it, then once the source has ended the buffer is all it produced, and a reader stopped by `done` has all of it, whatever readers and other streams do |
| ResumableStreams.ClosedMeansDone | app/services/resumable_streams.py:95-109 | A stream that started, and whose closing calls succeed, has set `done` when its capture ends, whatever its appends did and whether its source ended or raised or its consumer went away |
| ResumableStreams.SupersededReaderStops | app/services/resumable_streams.py:130-133 | When a later capture has taken over the chat, a reader of the old stream starts no further poll |
| ResumableStreams.ActiveIsLatest | app/services/resumable_streams.py:45-60 | In every run, the active stream of a chat is the one whose start took effect last |
| ResumableStreams.StartsAfresh | app/services/resumable_streams.py:45-60 | A capture first clears whatever an old stream of its id left behind and then becomes the active one of its chat |
| ResumableStreams.FailedStartStoresNothing | app/services/resumable_streams.py:94-109 | In every run, a capture whose start failed keeps no chunk and never sets `done` |
| ResumableStreams.OvertakenNeverRefreshes | app/services/resumable_streams.py:70-82 | A stream whose chat another capture has taken never refreshes the active key afterwards |
| ResumableStreams.ActiveRefreshes | app/services/resumable_streams.py:70-82 | One that is still the active stream does, when its closing calls succeed |
| ResumableStreams.CallsProgress | app/services/resumable_streams.py:50-84 | `capture` hands on its chunk, waits for its source or ends after at most three Redis calls, whatever they reply, and the chunk of an append is never exchanged |
| ResumableStreams.ReaderEnds | app/services/resumable_streams.py:130-148 | A reader whose call fails, whose consumer leaves or whose stream is not the active one ends for good with what it has yielded; with its stream active it reads on |
| ResumableStreams.FailedAppendTruncates | app/services/resumable_streams.py:99-109 | A run in which one append fails and a reader stops on `done` without the chunk |
| ResumableStreams.DoneReaderStopsWithinTwoPolls | app/services/resumable_streams.py:130-148 | Once `done` is set a reader starts at most one more poll, and the number of moves it can still make never grows, whatever the others do |
| ResumableStreams.ReaderIsNeverStuck | app/services/resumable_streams.py:130-148 | A reader that has not stopped always has a move |
| ResumableStreams.UndisturbedReaderFinishes | app/services/resumable_streams.py:130-148 | Once `done` is set, a reader that is not disturbed (no Redis failure, no takeover of the active key, not abandoned) can stop only because of `done`, with the complete buffer, and does so after a bounded number of moves |
| MarkerFilter.EmitMore | app/api/routes/chat.py:358-393 | Chunk independence of a marker filter: what may be released after a further delta is what was released before plus what the held back tail and the delta release |
| MarkerFilter.StableCut | app/api/routes/chat.py:358-393 | For stable markers, text that arrives after a first marker does not move the first marker |
| MarkerFilter.StableIff | app/api/routes/chat.py:277-278 | Markers are stable exactly if the first cut never depends on later text |
| MarkerFilter.AnchoredIsStable | app/api/routes/chat.py:277-278 | Markers that begin with a character they contain nowhere else are stable |
| IncrementalUserText.DsmlIsStable | app/api/routes/chat.py:277-278 | The two DSML markers are stable, because `<` occurs in them at the start only |
| IncrementalUserText.ChunkIndependentIff | app/api/routes/chat.py:351-400 | The filter gives the text before the first marker for every chunking exactly if its markers are stable |
| IncrementalUserText.UnanchoredPairIsUnstable | app/api/routes/chat.py:351-393 | For an arbitrary marker pair the output depends on the chunking: one text, cut in two ways, gives `a` and nothing |
| IncrementalUserText.RetainedLength | app/api/routes/chat.py:379-392 | The scan over suffix lengths finds the longest suffix of the text that is a proper prefix of a marker |
| IncrementalUserText.UserText.Push | app/api/routes/chat.py:358-393 | A push returns exactly what the new delta lets through of everything seen so far, and leaves exactly what is to be held back |
| IncrementalUserText.UserText.Finish | app/api/routes/chat.py:395-400 | What was returned before plus the final tail is the text before the first marker, or all of it |
| IncrementalUserText.FilterResponse | app/api/routes/chat.py:351-400 | For every way of cutting a response into deltas, the filtered output is the response up to the first marker |
| IncrementalUserText.VisibleIsClean | app/api/routes/chat.py:351-400 | What is shown of a response contains no marker |
| ReviewTextStream.KeepMarkerPrefix | app/services/business_imports.py:275-279 | Keeps exactly the longest suffix that is a proper prefix of the marker |
| ReviewTextStream.SplitMarkerPrefix | app/services/business_imports.py:282-286 | Splits a text, without loss, before that suffix |
| ReviewTextStream.ReviewStream.Push | app/services/business_imports.py:253-272 | A push shows exactly the part of the report the new piece adds to everything seen so far, across tags cut at any place |
| ReviewTextStream.StreamReport | app/services/business_imports.py:243-286 | For every chunking, the shown text is a function of the completion alone |
| ReviewTextStream.ShowsTextBetweenTags | app/services/business_imports.py:243-286 | With an open tag and a later close tag, the shown text is exactly the text between the first open tag and the first close tag after it |
| ReviewTextStream.RegexAgreesWithStream | app/services/business_imports.py:23-25 | Stripped, the streamed report is the report that the pattern search captures and the parser stores |
| ReviewTextStream.RegexMatchesIffFinished | app/services/business_imports.py:390-399 | The pattern matches exactly when the stream has seen its close tag |
| SqlSplitter.AdvanceDollar | app/db/migration_utils.py:21-27 | A turn inside a dollar quote keeps the position of the next cut |
| SqlSplitter.AdvanceQuoted | app/db/migration_utils.py:29-39 | A turn inside a literal or quoted identifier, with doubled quotes and backslash escapes, keeps the position of the next cut, also when an escape ends the text |
| SqlSplitter.AdvanceComment | app/db/migration_utils.py:41-49 | Skipping a comment, closed or not, keeps the position of the next cut |
| SqlSplitter.Advance | app/db/migration_utils.py:20-71 | Every turn of the scanner that is no cut, in any mode, keeps the position of the next cut |
| SqlSplitter.DollarTagIsValid | app/db/migration_utils.py:9 | What the dollar quote pattern matches is a tag: two dollar signs around letters, digits and underscores |
| SqlLexemes.TagOpensIff | app/db/migration_utils.py:9 | A dollar quote is opened exactly by a prefix that is a dollar sign, nothing or a letter or underscore followed by letters, digits and underscores, and a dollar sign |
| SqlLexemes.NoTagIff | app/db/migration_utils.py:57-62 | A dollar sign opens nothing exactly if no prefix is such a tag |
| SqlLexemes.DollarQuote | app/db/migration_utils.py:21-27 | From a tag to its next occurrence nothing is cut |
| SqlLexemes.OpenDollarQuote | app/db/migration_utils.py:21-27 | A dollar quote that is not closed takes the rest of the script |
| SqlLexemes.Quotation | app/db/migration_utils.py:29-39 | Nothing is cut in a string literal or a quoted identifier, with doubled quotes and, in strings, escaped characters |
| SqlLexemes.OpenQuotation | app/db/migration_utils.py:29-39 | An open literal takes the rest of the script, also with a backslash at its very end |
| SqlLexemes.LineComment | app/db/migration_utils.py:41-44 | A line comment, with whatever quotes and semicolons, ends with its line |
| SqlLexemes.OpenLineComment | app/db/migration_utils.py:41-44 | Without a line break it takes the rest of the script |
| SqlLexemes.BlockComment | app/db/migration_utils.py:46-49 | A block comment ends with the first end mark behind its beginning |
| SqlLexemes.OpenBlockComment | app/db/migration_utils.py:46-49 | Without an end mark it takes the rest of the script |
| SqlLexemes.OtherCharacter | app/db/migration_utils.py:51-69 | Every other character, also a dash, slash or dollar sign that opens nothing, stands for itself |
| SqlLexemes.Semicolon | app/db/migration_utils.py:64-68 | A semicolon that is reached is cut |
| SqlLexemes.PlainText | app/db/migration_utils.py:20-69 | Text without characters that could open anything is passed over whole |
| SqlLexemes.BlockIsOneStatement | tests/test_auth_identity_migration.py:59-64 | A statement with a dollar quoted block, such as DO $$ .. $$, is one statement whatever semicolons the block holds, and splitting goes on behind it |
| SqlSplitter.SplitSqlStatements | app/db/migration_utils.py:12-74 | The scanner's list is the stripped, non-empty pieces between the cuts of a lexeme by lexeme definition |
| SqlRoundTrip.RawSegmentsRejoin | app/db/migration_utils.py:12-74 | The raw pieces with the cut semicolons put back are the input |
| SqlRoundTrip.CutIffBetweenLexemes | app/db/migration_utils.py:20-71 | A position is cut exactly if it holds a semicolon reached by complete lexemes: never inside a quote, dollar quote or comment, and never missed outside |
| SqlRoundTrip.SplitJoinStable | app/db/migration_utils.py:12-74 | For every input, splitting the statements joined with newline, semicolon, newline gives the same statements |
| ImportPaths.PrefixInjective | app/services/business_imports.py:643-662 | Different objects of a candidate have different paths: `prices[1]` is not `prices[10]` |
| ImportPaths.PathTexts | app/services/business_imports.py:630-662 | The paths as they are written: `product.x`, `operation.x`, `prices[i].x` and `documents[i].x` with decimal indexes |
| Decimal.DecReads | app/services/business_imports.py:643-648 | The decimal text of an index reads as that index and has no leading zero |
| ImportPaths.StrictlyCoversOnlyOwn | app/services/business_imports.py:833-834 | Evidence strictly covers a field path exactly if it is the path of the field's own object |
| ImportPaths.FieldCoversItself | app/services/business_imports.py:833-834 | Evidence for a field covers that field and no other |
| ImportPaths.ObjectCoversItsFields | app/services/business_imports.py:833-834 | Evidence for a price or document covers exactly the fields of that price or document |
| ImportValidation.ValidateBusinessValue | app/services/business_imports.py:754-769 | Accepts exactly the non-blank strings, three-letter currency codes and finite numbers; the error names the path, or is the overflow of a huge integer |
| ImportValidation.TypedIff | app/services/business_imports.py:754-769 | A string holds some character that is no white space, a currency code is three letters from A to Z, a number is finite |
| Whitespace.SpacesAre | app/services/business_imports.py:756-758 | The characters that stripping removes, by their code points |
| ImportValidation.ValidateEntityValues | app/services/business_imports.py:721-751 | Accepts exactly the objects without unknown fields, with all required and only well-typed values; adds exactly the paths of present fields that need evidence; the error fits the object |
| ImportValidation.ConformsIff | app/services/business_imports.py:721-751 | An object conforms exactly if each entry is declared and is null or of its declared type, and each required field has a value |
| ImportValidation.AskedIff | app/services/business_imports.py:721-751 | Evidence is asked exactly for the fields with a value whose declaration wants it |
| ImportValidation.AllOkIff | app/services/business_imports.py:626-662 | All objects conform exactly if the product, the operation if there is one, every price and every document each conform to the fields of their own kind |
| ImportValidation.ValidateItems | app/services/business_imports.py:643-662 | The same over all prices or documents, with the paths of the objects |
| ImportCandidate.ValidateEvidence | app/services/business_imports.py:664-694 | Accepts exactly evidence with distinct ids, known paths, known blocks and found quotes, and makes one reference per evidence, in order, with the origin of the document |
| ImportCandidate.ObjectPathsAre | app/services/business_imports.py:643-662 | Evidence may be given for a whole object exactly for the paths of the candidate's prices and documents |
| ImportCandidate.CheckCoverage | app/services/business_imports.py:696-704 | Accepts exactly if every expected path is covered, in whatever order the set is visited |
| ImportCandidate.ValidateCitations | app/services/business_imports.py:837-859 | Accepts exactly if every citation cites an expected field and only known evidence |
| ImportCandidate.ValidateObjects | app/services/business_imports.py:626-662 | Accepts exactly if all objects conform, and collects their expected paths and object paths |
| ImportCandidate.ValidateCandidate | app/services/business_imports.py:616-718 | A candidate is accepted exactly if objects, evidence, coverage and explanation all conform; the proposal keeps its values unchanged with one reference per evidence; the explanation is blamed exactly if all else conforms |
| ImportPlan.PresentIff | app/services/business_imports.py:537-538 | The present paths are exactly those of non-null entries |
| ImportPlan.RegisterFactSources | app/services/business_imports.py:575-585 | Succeeds exactly if every present path is covered; files the paths under the object and each path under its first covering reference |
| ImportPlan.BuildChildWritePlans | app/services/business_imports.py:541-572 | Succeeds exactly if every price or document has a present field and covered paths; one plan per object, in order |
| ImportPlan.BuildProductWritePlan | app/services/business_imports.py:468-526 | Succeeds exactly on plannable proposals, with the plan of every object; it fails with the `IndexError` exactly on an operation without a value under a product that can be planned |
| ImportPlan.PathsDiffer | app/services/business_imports.py:541-585 | No two objects of a proposal share a path, so none overwrites another's facts |
| ImportPlan.PlanTables | app/services/business_imports.py:575-597 | In a finished plan every object's paths are filed under it, each with its own source, after all later objects were registered |
| ImportPlan.OnlyPresentPaths | app/services/business_imports.py:575-585 | Only present paths of registered objects have a source |
| ImportTotality.ValidationMakesPlanningTotal | app/services/business_imports.py:468-718 | When every field needs evidence and the name is required: an accepted candidate can be planned if and only if none of its operation, prices and documents is empty |
| ImportTotality.OnlyAnEmptyOperationFails | app/business_schema/product_and_price.yaml:127-191 | With a profile whose prices and documents have a required field, as the shipped one, only an empty operation keeps an accepted candidate from being planned |
| ImportTotality.EmptyOperationIsAcceptedButFails | app/services/business_imports.py:489-503 | For every profile that needs evidence for every field and requires of a product only its name and of an operation nothing, as the shipped one: a candidate with any name and the operation `{}` is accepted and cannot be planned |
| ImportTotality.FactsAreSourcedByOwnEvidence | app/services/business_imports.py:575-597 | Every present path of an accepted candidate's object is filed with a reference made from that candidate's evidence for exactly that field or that object |
| ImportRecords.FieldNameOf | app/services/business_import_application.py:493 | The last dotted part of a field path is the field's name |
| ImportRecords.AppliesIff | app/services/business_import_application.py:315-384 | A proposal whose field names hold no dots can be applied exactly if all its references are to the job's own file and document, it can be planned, it has a product name that no product of the workspace has up to case, and the database takes it: its facts always find their values |
| ImportRecords.NameIsItsText | app/services/business_import_application.py:327 | A product's name is the text of its product name, or what str() makes of another value |
| ImportRecords.OneProductPerProposal | app/services/business_import_application.py:337-383 | A proposal adds one record per object, of which exactly the first is a product, with the proposal's values |
| ImportRecords.OneFactPerField | app/services/business_import_application.py:491-510 | An object adds one fact per non-null field, in order, with that field's path and value |
| ImportRecords.FactsOfEachPart | app/services/business_import_application.py:337-383 | A proposal adds as many facts as it has non-null fields, each object's facts at its place |
| ImportSafety.StepKeepsInv | app/services/business_import_application.py:193-263 | Every interleaved step of create, persist, fail, decide and apply keeps the import invariant, with open transactions |
| ImportSafety.RunKeepsInv | app/services/business_import_application.py:193-263 | The same for every run |
| ImportSafety.ApprovedOfComplete | app/services/business_import_application.py:43-55 | Every approved proposal of the job is collected |
| ImportSafety.CommitCompletes | app/services/business_import_application.py:74-92 | A commit leaves a job completed only if none of its proposals is pending or approved, though others decided meanwhile |
| ImportAtomicity.CountDecides | app/services/business_import_application.py:239-247 | The count of an apply finds none exactly if no proposal of the job, in the rows as its transaction then sees them, is pending or approved |
| ImportAtomicity.CountStands | app/services/business_import_application.py:239-247 | The status decided by the count is not changed by what other requests do before the commit |
| ImportAtomicity.CommittedStatus | app/services/business_import_application.py:74-92 | In any interleaving a commit leaves the job completed if and only if no proposal was pending or approved when they were counted, and awaiting review otherwise |
| ImportAtomicity.ReachableStates | app/services/business_import_application.py:185-263 | In every reachable committed state no job is applying, though every apply writes that status, and a completed job has no pending or approved proposal; a proposal has contributed exactly its records and facts if it is applied and nothing otherwise, and every added row belongs to an applied proposal |
| ImportAtomicity.ProposalsMoveForward | app/api/routes/business_imports.py:203-215 | In every step, proposals keep their job and content and move only from pending to approved or rejected, and from approved to applied |
| ImportDecisions.StatusAfterStep | app/api/routes/business_imports.py:203-215 | In every step exactly a request that finds its pending proposal under its job and workspace decides it, as requested; exactly a commit that collected it applies it |
| ImportDecisions.PersistedForReview | app/api/routes/business_imports.py:425-455 | New proposals are stored with their candidate's content as pending, or kept from decisions if out of scope, under a job that then awaits review |
| ImportDecisions.ProposalsAfterStep | app/api/routes/business_imports.py:425-459 | Every candidate of a persisted analysis becomes a proposal, and nothing else does |
| ImportDecisions.JobsAfterStep | app/api/routes/business_imports.py:400-416 | Jobs are made only by an upload, for its workspace and file, to be analysed |
| ImportDecisions.JobStatusAfterStep | app/api/routes/business_imports.py:461-504 | A job that no apply holds gets its status from its analysis, and otherwise only a commit changes it |
| ImportDecisions.BeginsIff | app/services/business_import_application.py:194-204 | An apply begins exactly on a job of its workspace that awaits review or is completed and that no other apply holds |
| ImportDecisions.JobStays | app/services/business_import_application.py:193-212 | A job keeps its workspace and its origin |
| ImportDecisions.AbortReleases | app/services/business_import_application.py:193-205 | A rolled back apply leaves the rows and all other transactions as they are and releases its job, which can be applied again at once |
| ImportDecisions.EveryVerdictWasAsked | app/api/routes/business_imports.py:203-215 | In every run: a proposal that ends approved or applied, or rejected, was so before the run or was decided that way in it by someone of its job's workspace; an out of scope one never leaves that status |
| ImportDecisions.NothingWithoutApproval | app/services/business_import_application.py:206-237 | In every run, every record and every fact that was added belongs to an applied proposal that was approved, before the run or by a decision in it from its job's workspace |
| ImportAtomicity.OnlyCommitAddsRows | app/services/business_import_application.py:193-263 | Nothing an apply writes is visible before its commit, and an aborted apply leaves no trace |
| ImportAtomicity.CommitAppliesAll | app/services/business_import_application.py:219-237 | A commit adds the records and facts of the collected proposals, one proposal after the other, and nothing else; it marks exactly those applied and leaves the others as they are |
| ImportConservation.CommitCounts | app/services/business_import_application.py:219-247 | In any interleaving, a commit adds exactly one product per collected proposal and one fact per non-null field of these proposals |
| ImportConservation.AppliedProducts | app/services/business_import_application.py:337-383 | The records of some proposals hold one product for each |
| ImportConservation.AppliedFactCount | app/services/business_import_application.py:480-510 | The facts of some proposals are as many as their non-null fields |
| ImportConservation.RunsAddOneProductPerProposal | app/services/business_import_application.py:185-263 | In every run, the products added are as many as the proposals that became applied, and the facts added as many as their non-null fields |
| ImportAtomicity.CollectsTheApproved | app/services/business_import_application.py:206-212 | An apply collects exactly the proposals approved at that moment, and ends if there is none |
| ImportAtomicity.SerialRunsKeepNamesDistinct | app/services/business_import_application.py:94-103 | With serial applies per workspace, an added product's name differs, up to case, from all other product names of the workspace, old and new |
| ImportOverlaps.AddedNamesIff | app/services/business_import_application.py:94-103 | A commit keeps the names distinct exactly if the duplicate query, made again at that moment, finds none of its products |
| ImportOverlaps.NamesDistinctIffCommitsClean | app/services/business_import_application.py:327-335 | In every run, however applies overlap, added products keep distinct names if and only if no commit finds one of its names taken |
| ImportOverlaps.SerialRunsAreClean | app/services/business_import_application.py:94-103 | Applies that do not overlap never find a name taken at their commit |
| ImportAtomicity.DuplicatesInAJobNeverCommit | app/services/business_import_application.py:327-335 | Two collected proposals of an apply about to commit never have the same name up to case, so a duplicate rolls back the whole job |
| ImportAtomicity.OverlappingAppliesCanDuplicate | app/services/business_import_application.py:327-337 | Without serial applies this fails: two jobs applied at once both commit the same name |
| ImportApplication.InsertFacts | app/services/business_import_application.py:480-510 | Succeeds exactly if every path ends in a key of the object, and appends exactly the object's facts |
| ImportApplication.InsertItems | app/services/business_import_application.py:360-383 | The loops over prices and documents add exactly the records and facts of their objects, in order |
| ImportApplication.InsertPlan | app/services/business_import_application.py:337-383 | A written plan is exactly the records and facts of all objects of the proposal |
| ImportApplication.ApplyProductProposal | app/services/business_import_application.py:315-384 | Succeeds exactly if the proposal can be applied, and adds exactly its records and facts; it conflicts exactly on a plannable, named proposal whose name is taken, and is invalid exactly if it cannot be planned and not for an empty operation |
| ImportDatabase.ImportDatabase.ApplyApprovedImportJob | app/services/business_import_application.py:185-263 | Succeeds exactly if the job is applicable: then every approved proposal is applied, and the job is completed exactly if no other proposal of it is pending or approved, and awaits review otherwise; if not, nothing changes, and the error is that of the job or of its first proposal that cannot be applied |
| ImportDatabase.ImportDatabase.InsertApproved | app/services/business_import_application.py:218-237 | The loop succeeds exactly if each proposal can be applied after the ones before it |
| ImportDatabase.ApplyAloneIsOneTransaction | app/services/business_import_application.py:193-263 | The method and the interleaved model agree: an apply that runs alone ends in the state of the one-call result, or unchanged |
| ChatResponse.AssembledIs | app/api/routes/chat.py:614-658 | Call fragments in any order: each accepted index keeps the id of its first fragment, or the one generated for it if that gives none, and has its arguments concatenated in order and its last name; never more calls than the budget, and an index is refused only when the budget is full |
| ChatResponse.InputIsShown | app/api/routes/chat.py:643-658 | The input events show each call that has an id of its own exactly its arguments, announced once if there are any, and nothing for an id without a call |
| ChatResponse.AssembledSum | app/api/routes/chat.py:614-658 | Reading fragments in two goes is reading them at once |
| ChatResponse.AddFragments | app/api/routes/chat.py:617-658 | The loop over a chunk's fragments extends calls and input events by exactly those of the fragments |
| ChatResponse.ReadResponse | app/api/routes/chat.py:578-669 | Of a response, the user is shown the text before its first marker, or before the held back tail if the connection breaks; content, calls and input events do not depend on the chunking of the text; nothing is held up: after each chunk exactly what it and those before it let out has been sent |
| ChatLoop.SortedKeysAreSorted | app/api/routes/chat.py:790 | The sorted keys are strictly increasing and are exactly the indexes |
| ChatLoop.Order | app/api/routes/chat.py:790 | The calls are ordered by index |
| ChatLoop.ParseDsmlToolCalls | app/api/routes/chat.py:302-344 | Returns calls only if all invoke tags name offered tools and parse; no call names a tool that was not offered |
| ChatLoop.HasDsmlControlText | app/api/routes/chat.py:347-348 | True exactly if one of the markers occurs |
| ChatLoop.NoCallSurvives | app/api/routes/chat.py:764-788 | A request without tools and budget yields no call, so the branch for a tool call in the final summary is dead |
| ChatLoop.CutCallsAreAnnounced | app/api/routes/chat.py:713-722 | Every call in the markup is announced with `tool-input-start`, also those behind the budget |
| ChatLoop.Collect | app/api/routes/chat.py:578-726 | The calls of a response are the structured ones or else those in its markup, and its events are exactly its input events and starts |
| ChatLoop.RunTools | app/api/routes/chat.py:831-917 | Each call is run once, in order, and answered by one tool message and one pair of events |
| ChatLoop.StepBelowCount | app/api/routes/chat.py:489-494 | At the start of every iteration the step is at most the tool step count, which is at most ten; so the summary step is exactly the one with ten |
| ChatLoop.RoundKeeps | app/api/routes/chat.py:790-917 | A round of tools keeps the loop invariant: the conversation is the opening followed by assistant messages, each with its calls and one result per call in order |
| ChatLoop.EndsQuietly | app/api/routes/chat.py:754-762 | A complete response without calls that is not retried ends the loop: with `finish`, or with an error if it holds markup after the warning |
| ChatLoop.StreamChat | app/api/routes/chat.py:484-952 | At most ten tools in at most eleven requests; each request shows the opening and the rounds before it, is the tool-free summary exactly when the budget is used up or a response was no round, and carries the warning exactly after markup; a response after which the loop went on without a round was complete and held no call; shown text and all other events are exactly those of the responses and rounds, and before each request exactly those of the earlier ones have been sent; why the stream ended; only finished, non-empty answers are saved |
| ChatQuirks.RoundIffCalls | app/api/routes/chat.py:754-817 | In every answer, exactly the complete responses with calls are rounds: no call is passed over |
| ChatQuirks.RoundCallsAre | app/api/routes/chat.py:790-830 | In every answer, the calls of a round are those of the fragments of its response in the order of their indexes, with their first ids, last names and scoped arguments, or those of its markup, all of offered tools, in order |
| ChatQuirks.FinishedOnMarkupIff | app/api/routes/chat.py:732-751 | In every answer, the stream is finished on a response with invalid markup if and only if that is a complete response to the eleventh request and the first one with invalid markup |
| ChatQuirks.LastMarkupFinishes | app/api/routes/chat.py:732-735 | A provider that calls ten tools one by one and then sends a marker: every answer ends as finished, with the invalid markup in its eleventh request |
| ChatQuirks.FinishesOnMarkup | app/api/routes/chat.py:919-931 | The loop run on that provider emits text-end and finish |
| ChatQuirks.RunIffWithinBudget | app/api/routes/chat.py:790-817 | In every answer, each call in the markup is announced; its input and output become available and a tool message answers it if and only if it is within the budget of its round |
| ChatQuirks.EleventhCallIsCut | app/api/routes/chat.py:713-722 | Of eleven calls in one response, the last is announced and never run |
| ChatQuirks.AnnouncesACutCall | app/api/routes/chat.py:713-722 | The loop run on that response emits the start of the eleventh call and no other event for it |
| AgentWorkflow.RunCalls | app/services/agent_workflow.py:177-231 | Runs the valid calls of a reply in order as far as the budget goes, appending each result and execution |
| AgentWorkflow.CallsAre | app/services/agent_workflow.py:180-200 | The calls of a reply are its valid entries in order, each with its own id, or if it has none the one generated from the step and its place, and its name and arguments |
| AgentWorkflow.BudgetedAre | app/services/agent_workflow.py:178-182 | Of these, the first ones that fit the budget are run |
| AgentWorkflow.RoundInserted | app/services/agent_workflow.py:236-237 | Inserting the assistant message before the results just appended makes the conversation prompt, rounds and this round |
| AgentWorkflow.RunWithClient | app/services/agent_workflow.py:104-242 | At most `max_steps` tools in at most `max_steps + 1` requests, each showing the prompt and the complete rounds before it, and asking for the final answer exactly when the limit is reached or a reply was no round; what every round ran; the last reply decides whether there is an answer and otherwise which failure is raised; the closing raise is reached exactly if `max_steps` is negative |
| RateLimit.InMemoryRateLimiter.Check | app/core/rate_limit.py:30-47 | The answer, remaining count and retry time are those of a reference that keeps every accepted time per key forever and counts those in the window |
| RateLimit.InMemoryRateLimiter.WindowBound | app/core/rate_limit.py:30-47 | Whatever checks were made, no half-open window holds more than `limit` accepted events of a key |
| RateLimit.WindowHoldsAtMostLimit | app/core/rate_limit.py:41-46 | The same for any sorted history whose events are spaced as the checks guarantee, at any real starting point |
| RateLimit.RetryIsAccepted | app/core/rate_limit.py:43-45 | A rejected caller that waits for the announced time is accepted if nobody was meanwhile |
| RateLimit.RetryIsLeast | app/core/rate_limit.py:43-45 | The announced time is the least whole number of seconds, at least one, after which a caller is accepted if nobody was meanwhile |
| RateLimit.CleanupKeeps | app/core/rate_limit.py:34-39 | Dropping idle keys changes no later answer |
| RedisRateLimit.RedisRateLimiter.Check | app/core/rate_limit.py:57-75 | A check counts its bucket at the moment INCR runs, accepts up to the limit, and accepts nothing if it raises, also when INCR or EXPIRE took effect before the error |
| RedisRateLimit.RedisRateLimiter.Counted | app/core/rate_limit.py:69-71 | A counter lives for a second after its bucket, an INCR restarts it only after that, and one that does not restart covers all accepted checks of the bucket |
| RedisRateLimit.RedisRateLimiter.SpanBound | app/core/rate_limit.py:57-75 | With a deadline of at most a second after its bucket for every INCR, at most twice the limit per key in any span of the window's length, because a counter outlives its bucket by a second |
| RedisRateLimit.RedisRateLimiter.SteadySpanBound | app/core/rate_limit.py:65-71 | However late INCRs run, the same bound holds as long as none of them finds its bucket's counter expired |
| RedisRateLimit.LateIncrementsExceed | app/core/rate_limit.py:65-71 | With any longer deadline the bound fails, for every limit and window: three times the limit accepted in one span though every INCR met the deadline |
| RedisRateLimit.SpanHoldsAtMostTwice | app/core/rate_limit.py:65-75 | At most `limit` per bucket is at most `2 * limit` per span, at any real starting point |
| RedisRateLimit.RetryIsInLaterBucket | app/core/rate_limit.py:74 | A rejected caller that waits for the announced time is in a later bucket |
| RedisRateLimit.RetryIsLeast | app/core/rate_limit.py:74 | It is the least whole number of seconds, at least one, that leads into a later bucket |
| RedisRateLimit.RateLimitMiddleware.CheckLimit | app/core/rate_limit.py:143-160 | A check is answered and recorded by Redis, or exactly if Redis is off or raises by the local limiter: an accepted check is recorded by exactly one of them, a rejected one by none |
| RedisRateLimit.FleetBound | app/core/rate_limit.py:143-160 | With fallback in p processes and every INCR at most a second after its bucket, at most `(2 + p) * limit` per key and span |
| AuthSessions.AuthSessionRepository.Create | app/db/auth_sessions.py:125-155 | Adds the new session for an active user only |
| AuthSessions.AuthSessionRepository.GetActive | app/db/auth_sessions.py:51-73 | Finds exactly unrevoked, unexpired sessions |
| AuthSessions.AuthSessionRepository.Touch | app/db/auth_sessions.py:75-85 | Extends an unrevoked, unexpired session last seen before the given time, never beyond its absolute expiry |
| AuthSessions.AuthSessionRepository.TouchIfDue | app/db/auth_sessions.py:192-211 | Touches exactly if the last touch is older than the interval, and skipping changes nothing a touch would have changed |
| AuthSessions.AuthSessionRepository.Revoke | app/db/auth_sessions.py:213-220 | Revokes that session only, and never moves an earlier revocation |
| AuthSessions.AuthSessionRepository.RevokeUserSessions | app/db/auth_sessions.py:222-236 | Revokes exactly the user's other sessions |
| AuthSessions.AuthSessionRepository.Authenticate | app/core/auth.py:183-224 | Accepts exactly found sessions of active users, and touches only those |
| AuthSessions.RevocationIsPermanent | app/db/auth_sessions.py:87-104 | In every run, a revoked session is never accepted again |
| AuthSessions.RevokeUserIsExact | app/db/auth_sessions.py:95-104 | Revoking a user's sessions rejects each of them but the excepted one in every later run; the excepted one and those of others are accepted as before |
| AuthSessions.RevokeIsExact | app/db/auth_sessions.py:87-94 | Revoking one session rejects it in every later run and leaves all others as they are |
| AuthSessions.InactiveIsRejected | app/core/auth.py:183-224 | In every run, a session is accepted only while its user is active, as the last change of that user says |
| AuthSessions.AbsoluteExpiryHolds | app/db/auth_sessions.py:66-71 | In every run, no session is accepted at or after its creation plus the absolute timeout |
| AuthSessions.UnusedIsRejected | app/db/auth_sessions.py:173-211 | In every run, a session unused for the idle timeout or longer is rejected |
| AuthSessions.RegularUseKeepsAlive | app/db/auth_sessions.py:173-211 | A session requested always sooner than the idle timeout minus the touch interval is accepted exactly until its absolute expiry |
| AuthSessions.LoginStartsSession | app/db/auth_sessions.py:125-155 | A login of an active user starts a session for which these results hold; another login changes nothing |
| KnowledgeSeed.UpsertedColumn | app/db/knowledge_seed.py:223-241 | An upsert sets exactly the updatable columns of its own key's row; ids and conflict columns are never overwritten |
| KnowledgeSeed.NormalizedIff | app/db/knowledge_seed.py:143-201 | A row is accepted exactly with a sheet that is not blank, a positive row number, only known columns beside a source id, and all required ones |
| KnowledgeSeed.NormalizedIs | app/db/knowledge_seed.py:135-206 | It keeps its values, with the sheet stripped, JSON as text, and the file's own id in place of any it names |
| KnowledgeSeed.UpsertsIff | app/db/knowledge_seed.py:209-265 | An upsert fails exactly on no or unknown columns, a null id, a refusal of the database, or an insert with an id that another row has |
| KnowledgeSeed.IdsStayDistinct | app/db/knowledge_seed.py:223-265 | However ids are given or generated, seeding never leaves two rows of a table with the same id |
| KnowledgeSeed.FoldedKeys | app/db/knowledge_seed.py:244-265 | Every key of the rows ends up in the table, and none disappears |
| KnowledgeSeed.LastWriterWins | app/db/knowledge_seed.py:209-265 | After any rows, each updatable column has the value of the last row of its key that sets it; every other column of an old key has its old value, and an updatable column of a new key that no row sets stays unset |
| KnowledgeSeed.FirstWriterStays | app/db/knowledge_seed.py:223-241 | The id and the conflict columns of a new key are those of the first row with it, or the id generated for that row: later rows never change them |
| KnowledgeSeed.TableSeededTwice | app/db/knowledge_seed.py:244-265 | Seeding the same rows again changes nothing, with repeated keys, differing column sets and fresh generated ids |
| SeedSections.ConflictKeysAreComplete | app/db/knowledge_seed.py:63-132 | Rows of all sections have all their conflict columns, so conflicts compare complete keys |
| SeedSections.SectionColumns | app/db/knowledge_seed.py:63-132 | The conflict columns of each section, which are required beside the file's id, and its other required columns |
| SeedSections.FileEnsuredTwice | app/db/knowledge_provenance.py:49-74 | Ensuring the same file again finds the row with its first id and leaves its columns |
| SeedSections.EnsuredIs | app/db/knowledge_provenance.py:130-200 | A file is taken exactly with a hash of 1 to 64 characters, one knowledge base and an uploader; its row keeps its id or gets the new one, with each updated column renewed and every other as it was or as inserted; other rows stay |
| SeedSections.UpsertRows | app/db/knowledge_seed.py:244-265 | The loop normalizes and upserts every record or fails |
| SeedSections.SeedDatabase.SeedSection | app/db/knowledge_seed.py:321-343 | A section is seeded exactly as defined and counted, or the seeding fails |
| SeedSections.SeedDatabase.SeedLater | app/db/knowledge_seed.py:332-343 | The sections after the research rows, in their order |
| SeedSections.SeedDatabase.SeedPayload | app/db/knowledge_seed.py:305-344 | Seeds the file and all sections, with the count of every section, or leaves the database unchanged |
| SeedSections.SeedsIff | app/db/knowledge_seed.py:305-344 | A payload is seeded exactly if its file is taken, then its research rows, then every research id of a document, operation or price is that of a research row of this file, and then the other sections |
| SeedSections.EveryRowIsStored | app/db/knowledge_seed.py:321-343 | After a successful seeding every row of every section is in its table |
| SeedSections.LinksPointToThisFile | app/db/knowledge_seed.py:268-302 | After a successful seeding every dependent row with a research id points to a research row of the payload's own file |
| SeedSections.SeedingTwiceIsSeedingOnce | app/db/knowledge_seed.py:305-344 | Seeding the same payload twice gives the same files, tables and file id as seeding once, whatever ids are generated |
| Permissions.GetEffectivePermissions | app/core/permissions.py:88-109 | Exactly the known permissions whose last override grants them, or that are defaults without an override, without the forbidden ones, in catalog order |
| Permissions.RolesAreOrdered | app/core/permissions.py:33-66 | Owners and admins have the whole catalog by default, editors all but members and the audit log, employees of these all but managing knowledge and extracting files, viewers of these all but deleting chats and writing documents; guests of any role only reading and writing chats |
| Permissions.OnlyManagingKnowledgeIsForbidden | app/core/permissions.py:76-107 | A listed permission whose last override grants it is in effect for every role, except that an employee never may manage knowledge |
| Permissions.PermissionOverrides | app/api/routes/admin_members.py:302-317 | Exactly one override per permission at which the request differs from the role's own permissions |
| Permissions.OverridesRoundTrip | app/api/routes/admin_members.py:302-317 | For members that are no guests, recomputing from the stored overrides gives exactly the requested permissions the role may have |
| Permissions.GuestRoundTripIff | app/core/permissions.py:94-107 | For a guest, recomputing gives back the request at a permission exactly if it is forbidden to the role, has an override, or is requested just if guests have it |
| Permissions.AnyOrder | app/api/routes/admin_members.py:302-317 | The same in whatever order the overrides are read back |
| AdminMembers.MemberAdministration.Authorize | app/core/workspace_access.py:124-173 | Access exactly for active members with `members.manage` in effect |
| AdminMembers.MemberAdministration.CreateMemberAccess | app/api/routes/admin_members.py:452-514 | Succeeds exactly under the stated conditions, and then adds that active member with overrides for the requested permissions; each error is raised for its own reason |
| AdminMembers.MemberAdministration.UpdateMemberAccess | app/api/routes/admin_members.py:588-653 | Succeeds exactly under the stated conditions, and changes role and overrides of that member only; each error is raised for its own reason |
| AdminMembers.MemberAdministration.UpdateMemberStatus | app/api/routes/admin_members.py:724-779 | Succeeds exactly under the stated conditions, and changes the status of that member only; each error is raised for its own reason |
| AdminMembers.StepKeepsOwner | app/api/routes/admin_members.py:624-631 | No operation removes the last owner that is active: also when demoting or suspending owners |
| AdminMembers.ActorKeepsAccess | app/api/routes/admin_members.py:618-622 | An acting member still has `members.manage` after its operation, except exactly when it is a guest that updated itself |
| AdminMembers.GuestLosesAccess | app/api/routes/admin_members.py:610-653 | A guest that updates itself loses the access it asked to keep |
| AdminMembers.GuestUpdatesItself | app/api/routes/admin_members.py:588-653 | Such a guest: a viewer that was granted `members.manage` may make itself an admin asking to keep it, and has lost it afterwards |
| AdminMembers.OwnerRemains | app/api/routes/admin_members.py:747-779 | Throughout every serial run at least one active owner remains |
| AdminMembers.ActingMembersStay | app/api/routes/admin_members.py:610-653 | Throughout every serial run each acting member is still authorized after its operation, except exactly guests that updated themselves |
| PriceFilters.NameInjective | app/api/routes/business_data_tables.py:292-300 | Different indexes give different bind names |
| PriceFilters.AddAbove | app/api/routes/business_data_tables.py:292-300 | Writing a value under a new index leaves all earlier binds as they are |
| PriceFilters.EvalAgrees | app/api/routes/business_data_tables.py:274-321 | A condition's meaning depends on its own binds only |
| PriceFilters.FilterConditionSql | app/api/routes/business_data_tables.py:274-321 | In three-valued logic, the condition evaluated with the written parameters is the direct meaning of the filter on every value (which `PriceMeaning` states in words of the text), and no earlier bind is overwritten |
| PriceFilters.ModelSql | app/api/routes/business_data_tables.py:361-372 | The joined conditions of a column mean that column's filter model |
| PriceFilters.BuildBase | app/api/routes/business_data_tables.py:334-358 | The fixed conditions mean the workspace, the authorized sources and the search text |
| PriceFilters.BuildProductPriceConditions | app/api/routes/business_data_tables.py:324-374 | The whole WHERE condition, evaluated with the final parameters on any row, is the direct evaluation of the request, and the page binds are kept |
| PriceMeaning.TextFiltersMean | app/api/routes/business_data_tables.py:302-320 | With SQL's ILIKE, and a text without its special characters, contains, starts with, ends with and equals select exactly the non-null values that contain, begin with, end with or equal the text up to letter case, and the negated ones exactly the other non-null values |
| PriceMeaning.NullsAndBlanksMean | app/api/routes/business_data_tables.py:283-290 | NULL is blank and passes no other filter; a text is blank exactly if it is empty |
| PriceMeaning.NumberFiltersMean | app/api/routes/business_data_tables.py:294-299 | The number filters compare as their names say, ranges with both ends |
| PriceMeaning.PassesIff | app/api/routes/business_data_tables.py:361-372 | A row passes a column's model exactly if all, or with OR any, of its conditions select it |
| PriceMeaning.SearchedIff | app/api/routes/business_data_tables.py:350-358 | A row is found exactly if one of the searched columns includes the query text up to letter case |
| PriceMeaning.SelectedIff | app/api/routes/business_data_tables.py:334-374 | The built WHERE selects exactly the rows of the workspace that are ready, of an authorized source, found by the search and passing every filter |
| Embeddings.AllCovered | app/services/embeddings.py:61-89 | As many different indexes as places cover every place, so the final lookup never fails |
| Embeddings.CheckItem | app/services/embeddings.py:63-86 | An item is accepted exactly if it is well formed, of the right dimension and finite, and its index is in range and new; each error is raised for its own reason |
| Embeddings.ParseVectors | app/services/embeddings.py:56-89 | Accepts exactly payloads that pass all checks, and returns at each place the vector with that index |
| Embeddings.EmbedTexts | app/services/embeddings.py:38-53 | Every text gets the vector of its own place in its own batch, in input order; an error means that some batch was refused |
| Embeddings.VectorIsUnique | app/services/embeddings.py:64-71 | A payload has one vector per place, so the result is determined by the provider's answers |
| Embeddings.BatchingIsTransparent | app/services/embeddings.py:38-53 | If the provider embeds each text on its own, batching gives the per-text map in input order |

## Left out

- Redis keys do not expire in `ResumableStreams`, stream ids are fresh, and each Redis call takes effect at most once: the client's own retries are not modelled.
- `ResumableStreams` leaves out the store without Redis, where `capture` hands on its source.
- FastAPI routing, Pydantic parsing, SSE text, cookies, tracing, logging and the frontend: plumbing.
- Providers, tools and the OCR and Office parsers are arbitrary functions or inputs; generated ids are arbitrary or fresh.
- The DSML grammar is a function from a text to its invoke tags; only the allow-list and the refusal of a whole text are modelled, not the decoding of parameters.
- `tool-input-available` events carry no arguments here, and the text of errors is left out.
- The import's evidence quotes: whether a quote is found at its data path is an arbitrary predicate, so normalizing white space and walking the data path are not modelled.
- The matching of explanations to candidates, `candidateRef`, `unresolved` values and the JSON encoding of stored proposals are not modelled; a stored proposal is read back as it was written.
- Which INSERTs the database accepts is an arbitrary predicate, and the columns of a record are its values and its source reference.
- A persisted result and a failed analysis are each one step of `ImportRuns`, possible at any time when no apply holds the job: this allows more runs than the code has.
- The order of inserts between different tables of one apply is not modelled, since no other request sees them before the commit.
- Timestamps (`updatedAt`, `finishedAt`), review comments and audit log rows are left out.
- Member operations are serial: write skew between concurrent operations is not modelled, and no row lock prevents it. Development identities are left out.
- A request's session lookup and touch are one step; the clock is the same for application and database.
- Times are real numbers or integers, so rounding of floating point clocks is not modelled; one process's clock is monotonic and shared with Redis in `RedisRateLimit.FleetBound`.
- The middleware's choice of a limit per path and its map of limiters per limit are left out: one limit is considered.
- In the seeding, the knowledge base and the uploader are inputs, the allowed column sets are parameters, and what else the database refuses is an arbitrary predicate.
- Normalizing a filter model from JSON, sorting and paging are left out; CAST AS TEXT and the folding of letter case are arbitrary functions, ILIKE too in `PriceFilters`, and numbers compare without rounding.
- `vector_literal`, the API key check and empty input of `embed_texts` are left out or trivial; vectors are real numbers.
- The splitter is modelled as written; that PostgreSQL would cut a script at the same places is not claimed (comments do not nest, and an identifier directly before a dollar sign does not prevent a dollar quote).
- `_unique_headers`, `paginate_parsed_document`, `_parse_markdown`, invitation tokens, migration status flags and the provider stream reader of the import are not modelled.
