# Verified model of the repository-research service

The service accepts GitHub repository URLs, fetches each repository's metadata, queues a job, and lets
workers turn it into a report with an analysis by a language model. Job rows and reports live in a
database, snapshots and cached analyses in Redis under a time to live, messages in a queue with a
dead-letter queue. Beside it the same code base holds a menu-tree builder, a data-permission filter,
pagination and a duration printer. This project models these parts and proves what they keep.

Three groups of files:

- **The job protocol.** `Stores` has the stores as values and the writes made to them, `PipelineSteps`
  and `SubmitSteps` the handling of a delivery and of a request with one awaited operation per step, and
  `System` the whole service as a state machine: any number of requests and workers, receive counts,
  redrive, crashes, messages turning visible again under a handling, expiry at any time, and arbitrary
  answers of GitHub and the model. A run is a sequence of labels, and a label says which step happened
  and everything the environment decided in it. The token budget and the number of attempts are settings
  without a value here, so what is proved holds for all of them. `Safety`, `Poll`, `Provenance`,
  `Truncation`, `RetryBound`, `Finiteness`, `DeadLetters`, `LastDelivery`, `Expiry` and `Targets` prove
  what holds over all runs; `JobView` says what belongs to one job. `Delivery` composes the steps of one
  handling and says what it leaves behind. `Pipeline`, `Worker` and `Submission` are the imperative code,
  each proved to take the stores and the queue exactly where the steps take them, so that a worker's loop
  and a request are runs of `System`. They run on `Backend`, the session and the cache: the tables of
  `Database`, whose records are updated in place, and the one key space of `StateCache` with its two
  prefixes. `MessageQueue` is the queue. `Witnesses` has inputs and runs for the findings below.
- **Menu trees.** `MenuRows` has rows, parent chains and cycles, `MenuForest` the forest that either
  builder stands for, `RowSort` the stable sort, and `BuildTree` the two builders on node objects that
  are linked in place.
- **Text and arithmetic.** `UrlValidator` (parser, canonical URL, cache key) with `UrlShape` (which URLs are
  accepted, on their text), `UnsafeInstructions` (the blocked pattern as a matcher, and leftmost
  substitution) with `Phrases` (what the pattern matches) and `Redaction` (what substitution replaces),
  `ContextSanitizer` with `Templates` (what formatting does), `PromptContents` (what the prompt tells) and
  `PromptBounds` (its budget), `DataPermission`, `Pagination`, `ServerInfo`, with `Text` underneath.

What the proofs found where code and intention part:

- A URL whose repository name still ends in ".git" after the one suffix removal is accepted, but the
  worker parses its canonical URL into a different repository, or refuses it (`CanonicalRoundTripIff`,
  `CanonicalReparse`, `DoubleSuffixChangesTarget`). `Targets.ReportIsOnTarget` says what this means for
  stored reports.
- With a header free of braces, the prompt is over its budget exactly if three lengths are
  (`PromptFitsIff`). Only a frame (URL, branch name, commit, counts, language) of more than the budget
  less 414 characters can bring that about, so under the default budget it takes metadata of extreme
  length, and under a small one any repository will do. For every budget there is such a repository (`Witnesses.PromptExceedsBudget`). A README shorter
  than its floor is lengthened, not shortened, by its truncation (`Witnesses.CutLengthensShortReadme`).
- The header is filled into the template before the template is formatted, so braces in it change or
  break the prompt (`TemplateFaithfulIff`, `BracedHeaderFails`); building it raises exactly if a brace is
  neither doubled nor part of a field (`PromptRaisesIff`). The header and the file list are not
  sanitized (`PromptCleanIff`): a file called "system prompt" reaches the model under every budget
  (`Witnesses.PromptKeepsUnsafeName`, `Witnesses.SystemPromptIsUnsafe`).
- A job answered from the cache at submission leaves the fallback flag of its snapshot unset, while the
  answer rebuilt from the report after the snapshot expired says false (`ExpiryIsTransparent`).
  Every repository that is asked for twice has such a run, unless its name still ends in ".git"
  (`Witnesses.CachedAnswerChanges`).
- A model call that fails with an exception without a text leaves a completed report that has no analysis
  and is not flagged as a fallback (`FallbackFlagIff`). Every repository has such a run, with the
  same exception (`Witnesses.EmptyReasonLosesFlag`).
- As many crashes as there are attempts put a message into the dead-letter queue while its job still says
  pending (`CrashesLeaveJobUnmarked`). With one handling at a time, a dead-lettered job is marked failed
  exactly if no crash cut its last delivery short (`DeadLetterIsMarkedIff`).
- The recursive tree builder does not return when it is started on a cycle (`RecursionReturnsIff`).

## Model

| member | source | states |
|---|---|---|
| Safety.CompletedHasReport | app/research/service/pipeline.py:140-181 | in every reachable state, between any two awaits of any requests and workers, a row or a snapshot marked completed has its report stored |
| Safety.ReportsStay | app/research/crud/crud_research.py:78-117 | no step, crash, retry or expiry takes a stored report away |
| Safety.NoAcceptedJobLost | app/research/worker/sqs_worker.py:37-74 | a job whose submission returned is reported, or its message is in the main queue or in flight, or in the dead-letter queue |
| Safety.QuietIsSettled | app/research/worker/sqs_worker.py:27-76 | once nothing but a new request can happen, every accepted job is reported or in the dead-letter queue |
| Poll.CompletedAnswerHasReport | app/research/api/v1/research_router.py:119-154 | however the service moves between the two reads of a poll, the answer carries a report exactly when it says completed, and is "not found" exactly when both reads found nothing |
| Poll.AnswerShowsWhatWasRead | app/research/api/v1/research_router.py:119-154 | an answer shows the snapshot that was read, field by field; if only the report was found, it says completed and takes data and reason from the report; the report shown is the stored one, field by field |
| Poll.CompletedStaysFound | app/research/api/v1/research_router.py:121-138 | once a poll answered completed, no later poll answers that the job does not exist |
| Provenance.CachedAnalysisIsAnAnswer | app/research/service/pipeline.py:83-112 | over all runs a cached analysis is an answer to a prompt for the commit its key names, with that prompt's warnings merged in |
| Provenance.ReportedAnalysisIsAnAnswer | app/research/service/pipeline.py:83-154 | the analysis in a report, fresh or cached, is an answer to a prompt for the report's own owner, repository and commit, warnings merged in |
| Provenance.ReportHasOneOfTwo | app/research/service/pipeline.py:84-154 | a stored report has exactly one of an analysis and a fallback reason, and its flag is the truth value of the reason |
| Provenance.ReportTellsItsContext | app/research/service/pipeline.py:134-154 | in every reachable state a stored report names the URL, the commit and the metadata of the context it was built from |
| Provenance.FallbackFlagIff | app/research/service/pipeline.py:151-152 | the fallback flag tells whether an analysis is missing exactly if the reason is not the empty string |
| Provenance.WarningsReachTheReport | app/research/service/pipeline.py:97-112 | every warning of the prompt an analysis answers is among the limitations in the report, and the model's own limitations stay in front |
| Truncation.UnmentionedMeansWhole | app/research/service/context_sanitizer.py:75-97 | if the limitations in a report do not mention the README (or the file list) as cut, the model answered with the whole of it before it |
| Stores.MergeContains | app/research/service/pipeline.py:100-104 | merging warnings keeps the given limitations in front, adds every message, and adds nothing else |
| Stores.MergeAddsInOrder | app/research/service/pipeline.py:100-104 | the messages that are added are the new ones, each where it is first given, in the order given |
| Stores.MergeIdempotent | app/research/service/pipeline.py:100-111 | merging the same warnings a second time changes nothing |
| RetryBound.HandOversBounded | app/research/adapters/sqs_adapter.py:63-75 | whatever positive number of attempts is configured, a message is handed to workers at most that often, exactly as often as it counts, and is in the dead-letter queue only when all attempts were used |
| Finiteness.RunsAreBounded | app/research/worker/sqs_worker.py:27-74 | with crashes, retries and expiries, a run is never longer than a fixed number of steps per submitted job |
| Finiteness.StepPays | app/research/worker/sqs_worker.py:45-74 | each step but a new submission lowers one potential over queue, workers, requests and cache entries |
| DeadLetters.DeadLetterIsMarked | app/research/worker/sqs_worker.py:54-74 | with one handling of the job at a time and no crash in its last delivery, its message reaches the dead-letter queue only if its row, and its snapshot unless expired, say failed; earlier crashes and other jobs make no difference |
| LastDelivery.DeadLetterIsMarkedIff | app/research/worker/sqs_worker.py:45-74 | with one handling of the job at a time, the row of an accepted, dead-lettered job says failed exactly if no crash cut its last delivery short before the row was marked |
| LastDelivery.CrashesLeaveJobUnmarked | app/research/worker/sqs_worker.py:45-74 | whatever the repository and the configured attempts, that many crashes put an accepted job into the dead-letter queue with its row still pending |
| Expiry.ExpiryIsTransparent | app/research/api/v1/research_router.py:120-154 | with one delivery of the job at a time, polls before and after its completed snapshot expires agree on status, report, instant data, reason and error; on the flag exactly if the job was queued; in full exactly if it was queued and did not fall back |
| JobView.OthersLeaveAlone | app/research/crud/crud_research.py:45-117 | no step of another job, of the service or of the environment, touches the message, row, snapshot, report, submission or handlings of a job |
| Targets.ReportIsOnTarget | app/research/service/orchestration.py:115-121 | a report is about the owner and repository its job was submitted for, but for one ".git" suffix that the worker may drop |
| Delivery.DriveIsRun | app/research/service/pipeline.py:27-181 | handling a delivery without interruption is a run of the service in which only that worker moves |
| Delivery.DeliveryGoesThrough | app/research/service/pipeline.py:61-181 | a delivery that comes to an analysis or a reason is acknowledged and leaves, field by field, the report about the fetched repository, the completed row and snapshot, the cached analysis, and one more call exactly if the cache did not have it |
| Delivery.DeliveryFails | app/research/worker/sqs_worker.py:45-72 | a failing delivery is released and adds no report, analysis or call; before the last attempt row and snapshot say, field by field, how far it came, and on the last that it failed for good and with which error |
| Delivery.RefusedUrlFails | app/research/service/pipeline.py:28 | a message whose URL the parser refuses leaves nothing behind before the last attempt, and then the failed row and snapshot |
| Delivery.RedeliveryIsIdempotent | app/research/service/pipeline.py:83-181 | if the cached analysis is still there and GitHub gives the same context, handling the message again asks the model nothing and leaves the job's report, snapshot and row (of the same URL, owner and repository) as the first handling did, whatever else changed meanwhile; other reports stay, and the job's own is written again unchanged if it had not changed |
| Pipeline.MergePromptWarnings | app/research/service/pipeline.py:100-111 | the loop computes the merge of the prompt's warnings into the answer |
| Pipeline.FindAnalysis | app/research/service/pipeline.py:83-122 | what the cache, the prompt builder and the model come to, and the stores where the steps of the handling take them |
| Pipeline.FileReport | app/research/service/pipeline.py:134-181 | the final stores, field by field: the report about the repository stored, the row and the snapshot completed, nothing else touched |
| Pipeline.ExecuteResearchPipeline | app/research/service/pipeline.py:19-181 | the pipeline takes the stores where the steps of the handling take them: to the acknowledgement if it returns, to the error handling if it raises |
| Worker.HandleReceived | app/research/worker/sqs_worker.py:35-74 | a delivery leaves the stores where its handling takes them, and the message deleted if the pipeline returned and visible otherwise |
| Worker.HandleNext | app/research/worker/sqs_worker.py:28-74 | a turn of the loop redrives what it came across, and handles the one message it was handed, if any |
| Worker.RunWorker | app/research/worker/sqs_worker.py:18-76 | any number of turns is a run of the service, for all answers of GitHub and the model |
| Worker.DeliveryRun | app/research/worker/sqs_worker.py:37-74 | hand-over, handling and settlement of one message are a run that ends in the stores and the message place of the composed steps |
| Submission.CachedSubmission | app/research/service/orchestration.py:75-113 | with a cached analysis a job is reported, completed and accepted at once, with the fields of report, row and snapshot taken from the context, and no message is sent |
| Submission.QueuedSubmission | app/research/service/orchestration.py:115-148 | without one, a job is accepted exactly if sending succeeds, is then pending, and is otherwise failed with the error, in row and snapshot field by field |
| Submission.Submit | app/research/service/orchestration.py:43-148 | a request is refused without a trace if the URL or GitHub fails; otherwise it is a run of the service in which the submission, with the target the parser handed out, takes all its steps, and it returns exactly if they end in acceptance |
| Submission.RequestRun | app/research/service/orchestration.py:43-148 | beginning a submission and taking its composed steps is a run of the service with exactly that end |
| Witnesses.PromptExceedsBudget | app/research/service/context_sanitizer.py:75-97 | for every budget some repository's prompt is longer than the budget |
| Witnesses.CutLengthensShortReadme | app/research/service/context_sanitizer.py:75-85 | a nonempty README within its floor and no file list: if the prompt is too long it ends up longer, by the note |
| Witnesses.UnsafeFileNameStays | app/research/service/context_sanitizer.py:42-97 | a match within the first 128 characters of the file list is in the prompt under every budget |
| Witnesses.PromptKeepsUnsafeName | app/research/service/context_sanitizer.py:44-73 | for every unblocked file name that is a match, an everyday repository holding that file has a prompt with a match under every budget |
| Witnesses.EmptyReasonLosesFlag | app/research/adapters/llm_adapter.py:59-64 | every repository whose name does not still end in ".git" has a run in which a model failure without a text ends in a completed report without an analysis and without the flag |
| Witnesses.CachedAnswerChanges | app/research/service/orchestration.py:75-113 | every repository whose name does not still end in ".git" has a run whose second job is answered from the cache, and whose poll answer changes its flag from unset to false when the snapshot expires |
| MessageQueue.MessageQueue.Receive | app/research/adapters/sqs_adapter.py:86-115 | hands out one visible message with attempts left and counts it, moves used-up ones it meets to the dead-letter queue, and returns nothing only if nothing is visible |
| MessageQueue.MessageQueue.Delete | app/research/adapters/sqs_adapter.py:117-123 | the current receipt deletes its message; an outdated one may do nothing; no other message, and no dead-lettered one, changes |
| Database.JobTable.GetJobById | app/research/crud/crud_research.py:120-122 | finds the one record of a job, or none exactly if there is none |
| Database.JobTable.CreateJobRecord | app/research/crud/crud_research.py:13-42 | adds the row of a new job and leaves the others; a job never has two rows |
| Database.JobTable.UpdateJobStatus | app/research/crud/crud_research.py:45-75 | assigns exactly the given columns of the job's own row, and does nothing for a job without one |
| Database.ReportTable.SaveFinalReport | app/research/crud/crud_research.py:78-117 | overwrites the job's report or adds the first one: at most one report row per job |
| StateCache.KeysSeparate | app/research/adapters/redis_adapter.py:21-27 | whatever job ids and cache keys are, no snapshot and no analysis share an entry |
| StateCache.StateCache.SetState | app/research/adapters/redis_adapter.py:29-34 | writes one job's snapshot and no other entry |
| StateCache.StateCache.GetState | app/research/adapters/redis_adapter.py:36-40 | reads back the snapshot of the job, or nothing |
| StateCache.StateCache.DeleteState | app/research/adapters/redis_adapter.py:42-43 | drops one job's snapshot and no other entry |
| StateCache.StateCache.SetCachedAiResult | app/research/adapters/redis_adapter.py:53-60 | writes one cached analysis and no other entry |
| StateCache.StateCache.GetCachedAiResult | app/research/adapters/redis_adapter.py:45-51 | reads back the analysis under the key, or nothing |
| Backend.Backend.SaveFinalReport | app/research/crud/crud_research.py:78-117 | on real records, storing a report is the write the protocol counts on and touches nothing else |
| Backend.Backend.UpdateJobStatus | app/research/crud/crud_research.py:45-75 | on real records, updating a row is the write the protocol counts on and touches nothing else |
| MenuForest.BuildersAgree | utils/build_tree.py:21-66 | if every named parent is present, the one-pass builder and the recursion from None stand for the same ordered forest, cycles or not |
| MenuForest.RecursiveIsTraversalWithoutOrphans | utils/build_tree.py:21-66 | with orphans, the recursion gives the one-pass forest without the orphan-rooted trees |
| MenuForest.RecursionReturnsIff | utils/build_tree.py:49-66 | the recursion returns exactly if its starting id is on no cycle, and then a depth of one call per row and one more is enough |
| MenuForest.RecursionGivesForest | utils/build_tree.py:49-66 | off cycles the recursion comes to the forest, and a depth of one call per id not yet on the path above the start, and one more, is enough |
| MenuForest.EachRowPlacedOnce | utils/build_tree.py:21-46 | a row occurs exactly once in the one-pass forest, or not at all exactly if it is on or below a cycle |
| MenuForest.TraversalInRowOrder | utils/build_tree.py:31-46 | at every level of the one-pass forest the trees stand in row order |
| MenuForest.RowOrderIsSorted | utils/build_tree.py:17-46 | on sorted rows every level is non-decreasing in the sort key |
| MenuForest.TraversalOfMapped | utils/build_tree.py:104-119 | rewriting the other columns of every row keeps the shape of the forest |
| RowSort.StableSortSorts | utils/build_tree.py:16-18 | the sorted rows are the given ones, ordered by key, with equal keys in their old order |
| RowSort.StableOrderUnique | utils/build_tree.py:17 | only one order is sorted and stable |
| BuildTree.TraversalToTree | utils/build_tree.py:21-46 | the one pass over aliased nodes links every node's children in list order and returns nodes that spell out the one-pass forest |
| BuildTree.RecursiveToTree | utils/build_tree.py:49-66 | the recursion sets the entries below its start and no others, and returns nodes that spell out the forest from there |
| BuildTree.PlacedOnceInHeap | utils/build_tree.py:31-46 | after the one pass a node occurs once: among the roots, or in the list of the one node with its parent id |
| BuildTree.GetTreeNodes | utils/build_tree.py:9-18 | fresh nodes that carry the stably sorted rows |
| BuildTree.GetTreeData | utils/build_tree.py:69-91 | the forest of the chosen builder, or the error for an unknown one |
| BuildTree.GetVben5TreeData | utils/build_tree.py:94-119 | the relabelled forest, of the same shape as the plain one |
| BuildTree.Vben5Row | utils/build_tree.py:104-117 | the "meta" entry tells title, icon, link and cache as they are, and hidden and forbidden exactly if display and status are empty values; id, parent and sort key stay |
| BuildTree.Vben5Columns | utils/build_tree.py:102-106 | the six menu columns are gone and every other column is kept |
| BuildTree.TreeDataInOrder | utils/build_tree.py:83-91 | every level of the result is sorted by key with ties in row order |
| UrlValidator.ParseRepositoryUrl | app/research/service/url_validator.py:13-55 | an accepted target has two well-formed names, no reserved owner, and their canonical URL |
| UrlShape.AcceptedIff | app/research/service/url_validator.py:13-55 | a URL is accepted, as a given target, exactly if its cleaned text is https, one of the two hosts, slashes, owner, slashes, segment, slashes, and ignored parameters, query and fragment, with an unreserved owner, well-formed names, and the repository the segment less one ".git" |
| UrlShape.CleanedIs | app/research/service/url_validator.py:14-15 | what cleaning leaves: no white space at either end, no control character in front, no tab or line break |
| UrlValidator.ParseOfCanonical | app/research/service/url_validator.py:13-55 | a URL in canonical form is accepted or refused by its two names alone |
| UrlValidator.CanonicalRoundTripIff | app/research/service/orchestration.py:115-121 | parsing the canonical URL of an accepted target gives it back exactly if its repository does not still end in ".git" |
| UrlValidator.CanonicalReparse | app/research/service/pipeline.py:28 | what the worker parses instead when it does |
| UrlValidator.DoubleSuffixChangesTarget | app/research/service/url_validator.py:42-55 | such URLs exist for every owner and name |
| UrlValidator.CacheKeyInjective | app/research/service/orchestration.py:40-41 | on validated names, equal cache keys mean equal owner, repository and commit |
| Schema.SameKeySameCommit | app/research/service/pipeline.py:61-65 | contexts with the same key are of the same owner, repository and commit |
| UnsafeInstructions.ConsumeIff | app/research/service/context_sanitizer.py:27-29 | the matcher of one alternative finds a match at a place exactly if there is one |
| UnsafeInstructions.FirstMatchIff | app/research/service/context_sanitizer.py:27-29 | the alternatives in order find a match at a place exactly if one of them has one |
| Phrases.UnsafeIff | app/research/service/context_sanitizer.py:27-29 | what is a match, in any case of the letters: "ignore previous instructions" with white space between the words, "system prompt" with or without, and the three role names with a colon |
| Redaction.SubstituteReplaces | app/research/service/context_sanitizer.py:32-33 | every text is cut into kept pieces, in which no match starts, and matches of the first alternative that matches there; the result has the note for each match and is otherwise the text |
| Redaction.OnlyOneCut | app/research/service/context_sanitizer.py:32-33 | there is only one way to cut a text so, which fixes the result |
| UnsafeInstructions.SubstituteIsClean | app/research/service/context_sanitizer.py:32-33 | after the substitution no substring matches the blocked pattern |
| UnsafeInstructions.SubstituteFixesIff | app/research/service/context_sanitizer.py:32-33 | a text is unchanged by the substitution exactly if it holds no match |
| UnsafeInstructions.TruncationStaysClean | app/research/service/context_sanitizer.py:75-85 | any front of a clean text with the truncation note holds no match |
| UnsafeInstructions.PatternsRegular | app/research/service/context_sanitizer.py:27-29 | the five alternatives have the shape the results above need |
| PromptBounds.SanitizeStable | app/research/service/context_sanitizer.py:32-33 | sanitizing twice is sanitizing once |
| PromptBounds.PlainHeaderFills | app/research/service/context_sanitizer.py:66-73 | with a header without braces the template is filled as intended |
| PromptBounds.TemplateFaithfulIff | app/research/service/context_sanitizer.py:66-73 | the template is filled as intended exactly if the header holds no braces |
| PromptBounds.BracedHeaderFails | app/research/service/context_sanitizer.py:58-73 | a header that spoils the template exists |
| Templates.FormatIff | app/research/service/context_sanitizer.py:66-73 | formatting comes to a text exactly if the template is plain characters, doubled braces and the two fields, and these print the text |
| Templates.PromptRaisesIff | app/research/service/context_sanitizer.py:58-97 | building the prompt raises exactly if the template with the header in it is not of that form, whatever README and file list are |
| PromptContents.PromptHolds | app/research/service/context_sanitizer.py:66-97 | the prompt is header, README and file list in their places; if too long, the README loses what is too much and 64 characters more, down to 256, and then the list 32 more, down to 128 |
| PromptContents.HeaderLines | app/research/service/context_sanitizer.py:58-65 | the header, split into lines, tells URL, branch, commit, stars, forks and language |
| PromptContents.ReadmeIs | app/research/service/context_sanitizer.py:53 | the README in the prompt is the given one without the white space around it, its unsafe instructions replaced and the rest kept |
| PromptContents.FileListIs | app/research/service/context_sanitizer.py:44-56 | the file list has one line for each entry that is not blocked, with its name and kind, in order |
| PromptContents.BlockedIff | app/research/service/context_sanitizer.py:44-51 | an entry is blocked exactly if its name, in any ASCII case, is a blocked one or ends in a blocked suffix |
| PromptContents.PromptNames | app/research/service/context_sanitizer.py:99-106 | the payload names URL, commit and metadata of the context, and the key owner/repository@commit |
| PromptBounds.PromptBound | app/research/service/context_sanitizer.py:75-97 | the prompt is at most the larger of the budget and the frame plus 271 plus 143 characters |
| PromptBounds.PromptFitsIff | app/research/service/context_sanitizer.py:42-97 | the prompt meets the budget exactly if one of three lengths does |
| PromptBounds.ShownAndReported | app/research/service/context_sanitizer.py:75-97 | README and list are shown whole or as fronts of at least their floors with the note, and each cut, and nothing else, is warned of |
| PromptBounds.PromptCleanIff | app/research/service/context_sanitizer.py:53-97 | the prompt holds no match exactly if the parts around the README hold none |
| ContextSanitizer.FillToBudget | app/research/service/context_sanitizer.py:73-97 | the two conditional cuts compute the draft the bounds are about |
| ContextSanitizer.FilterEntries | app/research/service/context_sanitizer.py:44-51 | the loop keeps the entries that are not blocked, in order |
| ContextSanitizer.BuildPromptPayload | app/research/service/context_sanitizer.py:36-106 | the method computes the payload that all results above are about |
| DataPermission.UserRules | common/security/permission.py:62-66 | the rules of all roles, each once |
| DataPermission.FilterDataPermission | common/security/permission.py:51-135 | an error exactly if a user who is no superuser has a rule on an unknown model or column, and which of the two; otherwise, for every row and every order on column values, a row passes exactly if the user is a superuser, or no rule speaks, or there are AND rules and all admit it, or some OR rule admits it |
| DataPermission.ConditionMeaning | common/security/permission.py:94-119 | the condition built for a rule is true of a row exactly if the rule admits it: by expression number, what the column holds (NULL included), and the value or the comma-separated items of the rule |
| DataPermission.CombinedPassesIff | common/security/permission.py:128-135 | what the combined expression lets through, in terms of the two lists |
| DataPermission.RolesAsASet | common/security/permission.py:62-66 | reordering or repeating roles leaves the rules, and the rows that pass, the same |
| Pagination.EachRecordOnOnePage | common/pagination.py:29-33 | every record lies on exactly one page, and that is a counted one |
| Pagination.PagesCoverInOrder | common/pagination.py:29-71 | the counted pages one after the other are all records in order |
| Pagination.NextVisitsAllPages | common/pagination.py:72-81 | following next from the first link visits exactly the counted pages and ends at the last link |
| Pagination.PrevAndNext | common/pagination.py:79-82 | prev undoes next, and next undoes prev exactly on the counted pages |
| Pagination.NoNextIff | common/pagination.py:79-81 | a page has no next link exactly if no record lies beyond it |
| Pagination.PageReports | common/pagination.py:63-92 | a page reports its items, total, number and size and the least sufficient number of pages; for every page, first is page 1, last holds the last record, next is there exactly if records lie beyond, previous exactly from page 2 on, all with the same size |
| ServerInfo.FmtSeconds | utils/server_info.py:32-53 | for every whole number of seconds the printed text reads back as that number |
| ServerInfo.DistinctDurationsPrintDistinctly | utils/server_info.py:32-53 | different durations print differently |
| ServerInfo.PartsAddUp | utils/server_info.py:39-41 | days, hours, minutes and seconds by floored division add up to the duration, negative ones too |
| ServerInfo.PartsAreNormal | utils/server_info.py:39-51 | units from large to small, no part without an amount, hours below 24, minutes and seconds below 60 |
| ServerInfo.OneNormalForm | utils/server_info.py:39-51 | a duration has only one such form |
| ServerInfo.NoDuration | utils/server_info.py:53 | no duration is printed as zero seconds, not as nothing |

## Left out

- Wire behaviour of HTTP, GraphQL, the model, the queue service, SQLAlchemy and Redis: outcomes are the environment's choice, tables and caches are maps, and dumping and validating JSON changes nothing.
- Pipeline.ExecuteResearchPipeline: GitHub, the prompt builder and the model may fail here; that a read or write of the stores raises, or the process dies between two of them, is in the state machine, and every result over all runs allows for it.
- Worker.RunWorker: the endless loop is any number of turns, in which only this worker moves; other workers, crashes and lapses beside it are in the state machine.
- Submission.Submit: GitHub and the queue may fail here; failures of the stores are in the state machine, as for the pipeline. The job id is given, and not used before (a random UUID).
- Reads and writes inside one CRUD call: a call is one atomic step, so a column that keeps the value the session already loaded is taken from the row as it is at that step.
- MessageQueue.MessageQueue.Receive: the receive count is exact and messages are durable; several messages per request and malformed bodies are not modelled.
- Timestamps, latencies, logging, request ids and the text of the Markdown report, which is taken as a function of context, analysis and reason.
- Start-up of the queues and the queue-name helper.
- The texts of most exceptions: they are the environment's choice, and two stand for their kind.
- Titles and details of the problem responses, and that a malformed bracketed host makes the URL splitter itself raise.
- UrlValidator.UrlParse: only the parts the validator reads are split off (section 3 of RFC 3986), for the https scheme.
- Upper and lower case outside ASCII: lower-casing file names and the case-insensitive pattern go letter by letter, with the two non-ASCII letters that fold onto ASCII ones.
- BuildTree.TraversalToTree: equal ids, and rows that already have a "children" key, are excluded by its preconditions; with unique ids, comparing two node dictionaries comes down to identity.
- BuildTree.RecursiveToTree: likewise, and started off cycles only, since from a cycle the code does not return (`MenuForest.RecursionReturnsIff`).
- Values of menu columns other than id, parent id and sort: they are carried along.
- DataPermission.FilterDataPermission: how the database reads the text of a rule for a column, and how it orders column values, are parameters; importing a model is a lookup.
- Pagination.TotalPages: the ceiling is exact; the floating-point quotient of the code agrees with it for totals up to 2 to the power of 53.
- The byte formatter, which prints rounded floating-point numbers.
- Users, tokens, roles, operation logs, sockets, uploads, templates and migrations.
