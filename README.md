# Odyssey core, modelled in Dafny

Odyssey is a self-improving agent service. It proposes changes to its own code on a git branch, validates them in a sandbox, and merges them after approval. It keeps every step of that life cycle in a SQLite ledger (`self_modification_log`), and it offers its abilities as plugin tools that a planner can chain together. This project models the decision logic of that core and proves properties of it. It covers:

- **Memory (`Memory.MemoryManager`).** The `tasks`, `plans` and `logs` tables and the proposal ledger, held as sequences and a map with a logical clock. `log_proposal_step` is an upsert. The `ORDER BY ... DESC LIMIT` queries are a filter, a stable sort and a take (`Sorting`).
- **Proposal life cycle.**
  - The propose, approve and reject handlers (`Routes`) and the Celery validation and merge tasks (`Tasks`). Each is an ordered series of ledger writes.
  - Every task closes the connection it opened.
- **`SelfModifier` and `GitHubClient` decisions.**
  - Branch naming, checkout retries, merge outcomes and the sandbox verdict.
  - Pull-request retries and the CI-status aggregation.
- **`OllamaClient`.** The choice of instance and model, and the stream-chunk loop.
- **`ToolManager` and the plan tool.** The registry, dependency selection at discovery, and `execute_plan`.
- **The Chroma vector store.** The collection is an id → (text, metadata) map.
- **The plugin tools.** File operations over a modelled file system (`FileSystem`), read and write in the sandboxed directory, notes, random strings, web search, notifications, URL fetching and calendar events.
- **The API request and record schemas.** These are validity predicates (`Schemas`).

Every effect the code does not decide itself is a parameter of the model, such as an oracle function or a reply value. This covers:

- git, the GitHub API, the Celery broker, HTTP servers and the Google Calendar service;
- random choices and the clock.

A method that calls such a service returns the request it sent, so contracts can state what was asked of the outside world and when nothing was.

Two behaviours of the code as written are modelled faithfully:

- **Saved notes are never found.** `save_note` logs its rows at levels "NOTE" and "USER_NOTE". `log_event` stores both as "INFO", so `get_notes`, which asks for "USER_NOTE" rows, finds none (`SaveNoteTool.NotesStoredAsInfo`, `GetNotesTool.GetNotesTool.Execute`). The note round trip is still proved on the message format (`GetNotesTool.SaveThenParse`).
- **A failed merge can skip its error record.** When a merge fails and the proposal has no validation output, the error path evaluates `None + str` before it writes. The TypeError is swallowed, so no `merge_error` record is written (`Tasks.MergeErrorLostWithoutOutput`).

## Model

| member | source | states |
|---|---|---|
| Memory.NormaliseLevel | odyssey/agent/memory.py:221-226 | the stored level is always one of INFO, WARNING, ERROR, DEBUG, CRITICAL; it is the upper-cased level exactly when that is one of them, and INFO otherwise |
| Memory.UpsertCreates | odyssey/agent/memory.py:279-295 | the first write for a proposal id creates a record whose created_at equals its updated_at and whose other columns are the ones written, omitted ones null |
| Memory.UpsertOverwrites | odyssey/agent/memory.py:283-295 | a later write for the same id keeps proposal_id and created_at, moves updated_at to the write's time and overwrites every other column, clearing the omitted ones |
| Memory.ApplyStepsLast | odyssey/agent/memory.py:264-305 | after a series of writes the record of the last one written holds that write's status, validation output and approver, stamped with the last tick |
| Memory.ApplyStepsAppend | odyssey/agent/memory.py:264-305 | writing two series one after the other is writing their concatenation, the clock running on |
| Memory.ApplyStepsOthers | odyssey/agent/memory.py:287-293 | writes for other proposal ids leave a record unchanged (the upsert conflicts on proposal_id only) |
| Memory.InOrderCovers | odyssey/agent/memory.py:338-344 | the proposal rows read in insertion order are exactly the stored records, one per id |
| Memory.MemoryManager.constructor | odyssey/agent/memory.py:32-85 | a new manager has empty tasks, plans, logs and proposal tables, one open connection, and the vector store it was given (or none) |
| Memory.MemoryManager.Connect | odyssey/agent/memory.py:57 | opening a connection adds one open connection |
| Memory.MemoryManager.Close | odyssey/agent/memory.py:436-440 | closing drops one open connection, and closing with none open changes nothing |
| Memory.MemoryManager.AddTask | odyssey/agent/memory.py:132-147 | appends one row with a fresh id, the description, status 'pending' and the next timestamp, and returns its id |
| Memory.MemoryManager.GetTasks | odyssey/agent/memory.py:149-166 | returns only stored rows, only those with the filtered status when a filter is given, newest first, `limit` of them (all for a negative limit), no omitted matching row is newer than a returned one, and no stored row is returned more often than it is stored |
| Memory.MemoryManager.UpdateTaskStatus | odyssey/agent/memory.py:168-186 | returns true exactly when a task has the id, and then changes only that task's status; otherwise nothing changes |
| Memory.MemoryManager.AddPlan | odyssey/agent/memory.py:188-203 | appends one plan with a fresh id, the details and the next timestamp |
| Memory.MemoryManager.GetPlans | odyssey/agent/memory.py:205-214 | returns stored plans newest first, `limit` of them, none omitted that is newer than one returned, and none more often than it is stored |
| Memory.MemoryManager.LogEvent | odyssey/agent/memory.py:217-242 | appends one log row with the next id, the message, the normalised level and the next timestamp |
| Memory.MemoryManager.GetLogs | odyssey/agent/memory.py:244-261 | returns stored rows whose level is the upper-cased filter when one is given, newest first, `limit` of them, none omitted that is newer, and none more often than it is stored |
| Memory.MemoryManager.LogProposalStep | odyssey/agent/memory.py:264-305 | the proposal table afterwards is the upsert of the one step written, and the ledger stays well formed |
| Memory.MemoryManager.GetProposalLog | odyssey/agent/memory.py:307-328 | returns the stored record for a known id and None for an unknown one |
| Memory.MemoryManager.ListProposals | odyssey/agent/memory.py:330-347 | returns stored records by descending updated_at, `limit` of them, none omitted that was updated later than one returned, and no id twice |
| Memory.MemoryManager.AddSemanticMemoryEvent | odyssey/agent/memory.py:350-377 | with no vector store returns None; otherwise returns the document id (the given id, else a timestamp and random hex) exactly when the store added it, and the store then holds the text and metadata under that id |
| Memory.MemoryManager.SemanticSearch | odyssey/agent/memory.py:379-405 | with no vector store returns the one-element error list; otherwise returns the store's results one for one |
| Memory.NoRowsAtUnknownLevel | odyssey/agent/memory.py:221-226 | filtering the logs by a level that is not one of the five finds nothing, since every stored level is normalised |
| Sorting.SortDescProperties | odyssey/agent/memory.py:157 | the ORDER BY ... DESC model returns a permutation of its rows, sorted by descending key |
| Sorting.TakeLimit | odyssey/agent/memory.py:157 | LIMIT keeps a prefix: `limit` rows, or all of them for a negative or larger limit |
| Sorting.LatestProperties | odyssey/agent/memory.py:205-214 | the newest `limit` rows: drawn from the table without duplication, sorted by descending key, of the limited length, and no omitted row has a larger key |
| Sorting.QueryProperties | odyssey/agent/memory.py:149-163 | the filtered query returns only matching rows, sorted by descending key, of the limited length, no omitted match having a larger key |
| Memory.Upsert | odyssey/agent/memory.py:279-295 | one write adds its proposal id to the ledger and leaves every other record unchanged |
| Memory.ApplySteps | odyssey/agent/memory.py:264-305 | a series of writes never removes a proposal |
| Sorting.SubMultisetDistinct | odyssey/agent/memory.py:330-347 | rows drawn without duplication from a table with no repeated row repeat no row |
| Memory.DistinctIds | odyssey/agent/memory.py:330-347 | proposals drawn without duplication from the ledger's listing carry pairwise different ids |
| Sorting.InsertDescPerm | odyssey/agent/memory.py:157 | inserting a row into the ordered rows adds exactly that row |
| Sorting.InsertDescSorted | odyssey/agent/memory.py:157 | inserting a row into rows sorted by descending key keeps them sorted |
| Routes.Dispatch | odyssey/api/routes.py:516-557 | importing a task name tasks.py does not define fails with ImportError; a defined task is queued unless the broker raises, whose message is kept |
| Routes.DispatchFailsToImport | odyssey/api/routes.py:519 | neither run_sandbox_validation_task nor merge_approved_proposal_task is defined in tasks.py, so both dispatches fail to import |
| Routes.ProposalId | odyssey/api/routes.py:472 | the proposal id is "prop_" followed by the first 10 hex digits of the uuid, 15 characters in all |
| Routes.ProposalIdShape | odyssey/api/routes.py:472 | the 10 characters after "prop_" are hex digits |
| Routes.ProposeBranchFailure | odyssey/api/routes.py:486-499 | when branch creation raises, one record is written, proposal_failed under "{prefix or 'proposal'}_{id}_failed" with the error text, and the reply is a 500 |
| Routes.ProposeStatusMatchesLedger | odyssey/api/routes.py:502-570 | once the branch exists the ledger sees proposed and then validation_pending (task queued) or validation_error (otherwise); the reply's status is the last status written |
| Routes.ProposeEndsInValidationError | odyssey/api/routes.py:516-546 | since the validation task cannot be imported, every created proposal ends in validation_error with "Failed to trigger validation: Task not found." |
| Routes.ProposeCodeChange | odyssey/api/routes.py:461-570 | the handler writes exactly the ledger steps of the propose model and returns its reply |
| Routes.ProposeCreated | odyssey/api/routes.py:502-570 | after branch creation: writes proposed and then the dispatch step, and replies with the dispatch outcome |
| Routes.ProposeTrigger | odyssey/api/routes.py:516-570 | writes the one step for the dispatch outcome and replies with its status and message |
| Routes.ApprovableExactly | odyssey/api/routes.py:618 | a proposal may be approved exactly from validation_passed or merge_failed |
| Routes.ApproveRefused | odyssey/api/routes.py:609-625 | an unknown id gets a 404 and a status outside the approvable ones a 409 naming it; nothing is written |
| Routes.ApproveAccepted | odyssey/api/routes.py:626-682 | an approvable proposal gets user_approved by api_user with its validation output kept, then merge_pending (task queued, output kept) or merge_error, whose output is "Failed to trigger merge: Task not found." for a missing task or "Failed to trigger merge: " and the error text for a failed dispatch, and whose reply message says the merge could not be started or failed to start; the record and the reply end in that status |
| Routes.ReapproveAfterMergeFailed | odyssey/api/routes.py:618 | a proposal whose merge failed can be approved again |
| Routes.ApproveProposal | odyssey/api/routes.py:599-682 | the handler writes exactly the approve model's steps for the stored record and returns its reply |
| Routes.ApproveAccept | odyssey/api/routes.py:626-682 | for an approvable record: writes user_approved and the dispatch step, and returns the approve reply |
| Routes.ApproveTrigger | odyssey/api/routes.py:640-682 | writes the one step for the merge dispatch outcome and replies with its status and message |
| Routes.FinalExactly | odyssey/api/routes.py:698 | the statuses rejection leaves alone are exactly rejected and merged |
| Routes.RejectFromAnyOther | odyssey/api/routes.py:706-726 | from any other status the record becomes rejected with its branch, message, created_at and validation output kept and no approver, and the reply says rejected |
| Routes.RejectLeavesFinal | odyssey/api/routes.py:690-705 | an unknown id gets a 404; a rejected or merged proposal is left as it is and the reply gives its status |
| Routes.RejectIdempotent | odyssey/api/routes.py:697-705 | rejecting twice writes nothing the second time |
| Routes.RejectProposal | odyssey/api/routes.py:684-726 | the handler writes exactly the reject model's steps and returns its reply |
| Routes.UpdateAgentConfiguration | odyssey/api/routes.py:357-365 | a 400 "max_iterations must be positive." exactly when max_iterations is given and below 1; otherwise the update is echoed back |
| Tasks.ValidateCompletes | odyssey/agent/tasks.py:209-239 | a validation whose work completes writes validation_in_progress without output and then exactly one of validation_passed / validation_failed with its output, keeps the commit message, and returns that same status and output, in which the record ends |
| Tasks.ValidateInterrupted | odyssey/agent/tasks.py:241-250 | when the simulated work raises, the record ends in validation_error with "Task error: " and the message, and the task re-raises |
| Tasks.ValidateUnknown | odyssey/agent/tasks.py:210-212 | for an unknown proposal nothing is written and the task raises the TypeError of subscripting None |
| Tasks.ValidateProposalTask | odyssey/agent/tasks.py:181-254 | the task writes exactly the validation steps for the table it starts from, returns the validation result, and leaves the connection count as it was |
| Tasks.ValidateConnected | odyssey/agent/tasks.py:204-250 | the body between opening and closing the manager writes the validation steps and ends with the validation result |
| Tasks.RunValidation | odyssey/agent/tasks.py:209-239 | for a known record: writes validation_in_progress and then the outcome step |
| Tasks.FinishValidation | odyssey/agent/tasks.py:215-250 | after validation_in_progress: writes the outcome, or validation_error when the work raised and the id and branch are non-empty |
| Tasks.MergeCompletes | odyssey/agent/tasks.py:284-326 | a merge whose work completes writes merge_in_progress and then merged (exactly when the work passed) or merge_failed, keeping the commit message, approver and validation output, and returns that status |
| Tasks.MergeUnknown | odyssey/agent/tasks.py:287-289 | for an unknown proposal nothing is written and the task raises "Proposal ... not found for merge." |
| Tasks.MergeErrorLostWithoutOutput | odyssey/agent/tasks.py:330-339 | when the work raises and the record has no validation output, concatenating None raises inside the handler, so merge_error is never written and the record stays merge_in_progress |
| Tasks.MergeErrorRecorded | odyssey/agent/tasks.py:330-339 | when the work raises and the record has validation output, it ends in merge_error with " \| Merge task error: " and the message appended to that output |
| Tasks.MergeProposalTask | odyssey/agent/tasks.py:257-344 | the task writes exactly the merge steps for the table it starts from, returns the merge result, and leaves the connection count as it was |
| Tasks.MergeConnected | odyssey/agent/tasks.py:283-340 | the body between opening and closing the manager writes the merge steps and ends with the merge result |
| Tasks.RunMerge | odyssey/agent/tasks.py:291-326 | for a known record: writes merge_in_progress with the record's columns and then the outcome step |
| Tasks.FinishMerge | odyssey/agent/tasks.py:302-340 | after merge_in_progress: writes merged / merge_failed, or merge_error when the work raised and the record has validation output |
| Tasks.ExecuteToolResult | odyssey/agent/tasks.py:147-178 | an unknown tool raises ValueError; a dict result with a truthy "error" raises Exception; the task returns the tool's result exactly when the tool exists and reported no error |
| Tasks.ExecuteToolTask | odyssey/agent/tasks.py:91-178 | the task ends as the result function says and closes the manager it opened |
| Schemas.ReqStr | odyssey/api/schemas.py:30 | a required string field with a minimum length is accepted exactly when present, a string and long enough, and then is that string |
| Schemas.OptStrField | odyssey/api/schemas.py:39-40 | an optional string field takes its default when absent, None when null, the string when a string, and is refused otherwise |
| Schemas.OptIntField | odyssey/api/schemas.py:69 | an optional integer field takes its default when absent, None when null, is accepted exactly when null or laxly readable as an integer, and then holds that integer |
| Schemas.DigitsValueOfString | odyssey/api/schemas.py:69 | the decimal text of a natural number is all digits and reads back as the number |
| Schemas.LaxInt | odyssey/api/schemas.py:69 | Pydantic's lax integer reading accepts exactly an integer, a boolean (as 1 or 0) or an optionally signed digit string, whose sign decides the result's sign |
| Schemas.LaxIntOfText | odyssey/api/schemas.py:69 | an integer sent as its decimal text is read back as itself |
| Schemas.LaxBool | odyssey/api/schemas.py:70 | Pydantic's lax boolean reading accepts exactly a boolean, the integers 0 and 1, or one of the words 1/on/t/true/y/yes and 0/off/f/false/n/no in any case, reading true exactly for the first group |
| Schemas.LaxBoolWords | odyssey/api/schemas.py:70 | no word reads as both true and false, and upper- or lower-casing a string does not change its reading |
| Schemas.OptBoolField | odyssey/api/schemas.py:70 | an optional boolean field takes its default when absent, None when null, is accepted exactly when null or laxly readable as a boolean, and then holds that boolean |
| Schemas.OptObjField | odyssey/api/schemas.py:116 | an optional dict field is None when absent and is accepted exactly when null or an object |
| Schemas.StrList | odyssey/api/schemas.py:71 | a list of strings is accepted exactly when every item is a string, and keeps them in order |
| Schemas.StrMap | odyssey/api/schemas.py:178 | a dict of strings is accepted exactly when every value is a string, with the same keys and values |
| Schemas.ParseTaskCreate | odyssey/api/schemas.py:29-30 | a task request is valid exactly when its description is a non-empty string, which it keeps |
| Schemas.ParsePlanCreate | odyssey/api/schemas.py:44-45 | a plan request is valid exactly when its details are a non-empty string, which it keeps |
| Schemas.ParseLogCreate | odyssey/api/schemas.py:60-62 | a log request needs a non-empty message and a string level if one is given; the level is INFO by default |
| Schemas.ParseAgentConfig | odyssey/api/schemas.py:66-71 | a configuration is accepted exactly when every field it holds reads as its type, and keeps each field's reading; an empty body gives the defaults phi3, no remote model, 10 iterations, self healing on and ["file_ops"] |
| Schemas.OptStrListField | odyssey/api/schemas.py:71 | an optional list-of-strings field takes its default when absent, None when null, keeps a list of strings and refuses anything else |
| Schemas.AgentConfigRoundTrip | odyssey/api/schemas.py:66-71 | every configuration, serialised, validates back to itself |
| Schemas.ParseLLMAsk | odyssey/api/schemas.py:110-116 | an LLM request is accepted exactly when the prompt is a non-empty string and every optional field reads as its type, keeping each reading; model defaults to "auto", safe to true and stream to false |
| Schemas.LLMAskRoundTrip | odyssey/api/schemas.py:110-116 | every request with a non-empty prompt, serialised, validates back to itself |
| Schemas.ParseSimulateLongTask | odyssey/api/schemas.py:130-132 | a long-task request is accepted exactly when the duration is present, laxly an integer and at least 1, and the message reads as an optional string; both are kept and the message defaults to "Simulating work" |
| Schemas.SimulateLongTaskRoundTrip | odyssey/api/schemas.py:130-132 | every request of at least one second, serialised, validates back to itself |
| Schemas.ParseSemanticAdd | odyssey/api/schemas.py:148-151 | a semantic add request is accepted exactly when the text is a non-empty string, the metadata absent or a dict and the id an optional string; the metadata defaults to an empty dict and the rest is kept |
| Schemas.SemanticAddRoundTrip | odyssey/api/schemas.py:148-151 | every request with non-empty text, serialised, validates back to itself |
| Schemas.ParseSemanticQuery | odyssey/api/schemas.py:157-160 | a semantic query is accepted exactly when the text is a non-empty string, top_k reads as an optional integer that is positive when given, and the filter as an optional dict; top_k defaults to 5 and the readings are kept |
| Schemas.SemanticQueryRoundTrip | odyssey/api/schemas.py:157-160 | every valid query, serialised, validates back to itself |
| Schemas.ParseProposeChange | odyssey/api/schemas.py:177-180 | a change proposal is valid exactly when files_content is a dict of strings, the commit message has at least 5 characters and the branch prefix is absent, null or a string |
| Schemas.ProposeChangeRoundTrip | odyssey/api/schemas.py:177-180 | every valid proposal request, serialised, validates back to itself |
| Schemas.ProposalStatusObj | odyssey/api/schemas.py:188-196 | a stored proposal's row has exactly the response schema's eight fields, the optional ones null when absent |
| Schemas.ParseProposalStatus | odyssey/api/schemas.py:188-196 | a status response needs every column except validation_output and approved_by |
| Schemas.ProposalStatusRoundTrip | odyssey/api/schemas.py:188-196 | every stored proposal record reads back through the response schema unchanged |
| SelfModifier.Answer | odyssey/agent/self_modifier.py:41-63 | a git run that exits is answered with its own code; git not found answers -1 and any other failure -2 |
| SelfModifier.Raising | odyssey/agent/self_modifier.py:49-63 | with raise_on_error the call returns exactly when git exits with 0; a non-zero exit raises CalledProcessError, a missing git FileNotFoundError and any other failure its own exception |
| SelfModifier.CheckoutCommand | odyssey/agent/self_modifier.py:78-82 | a plain checkout is `checkout <branch>`; creating adds `-b` and the base branch when one is given |
| SelfModifier.AlreadyThereStripped | odyssey/agent/self_modifier.py:53 | looking for "already exists" / "already on" in the stripped output is the same as in the raw output |
| SelfModifier.SanitiseSlugChars | odyssey/agent/self_modifier.py:123-124 | the sanitised commit message is no longer than the message and holds only lower-case alphanumerics and '-' |
| SelfModifier.SignalName | odyssey/agent/self_modifier.py:52 | `signal.Signals` names exactly the Linux signals 1 to 31, 34 and 64, SIGKILL being 9 and SIGTERM 15 |
| SelfModifier.KilledMessage | odyssey/agent/self_modifier.py:52 | the CalledProcessError of a git killed by SIGKILL (exit status -9) reads "Command '[...]' died with <Signals.SIGKILL: 9>." |
| SelfModifier.UnknownSignalMessage | odyssey/agent/self_modifier.py:52 | a negative exit status naming no known signal reads "Command '[...]' died with unknown signal N." |
| SelfModifier.Slug | odyssey/agent/self_modifier.py:123-124 | the branch slug has at most 30 characters, all alphanumerics or '-', and is a prefix of the sanitised message |
| SelfModifier.TargetBranch | odyssey/agent/self_modifier.py:120-125 | a given branch name is used as is; otherwise "{prefix or 'proposal'}/{id or random hex}_{slug}" |
| SelfModifier.SlugPartFixed | odyssey/agent/self_modifier.py:123-124 | a character that may appear in a slug is kept unchanged |
| SelfModifier.SanitiseFixed | odyssey/agent/self_modifier.py:123-124 | sanitising a string made of slug characters leaves it unchanged |
| SelfModifier.SlugIdempotent | odyssey/agent/self_modifier.py:123-124 | the slug of a slug is itself |
| SelfModifier.SanitiseWords | odyssey/agent/self_modifier.py:123-124 | on alphanumerics, spaces and slashes sanitising keeps the length and maps each character to its lower case, with ' ', '/' and '\\' becoming '-' |
| SelfModifier.PassingOutput | odyssey/agent/self_modifier.py:362 | the sandbox verdict passes only when the test script exited with 0 and its output mentions neither "Tests failed" nor "Error" (odyssey/agent/sandbox.py:30-45 produces the text) |
| SelfModifier.WriteAllKeys | odyssey/agent/self_modifier.py:139-144 | writing the files adds exactly their paths to the working tree |
| SelfModifier.WriteAllLast | odyssey/agent/self_modifier.py:139-144 | a path ends with the content of its last write |
| SelfModifier.WriteAllOther | odyssey/agent/self_modifier.py:139-144 | a path not written keeps its content, or stays absent |
| SelfModifier.Adds | odyssey/agent/self_modifier.py:146 | staging issues one `git add` per file, in order |
| SelfModifier.Repository.constructor | odyssey/agent/self_modifier.py:11-35 | a new instance has issued no git command and holds the repository, sandbox and test-script facts it was given |
| SelfModifier.Repository.MergeTrace | odyssey/agent/self_modifier.py:197-250 | a merge starts by checking out the target and ends by returning to the original branch; it pushes exactly when the checkout and the merge succeed, and aborts exactly when the checkout succeeds and the merge fails |
| SelfModifier.Repository.StagedNext | odyssey/agent/self_modifier.py:139-146 | staging one more file that git adds successfully extends the staged prefix |
| SelfModifier.Repository.RunGit | odyssey/agent/self_modifier.py:37-63 | outside a repository answers ("", "Not a git repository", 1) and runs nothing; otherwise runs exactly the command and answers, or raises, as git's run says |
| SelfModifier.Repository.CheckoutBranch | odyssey/agent/self_modifier.py:65-95 | a plain checkout succeeds exactly when git does; creating falls back to a plain checkout only when git says the branch already exists or is already on it |
| SelfModifier.Repository.SwitchTo | odyssey/agent/self_modifier.py:129-134 | tries `checkout -b` from the current branch, and a plain checkout when that fails, issuing at most three commands; it issues exactly SwitchTrace and succeeds exactly when the last of them exits with 0 |
| SelfModifier.Repository.StageFiles | odyssey/agent/self_modifier.py:139-151 | writes and adds the files in order; on the first failed add it returns to the original branch and raises "Error processing file <path>: " with the add's error, with only the files up to it written; its error is exactly the file loop's (StageError) |
| SelfModifier.Repository.StageOne | odyssey/agent/self_modifier.py:140-151 | writes one file and adds it; a failed add is followed by a checkout of the original branch and the error |
| SelfModifier.Repository.Publish | odyssey/agent/self_modifier.py:154-176 | commits and pushes with --force-with-lease; it raises nothing exactly when both succeed, else the failed commit's or push's CalledProcessError (PublishError); success returns to the original branch |
| SelfModifier.Repository.ProposeCodeChanges | odyssey/agent/self_modifier.py:97-179 | refuses a non-repository and an unreadable current branch; otherwise its result is OnBranchResult for the stripped current branch and the target branch: the branch name with every file written, staged, committed and pushed, or the exception of the first failing step |
| SelfModifier.Repository.ProposeFromHead | odyssey/agent/self_modifier.py:115-179 | an unreadable current branch raises "Error getting current branch: <stdout>" after one rev-parse; otherwise the result is OnBranchResult for the stripped current branch |
| SelfModifier.Repository.ProposeOnBranch | odyssey/agent/self_modifier.py:129-179 | the result is OnBranchResult: a failed switch raises "Error creating or switching to branch '...'."; otherwise the branch name exactly when every add, the commit and the push succeed, else the first failure's exception; success leaves every file written |
| SelfModifier.Repository.StageAndPublish | odyssey/agent/self_modifier.py:137-179 | raises nothing exactly when every add, the commit and the push succeed (WouldPublish), every file then written and the commands those of Published; otherwise the error is StageAndPublishError |
| SelfModifier.Repository.SwitchTrace | odyssey/agent/self_modifier.py:129-134 | the switch issues `checkout -b` and then at most two plain checkouts of the target branch |
| SelfModifier.Repository.StageErrorNone | odyssey/agent/self_modifier.py:139-151 | the file loop raises nothing exactly when every add exits with 0 |
| SelfModifier.Repository.StageErrorFirst | odyssey/agent/self_modifier.py:139-151 | when every add before a file succeeds and that file's add fails, the loop raises "Error processing file <path>: " followed by that add's CalledProcessError text, naming that file and no later one |
| SelfModifier.Repository.PublishError | odyssey/agent/self_modifier.py:154-172 | the commit and push raise nothing exactly when both exit with 0 |
| SelfModifier.Repository.StageAndPublishErrorNone | odyssey/agent/self_modifier.py:137-179 | nothing is raised exactly when every add, the commit and the push succeed |
| SelfModifier.Repository.OnBranchSucceeds | odyssey/agent/self_modifier.py:129-179 | the proposal returns the branch name exactly when the switch and every later step succeed, and a failed switch raises "Error creating or switching to branch '...'." |
| SelfModifier.Repository.PushMerged | odyssey/agent/self_modifier.py:221-246 | the merge is reported successful exactly when the push of the target succeeds, after which the branch is deleted when asked; a failed push returns "Local merge successful, but failed to push ..." with git's error, a good one "Successfully merged ..." |
| SelfModifier.Repository.MergeMessageSuccess | odyssey/agent/self_modifier.py:199-246 | the message of a merge starts as the success message exactly when the checkout, the merge and the push all succeeded |
| SelfModifier.Repository.MergeOnTarget | odyssey/agent/self_modifier.py:204-246 | pulls the target and merges with --no-ff; a failed merge is aborted and reported with git's error, a failed push is reported with its own, and success exactly when the merge and the push succeed |
| SelfModifier.Repository.MergeSteps | odyssey/agent/self_modifier.py:197-246 | a failed checkout of the target is reported; otherwise the pull, merge and push follow; success exactly when checkout, merge and push succeed, and the message names the first failed step or reports the merge done |
| SelfModifier.Repository.MergeReturning | odyssey/agent/self_modifier.py:197-250 | issues exactly the merge trace, including the return to the original branch, and succeeds exactly when the merge does, with the message of the first failed step or of success |
| SelfModifier.Repository.MergeBranch | odyssey/agent/self_modifier.py:181-250 | refuses a non-repository and an unreadable current branch; otherwise issues the merge trace from the current branch and succeeds exactly when checkout, merge and push all do, with the message of the first failed step or of success |
| SelfModifier.Repository.SandboxSteps | odyssey/agent/self_modifier.py:328-373 | fetches, checks out and pulls the branch; passes exactly when all three succeed, the test script exists and the output passes |
| SelfModifier.Repository.SandboxTest | odyssey/agent/self_modifier.py:312-377 | without a sandbox returns false; the test passes exactly when the current branch is read, fetch, checkout and pull succeed, the script exists and the output passes; the original branch is always checked out again |
| GithubClient.NewClient | odyssey/agent/github_client.py:14-38 | a client is built exactly when a truthy token and repository name come from the arguments or the environment and connecting raises nothing; a missing token or name raises its ValueError; a failed connection raises ValueError with the data's message as `dict.get` reads it (kept even when empty, "Unknown error" when absent) or the other exception's text |
| GithubClient.ConnectFailure | odyssey/agent/github_client.py:32-37 | a GithubException gives "Failed to initialize GitHub client: " and its data's message, or "Unknown error" when the key is absent; any other exception gives "An unexpected error occurred: " and its text |
| GithubClient.CreatePullRequest | odyssey/agent/github_client.py:40-91 | at least one and at most retry_attempts + 1 create calls are made |
| GithubClient.CreatePullRequestRetries | odyssey/agent/github_client.py:56-91 | every call but the last was answered with a 500/502/503/504, the last is not retried (no such error, or the budget is spent), and the URL is the new pull request's, the existing one's for a 422 "already exists", or None |
| GithubClient.FailedRunUrl | odyssey/agent/github_client.py:185-191 | a reported run URL is the URL of one of the suite's runs |
| GithubClient.ScannedSnoc | odyssey/agent/github_client.py:172-209 | scanning one more suite is one more turn of the loop, unless a failure has already stopped it |
| GithubClient.ScannedStops | odyssey/agent/github_client.py:191 | once a failed suite has been seen, the later suites change nothing (the loop breaks) |
| GithubClient.FirstFailureDecides | odyssey/agent/github_client.py:180-191 | the first suite concluding "failure" makes the verdict ("failure", "failure") with its first failed run's URL |
| GithubClient.NoFailureScan | odyssey/agent/github_client.py:193-204 | without a failed suite the scan records whether some suite needs action and whether some is still active, and an action_required verdict is kept |
| GithubClient.QuietScan | odyssey/agent/github_client.py:162-209 | with every suite completed and none failed or needing action, the status is "failure" exactly when some conclusion lies outside success, neutral and skipped, and "success" otherwise |
| GithubClient.VerdictPriority | odyssey/agent/github_client.py:158-218 | a failed suite wins; otherwise action_required; otherwise an active suite gives ("pending", "pending_active_checks"); otherwise failure or success by the conclusions |
| GithubClient.FirstFailedRun | odyssey/agent/github_client.py:185-191 | the inner loop finds the URL of the first run concluding "failure" |
| GithubClient.AggregateSuites | odyssey/agent/github_client.py:158-218 | the suite loop ends with the verdict of the suites and the failed run's URL, else the pull request's |
| GithubClient.GetPrCiStatus | odyssey/agent/github_client.py:112-228 | raises ValueError exactly when neither a pull request number nor a SHA is given; an API error gives ("unknown", "api_error_<status>"); no SHA gives "Could not determine SHA"; no suites give merge_conflict for a dirty and computation_pending for an unknown mergeable state, else no_check_suites; otherwise the suites' verdict |
| ToolManagement.ToolInterfaceInit | odyssey/agent/tool_manager.py:30-38 | a tool may be created exactly when its name and description are non-empty; otherwise NotImplementedError names the missing attribute, the name checked first |
| ToolManagement.DefaultSchema | odyssey/agent/tool_manager.py:59-92 | the base schema has exactly the keys name, description and parameters |
| ToolManagement.DefaultSchemaRegistrable | odyssey/agent/tool_manager.py:135-158 | a tool that could be created and keeps the base schema passes register's schema check |
| ToolManagement.Names | odyssey/agent/tool_manager.py:241 | the registered names as a list, one for one and in order |
| ToolManagement.NotFound | odyssey/agent/tool_manager.py:238-242 | an unknown tool gets an error dict with the message "Tool '...' not found." and the registered names, "None" exactly when there are none |
| ToolManagement.Failure | odyssey/agent/tool_manager.py:253-255 | a tool that raises gets an error dict whose details are "Type: message" |
| ToolManagement.ExecuteCases | odyssey/agent/tool_manager.py:237-255 | execute returns a registered tool's result unchanged, turns its exception into the failure dict, and answers an unknown name with the not-found dict; only an unknown name (or a tool's own result) carries available_tools |
| ToolManagement.Injected | odyssey/agent/tool_manager.py:198-203 | only offered dependencies are injected |
| ToolManagement.SelectDependencies | odyssey/agent/tool_manager.py:196-209 | a class is skipped exactly when some constructor parameter other than self is neither offered nor defaulted; otherwise every offered parameter it declares is injected under its name |
| ToolManagement.DefaultsKept | odyssey/agent/tool_manager.py:200-206 | a defaulted parameter that is not offered keeps its default and never causes a skip (the celery_app_instance of odyssey/plugins/schedule_task_tool.py:27 stays None) |
| ToolManagement.RequiredInjected | odyssey/agent/tool_manager.py:200-206 | in a class that is not skipped every required parameter is injected with the offered service |
| ToolManagement.Offered | odyssey/agent/tool_manager.py:120-130 | memory_manager, ollama_client, celery_app and settings are offered exactly when supplied, and tool_manager always, as the manager itself |
| ToolManagement.ManagerAlwaysInjected | odyssey/agent/tool_manager.py:120-130 | a plugin asking for tool_manager always gets the manager |
| ToolManagement.ToolManager.constructor | odyssey/agent/tool_manager.py:101-133 | a new manager has an empty registry and offers the dependencies for the services supplied |
| ToolManagement.ToolManager.Register | odyssey/agent/tool_manager.py:135-158 | registers exactly a ToolInterface instance whose schema is a dict with truthy name and description and a parameters key; the tool is keyed by its own name, replacing an earlier entry; a refused one changes nothing |
| ToolManagement.ToolManager.Unregister | odyssey/agent/tool_manager.py:228-235 | returns true exactly when the name was registered, and removes exactly that entry |
| ToolManagement.ToolManager.ListTools | odyssey/agent/tool_manager.py:257-258 | lists each registered name exactly once |
| ToolManagement.ToolManager.GetToolSchema | odyssey/agent/tool_manager.py:260-269 | a registered tool's schema is returned, with its parameters key, and an unknown name gets None |
| ToolManagement.ToolManager.GetAllToolSchemas | odyssey/agent/tool_manager.py:271-278 | one schema per registered tool, in registration order |
| ToolManagement.ToolManager.RegisterDiscovered | odyssey/agent/tool_manager.py:196-219 | a discovered class is registered exactly when no required dependency is missing, its constructor succeeds with the injected ones and the instance passes the schema check; otherwise the registry is unchanged |
| ToolManagement.Without | odyssey/agent/tool_manager.py:231 | deleting a key keeps the others in order and only them |
| ToolManagement.RegisterThenExecute | odyssey/agent/tool_manager.py:146-255 | executing a tool just registered runs it; after unregistering it the same call reports it missing |
| ExecutePlan.PlanSchema | odyssey/plugins/execute_plan_tool.py:123-150 | the tool's schema has exactly the keys name, description and parameters |
| ExecutePlan.PlanToolRegistrable | odyssey/plugins/execute_plan_tool.py:16-37 | the tool passes ToolInterface's name and description check and register's schema check |
| ExecutePlan.Discoverable | odyssey/plugins/execute_plan_tool.py:21-36 | discovery always injects the manager (and the settings exactly when supplied), so the missing-manager ValueError cannot arise through discovery |
| ExecutePlan.ExecutePlanTool.constructor | odyssey/plugins/execute_plan_tool.py:21-37 | the tool keeps the manager it was given |
| ExecutePlan.ExecutePlanTool.Execute | odyssey/plugins/execute_plan_tool.py:39-120 | returns or raises exactly what the plan result function gives for the manager's registry |
| ExecutePlan.RunSteps | odyssey/plugins/execute_plan_tool.py:69-118 | the loop collects the step results in order and stops at the first step that raises |
| ExecutePlan.NewExecutePlanTool | odyssey/plugins/execute_plan_tool.py:31-36 | construction raises ValueError exactly when no manager is given |
| ExecutePlan.ErrorEntry | odyssey/plugins/execute_plan_tool.py:77-97 | a malformed step's entry has step i+1, its tool name, status "error" and the message |
| ExecutePlan.OutcomeEntry | odyssey/plugins/execute_plan_tool.py:104-108 | an executed step's entry is the tool's outcome with step and tool_name added, the outcome's own keys winning |
| ExecutePlan.StepResult | odyssey/plugins/execute_plan_tool.py:72-108 | a non-dict step raises at step.get; a dict step yields an entry with step and tool_name, well formed exactly when it has tool_name and dict parameters, and a malformed one is an error entry numbered i+1 |
| ExecutePlan.StepResults | odyssey/plugins/execute_plan_tool.py:72 | one result per step, in order |
| ExecutePlan.Collect | odyssey/plugins/execute_plan_tool.py:69-118 | a collection that does not raise has one entry per step |
| ExecutePlan.CollectNext | odyssey/plugins/execute_plan_tool.py:72-108 | one more turn appends the step's entry and lowers the overall flag on a malformed step |
| ExecutePlan.CollectStops | odyssey/plugins/execute_plan_tool.py:72-108 | once a step raises, later steps change nothing |
| ExecutePlan.CollectEntries | odyssey/plugins/execute_plan_tool.py:69-118 | the loop finishes exactly when no step raises; the entries are then the steps' own, in order, and the flag is true exactly when every step was well formed |
| ExecutePlan.CollectRaises | odyssey/plugins/execute_plan_tool.py:69-118 | a raising loop carries the exception of its first raising step |
| ExecutePlan.PlanEntries | odyssey/plugins/execute_plan_tool.py:62-120 | a list of steps yields one entry per step in input order, numbered i+1, with status success exactly when every step was well formed and partial_failure otherwise; a tool-level error does not change the status |
| ExecutePlan.PlanFirstRaise | odyssey/plugins/execute_plan_tool.py:72-108 | when execute raises, it is with the exception of the first raising step, all steps before it being fine |
| ExecutePlan.PlanBoundaries | odyssey/plugins/execute_plan_tool.py:62-120 | an empty plan succeeds with no entries; a string or dict gets the "Must be a list" error; a value without len() raises before that check |
| OllamaClient.AvailableModels | odyssey/agent/ollama_client.py:62-90 | an instance without a URL, or whose model-list request failed, has no models |
| OllamaClient.NewClient | odyssey/agent/ollama_client.py:29-60 | raises ValueError exactly for an empty local URL; otherwise the local URL is the given one with its trailing '/' characters stripped, and so is the remote one when a non-empty one is given; without a remote URL there are no remote models; the default model is kept |
| OllamaClient.Targets | odyssey/agent/ollama_client.py:109-126 | every target has a URL and a non-empty model list |
| OllamaClient.TargetsOrder | odyssey/agent/ollama_client.py:109-126 | the targets are the instances with models, local before remote when safe and remote before local otherwise; without a remote URL only local |
| OllamaClient.FirstExact | odyssey/agent/ollama_client.py:134-139 | finds the first target from i on that holds the exact name, and none is skipped that holds it |
| OllamaClient.FirstBase | odyssey/agent/ollama_client.py:141-148 | finds the first target from i on with a model of the same base name, and none is skipped that has one |
| OllamaClient.FirstBaseModel | odyssey/agent/ollama_client.py:143-148 | finds the first model from j on whose name before ':' is the base name |
| OllamaClient.BuildTargets | odyssey/agent/ollama_client.py:109-126 | the appends build exactly the preference-ordered target list |
| OllamaClient.ExactPass | odyssey/agent/ollama_client.py:134-139 | the exact-name loop finds the first target holding the model |
| OllamaClient.BaseModel | odyssey/agent/ollama_client.py:143-148 | the inner loop finds the first model with the base name |
| OllamaClient.BasePass | odyssey/agent/ollama_client.py:141-148 | the base-name loops find a match exactly when one exists, on the first target that has one |
| OllamaClient.ChooseInstanceAndModel | odyssey/agent/ollama_client.py:92-158 | the method returns what the selection function states |
| OllamaClient.ExactFirst | odyssey/agent/ollama_client.py:104-139 | an exact name ('auto' meaning the default model) on any target beats every base-name match, on the most preferred target that has it |
| OllamaClient.BaseNameMatch | odyssey/agent/ollama_client.py:141-148 | without an exact match, a base-name match returns the installed model's full name, of the same base, on the first target that has one |
| OllamaClient.NothingChosen | odyssey/agent/ollama_client.py:129-158 | no target, or no match for a request other than 'auto', selects nothing |
| OllamaClient.AutoFallback | odyssey/agent/ollama_client.py:150-155 | 'auto' with no match falls back to the first model of the most preferred target |
| OllamaClient.StreamedInOrder | odyssey/agent/ollama_client.py:328-339 | before a chunk with done set, the generator yields every chunk's response in order and skips empty and undecodable lines |
| OllamaClient.StreamedStops | odyssey/agent/ollama_client.py:333-336 | the generator stops after the first chunk with done set, having yielded that chunk's response |
| OllamaClient.StreamResponseGenerator | odyssey/agent/ollama_client.py:323-341 | the loop with its break yields exactly the streamed text |
| OllamaClient.Generate | odyssey/agent/ollama_client.py:223-279 | an error text exactly when the request failed (timeout, request error, bad JSON, anything else); for a reply, the streamed text when streaming and the "response" field, or "", otherwise |
| OllamaClient.Ask | odyssey/agent/ollama_client.py:160-321 | with no instance or model the answer is (None, None, "Error: Could not find suitable Ollama instance/model ..."); otherwise it reports the chosen instance type and model and the text the generate request gives |
| VectorStore.KeptIds | odyssey/agent/vector_store.py:152-161 | one id per kept document: its own truthy id, else a fresh UUID |
| VectorStore.KeptEntries | odyssey/agent/vector_store.py:152-161 | one stored text and metadata (default {}) per kept document |
| VectorStore.AddAll | odyssey/agent/vector_store.py:167-173 | adding puts every id in the collection and leaves the other entries alone, a later duplicate id overwriting an earlier one |
| VectorStore.DeleteFrom | odyssey/agent/vector_store.py:230 | deleting by ids removes exactly those ids; without ids it removes exactly the entries whose metadata matches the filter; surviving entries are unchanged |
| VectorStore.HitAt | odyssey/agent/vector_store.py:207-214 | the i-th result carries the i-th id of the first row |
| VectorStore.QueryResultsShape | odyssey/agent/vector_store.py:181-219 | top_k of 0 or less, or a failing query, gives []; otherwise one result per id of the first row, in order |
| VectorStore.ChromaVectorStore.constructor | odyssey/agent/vector_store.py:87-145 | a new store's collection is empty |
| VectorStore.ChromaVectorStore.AddDocuments | odyssey/agent/vector_store.py:147-179 | with no kept document returns [] without touching the collection; a failing add raises and changes nothing; otherwise returns the kept ids in order and the collection gains their entries |
| VectorStore.ChromaVectorStore.QuerySimilarDocuments | odyssey/agent/vector_store.py:181-219 | returns the formatted results of the collection's answer, [] without querying for top_k of 0 or less, and [] on any failure |
| VectorStore.ChromaVectorStore.DeleteDocuments | odyssey/agent/vector_store.py:221-235 | raises ValueError and changes nothing when neither ids nor a filter is given; otherwise deletes as the collection does |
| VectorStore.ChromaVectorStore.GetCollectionCount | odyssey/agent/vector_store.py:237-241 | the count is the number of stored ids |
| VectorStore.AddGrowsCount | odyssey/agent/vector_store.py:167-175 | adding grows the count by the number of ids not yet present |
| VectorStore.DeleteShrinksCount | odyssey/agent/vector_store.py:221-230 | deleting by ids shrinks the count by the number of those ids present |
| FileSystem.Dirname | odyssey/plugins/file_ops.py:54 | the parent of a non-root path is that path without its last component |
| FileSystem.SplitSlash | odyssey/plugins/file_ops.py:28 | splitting on '/' gives at least one part, none holding '/' |
| FileSystem.Basename | odyssey/plugins/read_file_tool.py:54 | the base name holds no '/' |
| FileSystem.BasenameSuffix | odyssey/plugins/read_file_tool.py:54 | the base name is a suffix of the name |
| FileSystem.Normalize | odyssey/plugins/file_ops.py:28 | normpath of clean components gives a clean path: no ".", "..", empty or slash-holding component |
| FileSystem.NormalizePlain | odyssey/plugins/file_ops.py:28 | normalising components with no '.', '..' or empty part appends them unchanged |
| FileSystem.AbsJoin | odyssey/plugins/file_ops.py:28 | joining onto the base and normalising gives a clean absolute path |
| FileSystem.MakeDirsSucceeds | odyssey/plugins/file_ops.py:54 | os.makedirs with exist_ok succeeds exactly when no prefix of the path is a regular file |
| FileSystem.MakeDirsResult | odyssey/plugins/file_ops.py:54 | after makedirs the path is a directory, the tree stays well formed, every existing entry is kept and only prefixes of the path are added |
| FileSystem.Universal | odyssey/plugins/file_ops.py:37 | text mode reads "\r\n" and a lone "\r" as "\n": the result holds no "\r", is no longer than the file, and is the file itself when it holds no "\r" |
| FileSystem.UniversalKeepsBreaks | odyssey/plugins/read_file_tool.py:98 | the translation keeps the number of line breaks, "\r\n" counting as one |
| FileSystem.Disk.constructor | odyssey/plugins/file_ops.py:7-23 | a new disk holds only the root directory |
| FileOps.Resolve | odyssey/plugins/file_ops.py:25-31 | a resolved path is clean and absolute |
| FileOps.ResolveWithin | odyssey/plugins/file_ops.py:25-31 | a path resolves exactly when its normalised join lies within the base, and then lies within it; otherwise ValueError "Path ... is outside the allowed base directory ..." |
| FileOps.ResolveRelative | odyssey/plugins/file_ops.py:25-31 | a relative path of plain components resolves to the base followed by them |
| FileOps.ResolveAbsolute | odyssey/plugins/file_ops.py:28 | an absolute argument replaces the base: the join no longer depends on it |
| FileOps.TraversalRejected | odyssey/plugins/file_ops.py:25-31 | "../../name" is refused with ValueError when it leaves the base |
| FileOps.UpUpNormal | odyssey/plugins/file_ops.py:28 | "../../name" resolves to the grandparent of the base followed by name |
| FileOps.WriteSucceeds | odyssey/plugins/file_ops.py:47-57 | a successful write lies within the base, found the path absent or had overwrite set, leaves the file holding the content with its directory created, and changes no other entry |
| FileOps.WriteRefusesExisting | odyssey/plugins/file_ops.py:51-52 | an existing path without overwrite gets "already exists" and nothing changes |
| FileOps.WriteKeepsTree | odyssey/plugins/file_ops.py:47-61 | every write, successful or not, leaves a well-formed tree |
| FileOps.WriteNullContent | odyssey/plugins/file_ops.py:55-61 | writing a null content to a new path answers "Error writing file '...': write() argument must be str, not None" and leaves the file empty |
| FileOps.WriteThenRead | odyssey/plugins/file_ops.py:33-57 | reading a path just written returns the written content with its line breaks read as "\n" (universal newlines) |
| FileOps.DeleteSpec | odyssey/plugins/file_ops.py:63-74 | a delete succeeds exactly on a regular file within the base and then removes only it; otherwise nothing changes |
| FileOps.RemoveFile | odyssey/plugins/file_ops.py:69 | removing a regular file leaves a well-formed tree |
| FileOps.DeleteThenRead | odyssey/plugins/file_ops.py:33-70 | reading a path just deleted gives "Error: File not found at ..." |
| FileOps.MoveNeedsSource | odyssey/plugins/file_ops.py:100-101 | a missing source gets "Error: Source ... not found." and nothing changes |
| FileOps.ShutilMoveTree | odyssey/plugins/file_ops.py:104 | a successful shutil.move leaves a well-formed tree |
| FileOps.MoveIntoItselfNamesDestination | odyssey/plugins/file_ops.py:104 | moving a directory into one of its own subdirectories raises shutil.Error naming the source and the destination as given |
| FileOps.MoveKeepsTree | odyssey/plugins/file_ops.py:94-109 | every move, successful or not, leaves a well-formed tree |
| FileOps.MoveThenRead | odyssey/plugins/file_ops.py:94-105 | after moving a file onto a path that is not a directory, reading the destination gives the source's content (line breaks read as "\n"), and the source is gone |
| FileOps.MovedEffect | odyssey/plugins/file_ops.py:103-105 | a successful move is makedirs of the destination's parent followed by shutil.move |
| FileOps.MoveErrorsStartWithE | odyssey/plugins/file_ops.py:100-109 | every failing move reports a message starting with "Error" |
| FileOps.RelocatedApart | odyssey/plugins/file_ops.py:104 | moving a file to a distinct non-directory path puts its content there and removes the source |
| FileOps.MovedSourceGone | odyssey/plugins/file_ops.py:104 | after the move the source path is gone while its parent directories remain |
| FileOps.RelocateTree | odyssey/plugins/file_ops.py:104 | moving a file or a directory with its contents to a new path leaves a well-formed tree |
| FileOps.Entries | odyssey/plugins/file_ops.py:84-87 | one entry per listed name, in order |
| FileOps.ListingCount | odyssey/plugins/file_ops.py:76-88 | the listing has one entry per child of the directory, each reported with its name, type and path |
| FileOps.WriteThenList | odyssey/plugins/file_ops.py:47-88 | a file just written at the top level appears in the base's listing as a file |
| FileOps.BaseFor | odyssey/plugins/file_ops.py:13-22 | the base directory is a clean absolute path |
| FileOps.NewFileOpsTool | odyssey/plugins/file_ops.py:7-23 | the tool is built on the absolute base, or the working directory without one; a given base that does not exist is created with makedirs, and construction fails exactly when that fails |
| FileOps.FileOpsTool.constructor | odyssey/plugins/file_ops.py:7-23 | the tool keeps its base and disk |
| FileOps.FileOpsTool.WriteFile | odyssey/plugins/file_ops.py:47-61 | the message and the new disk are the write's effect; a non-string content is refused with "write() argument must be str, not <type>", the type of null reading "None" |
| FileOps.FileOpsTool.DeleteFile | odyssey/plugins/file_ops.py:63-74 | the message and the new disk are the delete's effect |
| FileOps.FileOpsTool.MoveFile | odyssey/plugins/file_ops.py:94-109 | keeps the disk a tree; a path escaping the base directory or a failing move answers "Error moving 'src' to 'dst': ..." (directories already made stay), a missing source answers "Error: Source ... not found." and changes nothing, and otherwise the destination's parents are made and shutil.move runs, into an existing directory under the source's own name, with "Moved ... successfully." |
| FileOps.FileOpsTool.ListDirectory | odyssey/plugins/file_ops.py:76-92 | the loop returns a listing of the directory (in some order), or the one-element error list |
| FileOps.FileOpsTool.Execute | odyssey/plugins/file_ops.py:111-124 | dispatches on the action, content defaulting to "" and overwrite to false, list_directory's path to "."; any other action gets "Error: Unknown action ..." and changes nothing |
| ReadFileTool.BaseFilePath | odyssey/plugins/read_file_tool.py:19 | the safe directory is a clean absolute path strictly below the working directory |
| ReadFileTool.SafeFilePathSpec | odyssey/plugins/read_file_tool.py:42-68 | a filename is refused exactly when it is empty, holds "..", or starts with "/"; otherwise only its base name is kept, the file is taken directly from the safe directory, and the common-prefix check never refuses |
| ReadFileTool.PreparedSpec | odyssey/plugins/read_file_tool.py:30-40 | preparing the safe directory keeps every existing entry and the tree well formed, and leaves it a directory exactly when it was one already, or it was absent and no prefix of it is a file |
| ReadFileTool.Read | odyssey/plugins/read_file_tool.py:100-111 | f.read(n) returns the next at most n characters and moves the position past them, stopping short only at end of file; f.read() returns the rest |
| ReadFileTool.PeekDetectsTruncation | odyssey/plugins/read_file_tool.py:99-109 | after reading exactly max_bytes characters, reading one more finds something exactly when the file is longer |
| ReadFileTool.ReadAnswer | odyssey/plugins/read_file_tool.py:85-123 | every answer carries a status; the text returned is the file read in text mode, line breaks as "\n" |
| ReadFileTool.ReadRefusesUnsafe | odyssey/plugins/read_file_tool.py:85-87 | the "Invalid or unsafe filename" answer comes exactly for unsafe names |
| ReadFileTool.ReadSpec | odyssey/plugins/read_file_tool.py:85-114 | a read succeeds exactly for a safe name naming a regular file when max_bytes is None or an integer; the result is a prefix of the file as text mode reads it (universal newlines), max_bytes long when that is positive and shorter, and the whole text otherwise; a missing path and a directory get their own errors |
| ReadFileTool.ReadFileTool.constructor | odyssey/plugins/read_file_tool.py:30-40 | the tool works in the safe directory, which is created with makedirs when absent |
| ReadFileTool.OmittedLimit | odyssey/plugins/read_file_tool.py:70 | leaving max_bytes out reads at most the first 4096 characters, while passing None reads the whole file |
| ReadFileTool.ReadFileTool.Execute | odyssey/plugins/read_file_tool.py:70-123 | the answer is the read described by ReadSpec, with max_bytes 4096 when the call leaves it out |
| WriteFileTool.WriteRefusesUnsafe | odyssey/plugins/write_file_tool.py:37-77 | an unsafe name gets "Invalid or unsafe filename" with nothing written; a safe one writes to its base name in the safe directory |
| WriteFileTool.ModeRules | odyssey/plugins/write_file_tool.py:80-86 | a falsy mode means overwrite, "overwrite" and "append" are matched in any case, and any other mode gets "Invalid mode" with nothing written |
| WriteFileTool.OpenAndWriteSpec | odyssey/plugins/write_file_tool.py:88-97 | a write succeeds exactly when the content is a string and the path can be opened; the file then holds the content (after the old text in append mode) and the answer reports its length and the mode; a path that cannot be opened is left unchanged |
| WriteFileTool.OpenedInDir | odyssey/plugins/write_file_tool.py:92 | a path that can be opened for writing is not a directory and lies in an existing directory |
| WriteFileTool.OpenAndWriteKeepsTree | odyssey/plugins/write_file_tool.py:92-93 | a write leaves a well-formed tree and changes no other path |
| WriteFileTool.WriteKeepsTree | odyssey/plugins/write_file_tool.py:60-103 | every call of write_file leaves a well-formed tree and changes no path other than the flattened target |
| WriteFileTool.ModeAndWriteSucceeds | odyssey/plugins/write_file_tool.py:80-97 | the mode check and write succeed exactly for a valid mode, string content and an openable path |
| WriteFileTool.WriteSucceeds | odyssey/plugins/write_file_tool.py:60-97 | write_file succeeds exactly for string content, a safe name, a valid mode and an openable path |
| WriteFileTool.WriteThenRead | odyssey/plugins/write_file_tool.py:92-97 | after a successful write, read_file with no limit returns the written text (old text plus content when appending), its line breaks read as "\n" |
| WriteFileTool.WriteFileTool.constructor | odyssey/plugins/write_file_tool.py:26-35 | the tool works in the safe directory, which is created with makedirs when absent |
| WriteFileTool.WriteFileTool.Execute | odyssey/plugins/write_file_tool.py:60-103 | the answer and the new disk are those of the write described by WriteSucceeds and WriteKeepsTree |
| WriteFileTool.WriteFileTool.WriteAt | odyssey/plugins/write_file_tool.py:88-103 | the answer and the new disk are those of opening and writing the path |
| SaveNoteTool.Snippet | odyssey/plugins/save_note_tool.py:65 | the first row's message is "Note: " plus the note, cut to its first 100 characters with "..." after when it is longer |
| SaveNoteTool.SaveAnswer | odyssey/plugins/save_note_tool.py:91-99 | the answer is an error exactly when no id came back; otherwise it succeeds and carries the id as note_id |
| SaveNoteTool.NotesStoredAsInfo | odyssey/plugins/save_note_tool.py:66-88 | log_event stores both the "NOTE" and the "USER_NOTE" level as "INFO" |
| SaveNoteTool.NewSaveNoteTool | odyssey/plugins/save_note_tool.py:22-33 | construction raises ValueError "MemoryManager instance is required for SaveNoteTool." exactly without a manager, and otherwise keeps it |
| SaveNoteTool.SaveNoteTool.constructor | odyssey/plugins/save_note_tool.py:28-33 | the tool keeps the memory manager it is given |
| SaveNoteTool.SaveNoteTool.Execute | odyssey/plugins/save_note_tool.py:35-102 | an empty, non-string or blank note gets "Note content cannot be empty." with nothing logged; otherwise exactly two rows are appended, the snippet and "NOTE_CONTENT: ..." with its tag, and the answer carries the second row's id |
| SaveNoteTool.SaveNoteTool.WriteRows | odyssey/plugins/save_note_tool.py:64-88 | the two log_event calls append the two rows with consecutive ids and timestamps |
| GetNotesTool.ParseMessage | odyssey/plugins/get_notes_tool.py:108-116 | a tag is extracted exactly when the message holds "TAG: " |
| GetNotesTool.SaveThenParse | odyssey/plugins/get_notes_tool.py:108-116 | the message save_note writes parses back to the stripped note and the stripped tag, when the note itself holds neither marker |
| GetNotesTool.TaggedNoteMatches | odyssey/plugins/get_notes_tool.py:85-87 | a note saved with a tag is kept by the tag filter for that tag |
| GetNotesTool.NoteOf | odyssey/plugins/get_notes_tool.py:118-123 | each note has exactly id, note, tag and timestamp, taken from its row and its parsed message |
| GetNotesTool.NotesFrom | odyssey/plugins/get_notes_tool.py:118-124 | one note per row, in order |
| GetNotesTool.Taken | odyssey/plugins/get_notes_tool.py:124-126 | the loop keeps all kept rows up to limit, and at least one when there is one |
| GetNotesTool.NotesOfSpec | odyssey/plugins/get_notes_tool.py:79-126 | the notes answered are rebuilt, in order, from returned rows that match the tag and pass since, as many as Taken allows |
| GetNotesTool.Collect | odyssey/plugins/get_notes_tool.py:79-126 | the loop returns exactly the notes NotesOfSpec describes |
| GetNotesTool.CollectStep | odyssey/plugins/get_notes_tool.py:84-124 | one row adds its note exactly when it matches the tag and passes since |
| GetNotesTool.CollectStops | odyssey/plugins/get_notes_tool.py:125-126 | stopping at the limit loses no note that would be answered |
| GetNotesTool.NewGetNotesTool | odyssey/plugins/get_notes_tool.py:23-33 | construction raises ValueError "MemoryManager instance is required for GetNotesTool." exactly without a manager, and otherwise keeps it |
| GetNotesTool.GetNotesTool.constructor | odyssey/plugins/get_notes_tool.py:23-33 | the tool keeps the memory manager it is given |
| GetNotesTool.GetNotesTool.Execute | odyssey/plugins/get_notes_tool.py:58-129 | a non-string since raises AttributeError, an unparsable one gets the format error, and otherwise the answer is a success holding the notes of the "USER_NOTE" rows, which are none because log_event stores notes as "INFO" |
| RandomStringTool.Pool | odyssey/plugins/random_string_tool.py:21-24 | every charset's pool holds at least ten characters |
| RandomStringTool.CharsetNamed | odyssey/plugins/random_string_tool.py:51-65 | a lower-cased name selects a charset exactly when it is alphanumeric, alpha, numeric or hex |
| RandomStringTool.Draw | odyssey/plugins/random_string_tool.py:72-75 | the drawn string has the requested length and every character comes from the pool |
| RandomStringTool.Generate | odyssey/plugins/random_string_tool.py:46-75 | every answer that is not an exception carries a status |
| RandomStringTool.Execute | odyssey/plugins/random_string_tool.py:29-75 | a call that leaves length out and succeeds answers twelve characters, while a length of None gets the length error |
| RandomStringTool.DefaultCall | odyssey/plugins/random_string_tool.py:29-75 | a call with no arguments answers twelve characters drawn from the alphanumeric pool |
| RandomStringTool.SelectedSpec | odyssey/plugins/random_string_tool.py:51-65 | a charset is selected exactly when it is falsy (alphanumeric) or a string naming one in any case; a truthy non-string raises |
| RandomStringTool.LengthChecked | odyssey/plugins/random_string_tool.py:46-49 | the length error comes exactly for a length that is not a positive integer |
| RandomStringTool.GenerateSpec | odyssey/plugins/random_string_tool.py:51-75 | with a valid length the call succeeds exactly when a charset is selected, and then returns exactly length characters from its pool; an unknown name gets the charset error |
| RandomStringTool.CharsetCaseInsensitive | odyssey/plugins/random_string_tool.py:51-52 | the answer does not depend on the case of the charset name, and a missing charset is alphanumeric |
| RandomStringTool.HexPoolIsLowerHexDigits | odyssey/plugins/random_string_tool.py:24 | the hex pool is string.hexdigits lower-cased |
| RandomStringTool.HexPoolLowerCase | odyssey/plugins/random_string_tool.py:24 | the hex pool holds exactly the digits and the letters a to f |
| RandomStringTool.EveryStringPossible | odyssey/plugins/random_string_tool.py:72-75 | every string of the right length over the pool is produced by some sequence of random choices |
| SearchWebTool.ResultCount | odyssey/plugins/search_web_tool.py:55-57 | a positive integer count is used as given, anything else becomes 3 |
| SearchWebTool.UrlQuerySpec | odyssey/plugins/search_web_tool.py:64 | the url form of a query keeps its length, holds no space, and changes only the spaces |
| SearchWebTool.ResultUrlHasNoSpace | odyssey/plugins/search_web_tool.py:60-69 | every dummy result's url is free of spaces |
| SearchWebTool.SearchWebTool.constructor | odyssey/plugins/search_web_tool.py:23-34 | the tool is always in stub mode |
| SearchWebTool.SearchWebTool.Execute | odyssey/plugins/search_web_tool.py:36-69 | a blank or non-string query gets "Search query cannot be empty."; otherwise exactly the requested number of dummy results, numbered from 1, under status success_stub_mode |
| SearchWebTool.SearchWebTool.DummyResults | odyssey/plugins/search_web_tool.py:60-66 | the loop yields results 1 to n in order |
| NotifyTool.FirstNonStr | odyssey/plugins/notify_tool.py:82-83 | it finds a non-string tag exactly when there is one |
| NotifyTool.Strs | odyssey/plugins/notify_tool.py:83 | the tags as strings, one per tag, in order |
| NotifyTool.HeaderRules | odyssey/plugins/notify_tool.py:74-83 | the headers hold Title exactly for a truthy title, Priority exactly for an integer from 1 to 5 (as its text), Tags exactly for a non-empty list (joined by ","), and nothing else; a non-integer priority or a non-string tag raises |
| NotifyTool.RStripCharUnique | odyssey/plugins/notify_tool.py:86 | rstrip('/') is the longest prefix that keeps only '/' behind it and does not end in '/' |
| NotifyTool.LStripCharUnique | odyssey/plugins/notify_tool.py:86 | lstrip('/') is the longest suffix that keeps only '/' before it and does not start with '/' |
| NotifyTool.NtfyUrlSpec | odyssey/plugins/notify_tool.py:86 | the url is the server without trailing slashes, one '/', and the topic without leading slashes; extra slashes on either side do not change it |
| NotifyTool.PostAnswer | odyssey/plugins/notify_tool.py:95-112 | the answer succeeds exactly when the server answered with a status outside 400 to 599 |
| NotifyTool.NotifyTool.constructor | odyssey/plugins/notify_tool.py:25-50 | server and topic are taken from settings that have both, and the tool is a stub exactly unless both are set and truthy |
| NotifyTool.NotifyTool.BuildHeaders | odyssey/plugins/notify_tool.py:74-83 | the headers are those HeaderRules describes |
| NotifyTool.NotifyTool.AddTags | odyssey/plugins/notify_tool.py:82-83 | the Tags header is added exactly as HeaderRules describes |
| NotifyTool.NotifyTool.Execute | odyssey/plugins/notify_tool.py:52-112 | a stub or unconfigured tool answers the stub message and sends nothing; otherwise header errors raise before sending, and a POST of the message with the headers and a 10-second timeout goes to the ntfy url, whose reply decides the answer |
| FetchUrlTool.NetlocEnd | odyssey/plugins/fetch_url_tool.py:42 | the network location runs up to the first '/', '?' or '#' |
| FetchUrlTool.ValidUrlForm | odyssey/plugins/fetch_url_tool.py:39-45 | a valid url starts with http or https in any case, then "://", then a character that is not '/', '?' or '#' |
| FetchUrlTool.ValidUrlsAccepted | odyssey/plugins/fetch_url_tool.py:39-45 | every http or https url with a non-empty host free of brackets is accepted |
| FetchUrlTool.EffectiveTimeout | odyssey/plugins/fetch_url_tool.py:62 | the call's timeout is used exactly when it is a positive integer, the global one when it is None or not positive, and a non-integer raises |
| FetchUrlTool.PiecesUnlimited | odyssey/plugins/fetch_url_tool.py:87-101 | without a limit every chunk is read whole |
| FetchUrlTool.PiecesLimited | odyssey/plugins/fetch_url_tool.py:87-104 | with a limit the bytes read are the first limit bytes of the body, or all of it when shorter |
| FetchUrlTool.BytesReadBounded | odyssey/plugins/fetch_url_tool.py:87-104 | with a positive max_bytes at most max_bytes bytes are read, a prefix of the body, and the whole body when it fits |
| FetchUrlTool.OmittedLimit | odyssey/plugins/fetch_url_tool.py:47-106 | leaving max_bytes out reads at most the first 8192 bytes, while None or a limit below 1 reads every chunk whole |
| FetchUrlTool.FetchAnswer | odyssey/plugins/fetch_url_tool.py:75-128 | the answer succeeds exactly when the server responded with a status outside 400 to 599, and then holds the decoded content read within the limit |
| FetchUrlTool.FetchUrlTool.constructor | odyssey/plugins/fetch_url_tool.py:24-36 | the global timeout is the settings' ollama_request_timeout, or 30 |
| FetchUrlTool.FetchUrlTool.ReadChunks | odyssey/plugins/fetch_url_tool.py:84-104 | the loop's content is the pieces within the limit, each decoded, and bytes_read is their total length |
| FetchUrlTool.FetchUrlTool.Execute | odyssey/plugins/fetch_url_tool.py:47-128 | a bad timeout raises and an invalid url is refused, both without a request; otherwise exactly one GET goes out with the User-Agent and the effective timeout, and its reply decides the answer, read with max_bytes 8192 when the call leaves it out |
| FetchUrlTool.FetchUrlTool.Answer | odyssey/plugins/fetch_url_tool.py:75-128 | the answer is FetchAnswer of the reply |
| FetchUrlTool.ReadStep | odyssey/plugins/fetch_url_tool.py:88-101 | one chunk either ends the read with its cut piece or is read whole and the loop goes on |
| CalendarEventTool.CredentialsPath | odyssey/plugins/calendar_event_tool.py:50-58 | the credentials path comes from truthy settings, else from the environment |
| CalendarEventTool.DefaultCalendarId | odyssey/plugins/calendar_event_tool.py:59-65 | the default calendar comes from settings, else the environment, else "primary" |
| CalendarEventTool.Init | odyssey/plugins/calendar_event_tool.py:37-92 | the tool keeps the default calendar id |
| CalendarEventTool.InitSpec | odyssey/plugins/calendar_event_tool.py:37-92 | the tool is a stub exactly when the libraries are missing, no credentials path is set, it does not exist or the service cannot be built, and it holds a service exactly when it is not a stub |
| CalendarEventTool.StubAdded | odyssey/plugins/calendar_event_tool.py:96-98 | a stub add answers success_stub_mode with the title as the summary |
| CalendarEventTool.AddAnswer | odyssey/plugins/calendar_event_tool.py:107-128 | an add succeeds exactly when the API returned an event |
| CalendarEventTool.AddEvent | odyssey/plugins/calendar_event_tool.py:95-128 | a stub sends nothing and answers StubAdded; a live tool sends one insert of the event body to the target calendar |
| CalendarEventTool.ListEvents | odyssey/plugins/calendar_event_tool.py:130-173 | a stub sends nothing and answers the stub events; a live tool sends one list request |
| CalendarEventTool.Execute | odyssey/plugins/calendar_event_tool.py:175-218 | only a live tool sends a request, and every answer carries a status |
| CalendarEventTool.ActionCaseInsensitive | odyssey/plugins/calendar_event_tool.py:196 | the action is matched in any case |
| CalendarEventTool.AddNeedsArguments | odyssey/plugins/calendar_event_tool.py:198-207 | add without title, start_time and end_time is refused with nothing sent; with them a live tool sends an insert and a stub answers StubAdded |
| CalendarEventTool.InvalidActionRefused | odyssey/plugins/calendar_event_tool.py:215-218 | the "Invalid action" answer comes exactly for an action other than add or list, and nothing is sent |
| CalendarEventTool.ListArguments | odyssey/plugins/calendar_event_tool.py:136-214 | list sends the target calendar, to_time, max_results (20 by default) and from_time, or now when that is missing |
| CalendarEventTool.AddArguments | odyssey/plugins/calendar_event_tool.py:107-207 | add sends the title as summary, start and end as dateTime objects, the description ("" by default) and the default calendar when none is given |
| CalendarEventTool.StubResults | odyssey/plugins/calendar_event_tool.py:96-133 | a stub never sends a request; add answers StubAdded and list answers the two stub events under success_stub_mode |

## Left out

- Git, `gh` and PyGithub calls are not run. Their results are oracle parameters, and only the decisions taken on those results are modelled.
- `get_commit_messages` (odyssey/agent/github_client.py:93-110) is left out. It only formats API objects.
- `open_pr`, `merge_pr` and `reload_code` are left out. They are thin calls to the GitHub CLI or placeholders.
- The sandbox subprocess (odyssey/agent/sandbox.py) is not modelled. Only the output prefixes that `sandbox_test` inspects are.
- Langfuse tracing, `backup_json` and every logging call are left out. They do not affect results.
- SQLite failures are not modelled: the store never fails. So the handlers' "log_success is false" 500 branches are unreachable in the model.
- Timestamps are a logical clock that ticks once per timestamped write. Wall-clock values and their formatting are not modelled.
- Celery dispatch is a broker oracle that either delivers or fails with a message. The AsyncResult status endpoint is not modelled.
- The simulated work of the demonstration tasks is not modelled: sleeps and random outcomes are an outcome parameter.
- `add_numbers` and the calculator tool are left out because they use floating point.
- The task, plan, log and tool HTTP endpoints are thin pass-throughs and are not part of this model.
- Not part of this model: the FastAPI app (main.py), celery_app.py, the datetime and schedule_task tools, calendar.py, ocr.py, the list_files tool and the send_email tool.
- Python dicts are maps, so key order is not modelled.
- `str()` of lists and dicts inside error messages is approximated.
- Case mapping covers ASCII only.
- `SelfModifier.Slug`: `str.isalnum()` and `str.lower()` are read on ASCII letters and digits only. A non-ASCII letter or digit, which Python keeps in the branch slug (the "é" of "Fix café"), is dropped by the model.
- `Schemas.LaxInt`: only an optional sign followed by ASCII digits is read from a string. Other spellings Pydantic may accept, such as surrounding white space, `_` digit separators or a zero fraction like "5.0", are refused by the model.
- `Schemas.LaxBool`: a string is compared with the true and false words exactly, after lower-casing. Surrounding white space is not stripped.
- `Schemas.OptIntField` and `Schemas.OptBoolField` read strings only as `Schemas.LaxInt` and `Schemas.LaxBool` do. JSON has no floating-point values in this model, so float inputs are not modelled.
- Text is modelled as character sequences. UTF-8 encoding is modelled only where bytes are counted (fetch_url), through a decode oracle.
- `os.path.normpath`'s special case of a leading "//" is not modelled, and neither are symbolic links.
- Operating-system errors are limited to the four the modelled disk can produce: FileNotFoundError, FileExistsError, NotADirectoryError and IsADirectoryError, each with its `[Errno n]` text and the path. Permission, disk-full and other I/O failures are not modelled.
- `VectorStore`: the similarity ranking of a query is an oracle reply.
- `VectorStore`: deletion with both ids and a filter follows the in-memory test collection, where ids take precedence.
- `Memory.MemoryManager.constructor`: the vector store, or none, is passed in, and opening the database is not modelled. As written, construction always raises AttributeError: odyssey/agent/memory.py:85 reads `self.vector_store_path`, which is never assigned (only the comment at line 49 names it). The model constructs the manager as evidently intended.
- `GetNotesTool.GetNotesTool.Execute`: the `since` comparison of timestamps is an oracle predicate, and `fromisoformat` is an oracle too.
- `GetNotesTool.GetNotesTool.Execute`: the limit is an integer, so a non-integer limit is not modelled.
- `RandomStringTool.Generate`: the empty-pool error branch is kept but cannot be reached, since every pool is non-empty.
- `FetchUrlTool.IsValidUrl` models `urlparse` only as far as scheme, network location and bracket balance. Whitespace stripping and IPv6 host checks are not modelled.
- `FetchUrlTool.FetchUrlTool.Execute`: `max_bytes` is None or an integer.
- `FetchUrlTool.FetchUrlTool.Execute`: the url is a string. A falsy non-string url (None, 0, [] or {}) is read by `urlparse` as the empty string and refused with "Invalid URL: 'None'. ..." and the like; a truthy non-string url makes `urlparse` raise AttributeError, which `_is_valid_url` does not catch. Neither is modelled.
- `ReadFileTool.ReadFileTool.Execute`: the filename is a string. A null filename, which Python treats as the unsafe name 'None', and a number, which raises TypeError, are not modelled.
- `WriteFileTool.WriteFileTool.Execute`: the filename is a string. A null or numeric filename is not modelled.
- `OllamaClient.AvailableModels`: the tags reply is a dict holding a list of models whose names are strings or absent. Other replies are not modelled: a list, or a string without "models", is answered with [] (odyssey/agent/ollama_client.py:81); an int, a bool or null raises TypeError there, and so does a string containing "models", at the subscript. A model whose "name" is null is read as one without a name, where Python raises AttributeError (odyssey/agent/ollama_client.py:144).
- `VectorStore.AddAll`: adding follows the in-memory test collection: an existing id is overwritten and, within one batch, the last duplicate wins. A real Chroma collection ignores ids it already holds and raises DuplicateIDError for duplicates within a batch; neither is modelled.
- `VectorStore.ChromaVectorStore.AddDocuments`: the collection's add is `VectorStore.AddAll`, so it has the same overwrite behaviour and not Chroma's.
- `SelfModifier.SignalName`: signal names are those of Python's `signal.Signals` on Linux. Other platforms number and name signals differently.
- `FetchUrlTool.FetchUrlTool.Execute`: the content-type warning is only logging, and errors in the middle of the stream are not modelled.
- `NotifyTool.NotifyTool.Execute`: the message is a string. Encoding it as bytes is not modelled.
- `CalendarEventTool.Execute`: the Google API reply is an oracle.
- `CalendarEventTool.Execute`: the per-item formatting of listed events (odyssey/plugins/calendar_event_tool.py:150-160) and the HttpError message extraction (119-123) are reduced to opaque reply values.
- `CalendarEventTool.Execute`: the action is a string.
- The source as written does not run; the model follows the evidently intended code at each of these places:
  - odyssey/agent/ollama_client.py:92 and :111 spell the parameter `prefer_safe_ यानी_local`, with a space, which is a SyntaxError; :206 passes the keyword `prefer_safe_yani_local`, which would match no parameter. The model passes the safe flag through.
  - odyssey/agent/ollama_client.py:397: the inner `try:` of `generate_embeddings` has no `except` or `finally` at its own indentation, which is a SyntaxError.
  - odyssey/agent/self_modifier.py:65 and :97 use `Optional`, which lines 1-5 never import, so importing the module raises NameError.
  - odyssey/agent/memory.py:85: see the `Memory.MemoryManager.constructor` line above.
  - A stray "```" line ends odyssey/agent/tool_manager.py:284, odyssey/agent/tasks.py:345, odyssey/plugins/save_note_tool.py:170, odyssey/plugins/get_notes_tool.py:237, odyssey/plugins/write_file_tool.py:181, odyssey/plugins/fetch_url_tool.py:208, odyssey/plugins/calendar_event_tool.py:344 and odyssey/plugins/__init__.py:14, which is a SyntaxError in each.
- `ReadFileTool.ReadFileTool.Execute`, `FetchUrlTool.FetchUrlTool.Execute`, `RandomStringTool.Execute` and `GetNotesTool.GetNotesTool.Execute` take the arguments that have defaults other than None as `Arg` values, so that a left-out `max_bytes` (4096 for read_file, 8192 for fetch_url), `length` (12) or `limit` (20) is told apart from an explicit None. The other defaults (None, "overwrite", "alphanumeric", 3) behave as an explicit None does, so those parameters take plain values.
