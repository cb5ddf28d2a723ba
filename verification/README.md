# Verification models of AI Efficiency

Dafny models of the parts of the platform that hold real algorithms and protocols, with proofs of
what they promise. `dafny verify dfyconfig.toml` checks the whole project.

The code that works step by step is modelled as methods over objects, each proved against a
specification function; the theorems are then about those functions. What a specification function
answers is itself stated field by field, in the terms of its inputs, by the lemmas whose names end in
`Meaning`, `Iff` or the like.

- **Eager loading of commit checkpoints** (`EagerLoading`, `CheckpointQueries`, `SingleResults`).
  The loaders build their maps and hand rows out to node objects; `SqlAll` runs projection, scan and
  the four loaders together and is proved equal to a lookup made one row at a time.
- **Creating and reading attribution request claims** (`Claims`, `BulkCreate`, `BulkTheorems`).
  A bulk save runs every builder's mutator from inside the stack of hooks of the one before, around
  one insert. A hook may edit the mutation, may fail before it calls the next mutator, and may fail
  after it; a ghost trace records what was entered and left.
- **Git hooks** (`Eligibility`, `EventQueue`, `HookRouting`, `HookRuntime`, `ResolutionTheorems`,
  `ResolvedContexts`, `HookRuns`, `QueuedEvents`, `HookExample`). Resolution over the eligibility cache
  and the backend, the queue of unresolved events, and runs of hooks, other commands, deliveries and
  changed credentials. The backend, the clock and every read or write that can fail are free inputs of
  each step; a ghost list holds what the backend has answered.
- **Reporting enrolment, activation, login and token refresh** (`ReportingConfig`, `TokenRefresh`,
  `Activation`, `ActivationRuntime`, `ActivationTheorems`, `LoginOutcomes`, `CredentialRuns`,
  `CredentialExample`). Each command can fail at each of its steps. A ghost list records which server
  issued which reporter token for the account it sees behind the access token, which need not be the
  subject the command line reads.
- **Choosing the tools of `discover`** (`DiscoverTools`), the Go string functions used throughout
  (`GoStrings`), and what it is for one list to keep the order of another (`Selections`).

## Where the code does not do what one would expect

The model follows the code; each of these is a lemma with the exact condition.

- A query that returns a checkpoint twice leaves all but the last copy without children: the
  to-many loaders map an id to one node (`CheckpointQueries.ListsAreComplete`,
  `CheckpointQueries.RepeatedRowLosesItsChildren`).
- A bulk save whose batch goes in is all-or-nothing only while no hook turns the success of the
  mutator below it into an error. Otherwise rows stay inserted and mutations stay marked done although
  the save fails (`BulkTheorems.AllOrNothing`, `BulkTheorems.FailedSaveLeavesRows`).
- A positive answer about a repository is cached under the key of the repository the *answer* names.
  When that is another key than the one asked for, the binding that asked never finds it again
  (`Eligibility.StoredPositiveIsFoundIff`, `ResolutionTheorems.AnsweredRepositoryIsKeptIff`,
  `HookExample.RenamedGrantIsForgotten`).
- A refusal is stored beside an older positive record and not in place of it. Once it has expired an
  outage brings the refused repository back (`ResolutionTheorems.RefusedRepositoryComesBackIff`,
  `HookExample.RefusedThenHandled`).
- An eligible answer with a negative repository id lets the hook go on while the cache holds a refusal,
  and no other answer does (`ResolutionTheorems.DecisionMatchesRecordIff`).
- An unresolved event that is not dropped and has no remote, workspace or commit is lost, not queued
  (`HookRuns.CommitIsAccountedFor`, `HookRuns.RewriteIsAccountedFor`,
  `HookExample.CommitWithoutRemoteIsLost`).
- A refresh whose lifetime exceeds 9223372036 seconds wraps round in 64 bits and is stored as
  expired (`TokenRefresh.AnsweredTokenExpiresLater`, `TokenRefresh.LongLifetimeExpiresAtOnce`).
- A server that sends a blank but non-empty reporter token has its activation succeed as with any other
  token, and the config is then never accepted (`ActivationTheorems.TokenTextDoesNotMatter`,
  `ActivationTheorems.BlankTokenIsActivatedButRefused`, `CredentialExample.BlankTokenActivates`).
- A login that finds its token still valid does not compare the recorded server with the token's.
  After a refresh against another server it records that server beside the old server's reporter
  token (`CredentialRuns.RepeatedLoginLabelsIff`, `CredentialExample.MislabelledRunExists`).
- A login whose access token has no readable subject leaves a reporter token of some account with no
  account beside it (`CredentialRuns.FreshLoginLabelsIff`, `CredentialExample.UnreadableLoginMislabels`).
- `Exist`, `IDs`, `OnlyID` and `FirstID` answer only on a query without selected fields, and leave the id
  selected on it. Any of them fails when it is called after any of them, `Exist` a second time too
  (`SingleResults.CheckpointQuery.Exist`, `SingleResults.ExistTwice`); listing the rows then still works,
  up to the limit that stays behind (`SingleResults.AllAfterExist`).

## Model

| member | source | states |
|---|---|---|
| EagerLoading.LookupMeaning | backend/ent/commitcheckpoint_query.go:556-570 | In a table with distinct ids a key names a row exactly when that row is there: the reference the to-one loaders are measured against |
| EagerLoading.BuildIndex | backend/ent/commitcheckpoint_query.go:541-552 | The id list has each set key once, is the key set of the map, and each group holds the nodes with that key in order |
| EagerLoading.GroupsPartition | backend/ent/commitcheckpoint_query.go:541-552 | The groups partition the nodes that have a key, and the list of keys has no duplicates |
| EagerLoading.LoadToOne | backend/ent/commitcheckpoint_query.go:540-571 | Every node gets the rows its key names, shared and nil keys included; no query when no key is set; the unexpected-foreign-key branch is dead |
| EagerLoading.LoadUser | backend/ent/commitcheckpoint_query.go:540-571 | Each node ends with exactly the user its own key looks up, or keeps what it had; no other edge changes |
| EagerLoading.LoadRepoConfig | backend/ent/commitcheckpoint_query.go:572-600 | The same for the repo config |
| EagerLoading.BuildNodeMap | backend/ent/commitcheckpoint_query.go:602-609 | The map from ids to nodes, in which a repeated id means its last node, and every node with an empty, non-nil list |
| EagerLoading.LoadToMany | backend/ent/commitcheckpoint_query.go:601-633 | Children go to the last node with their key in fetch order; a field list that omits the foreign key changes nothing |
| EagerLoading.HandOutChildren | backend/ent/commitcheckpoint_query.go:618-631 | The second loop gives each node the children with its id, in order; both error branches are dead |
| EagerLoading.LoadToolUsageEvents | backend/ent/commitcheckpoint_query.go:601-633 | Each node's list holds exactly the fetched rows with its id, each once and in fetch order; childless nodes get an empty list |
| EagerLoading.LoadPrCommitUsageSnapshots | backend/ent/commitcheckpoint_query.go:634-666 | The same for the usage snapshots |
| EagerLoading.ChildrenInFetchOrder | backend/ent/commitcheckpoint_query.go:618-631 | The children of a node are given by strictly increasing positions in the fetched rows, those of exactly the rows with its id |
| CheckpointQueries.QuerySpec | backend/ent/commitcheckpoint_query.go:685-699 | The loop over the selected fields yields the column list whose properties the next row states |
| CheckpointQueries.SpecColumnsMeaning | backend/ent/commitcheckpoint_query.go:685-699 | Whatever was selected, the columns start with the only id, hold every selected field and every foreign key a requested edge needs, and nothing else |
| CheckpointQueries.FieldsKeepOrder | backend/ent/commitcheckpoint_query.go:685-691 | The selected fields but for the id keep their order |
| CheckpointQueries.KeysSurviveProjection | backend/ent/commitcheckpoint_query.go:685-699 | Nodes scanned over those columns hold the stored keys of the requested edges, so edges do not depend on the selection |
| CheckpointQueries.SqlAll | backend/ent/commitcheckpoint_query.go:478-538 | The four loaders together give each row the edges of a lookup made row by row without regard to the selected fields, its lists in fetch order, or empty when the row comes again; it fails exactly when a query it runs fails |
| CheckpointQueries.AccessorsClassify | backend/ent/commitcheckpoint.go:76-112 | Not-loaded exactly when the edge was not requested; for a requested to-one edge the row exactly when the key names one, else not-found; for a to-many edge always the list |
| CheckpointQueries.ListsAreComplete | backend/ent/commitcheckpoint_query.go:601-633 | Every checkpoint has all its children if and only if no checkpoint that is repeated further down has any; always so for distinct ids |
| CheckpointQueries.RepeatedRowLosesItsChildren | backend/ent/commitcheckpoint_query.go:602-609 | A concrete result set with one checkpoint twice, whose first copy ends without children |
| CheckpointQueries.EveryChildLandsOnce | backend/ent/commitcheckpoint_query.go:618-631 | The lengths of the lists add up to the number of children fetched |
| SingleResults.CheckpointQuery.First | backend/ent/commitcheckpoint_query.go:160-169 | The first row of the unlimited result, not-found exactly when that is empty |
| SingleResults.CheckpointQuery.FirstID | backend/ent/commitcheckpoint_query.go:182-192 | Fails exactly when the query does or a field was selected before; else the id of the first row, not-found for an empty result |
| SingleResults.CheckpointQuery.Only | backend/ent/commitcheckpoint_query.go:206-219 | With limit 2: a row exactly when the unlimited result is that single row, not-found exactly when it is empty, not-singular exactly when it has two or more |
| SingleResults.CheckpointQuery.OnlyID | backend/ent/commitcheckpoint_query.go:233-247 | The same failures; else the id exactly when there is a single row, and the two errors exactly for none and for more |
| SingleResults.CheckpointQuery.IDs | backend/ent/commitcheckpoint_query.go:278-287 | Fails exactly when the query does or a field was selected before; else the ids of the rows in order, DISTINCT over ids being DISTINCT over rows |
| SingleResults.CheckpointQuery.ScanIDs | backend/ent/commitcheckpoint_query.go:824-843 | A scan into ids reads one column for every selected field and has room for one |
| SingleResults.DistinctByID | backend/ent/commitcheckpoint_query.go:735-737 | Rows of a table that are distinct are distinct in their ids, in the same order |
| SingleResults.DedupMeaning | backend/ent/commitcheckpoint_query.go:735-737 | DISTINCT keeps of every element its first occurrence, in order |
| SingleResults.PageMeaning | backend/ent/commitcheckpoint_query.go:744-751 | A page is what follows the offset, as far as the limit goes |
| SingleResults.CheckpointQuery.UnlimitedMeaning | backend/ent/commitcheckpoint_query.go:680-684 | Rows are made distinct exactly when the query is marked unique, or continues from another and is not marked |
| SingleResults.CheckpointQuery.Exist | backend/ent/commitcheckpoint_query.go:317-327 | Fails exactly when the query does or a field was selected before; else true exactly when the unlimited result is not empty |
| SingleResults.ExistTwice | backend/ent/commitcheckpoint_query.go:317-327 | A second Exist on a query fails, whatever the first one answered |
| SingleResults.AllAfterExist | backend/ent/commitcheckpoint_query.go:259-266 | After Exist the query lists its first row at most |
| Claims.ChecksAfterDefaults | backend/ent/attributionrequestclaim_create.go:339-445 | After the defaults, the checks pass exactly when the five fields without a default are set and the validators accept |
| Claims.DefaultsFillOnce | backend/ent/attributionrequestclaim_create.go:339-380 | Defaults change no column that is set, and a second run changes nothing |
| Claims.DefaultValues | backend/ent/attributionrequestclaim_create.go:339-380 | The value each of the ten defaults fills in, the other fields staying as they are |
| Claims.CheckMeaning | backend/ent/attributionrequestclaim_create.go:383-445 | The checks fail on the first required column, in their order, that is missing or not valid, and say which |
| Claims.RowHoldsMutation | backend/ent/attributionrequestclaim_create.go:465-563 | The inserted row holds each field that was set in its own column, and NULL elsewhere |
| Claims.NodeHoldsMutation | backend/ent/attributionrequestclaim_create.go:465-563 | The returned node holds each field that was set, and zero values elsewhere |
| Claims.ScanValues | backend/ent/attributionrequestclaim.go:70-85 | One holder of the column's kind for every column |
| Claims.ScanNeverFails | backend/ent/attributionrequestclaim.go:70-85 | Every value a create stores fits the holder of its column |
| Claims.ClaimNode.AssignValues | backend/ent/attributionrequestclaim.go:89-249 | The node and the error after the loop over the columns, which is `AssignFields`; its errors are those of `FirstMismatch`, its fields those of `CreateThenRead` |
| Claims.FirstMismatch | backend/ent/attributionrequestclaim.go:89-249 | Assigning fails exactly when some known column has a holder of another type, and names the first such column |
| Claims.AssignReads | backend/ent/attributionrequestclaim.go:89-249 | Assigning a column brings in the field the create returned, whether it was set or NULL |
| Claims.AssignKeeps | backend/ent/attributionrequestclaim.go:89-249 | Assigning a column touches no other column |
| Claims.CreateThenRead | backend/ent/attributionrequestclaim_create.go:465-563 | Over any list of columns, in any order, repeated and unknown ones too: reading never fails, the columns read are those of the node the create returned, the others stay zero |
| Claims.ReadBack | backend/ent/attributionrequestclaim_query.go:338-345 | The same for scan and assign as they run |
| Claims.FullRoundTrip | backend/ent/attributionrequestclaim_create.go:465-563 | Reading all the columns gives back the very node the create returned |
| BulkCreate.ClaimBuilder.Defaults | backend/ent/attributionrequestclaim_create.go:339-380 | The mutation after the defaults, set one after the other |
| BulkCreate.ClaimBuilder.SqlSave | backend/ent/attributionrequestclaim_create.go:447-463 | Succeeds exactly when the checks pass and the insert works; then the node with its id, and the mutation done |
| BulkCreate.ClaimBuilder.WithHooks | backend/ent/ent.go:576-607 | A save inside its hooks succeeds exactly when no hook rejects, the edited mutation passes the checks, the insert works and no hook refuses |
| BulkCreate.ClaimBuilder.Save | backend/ent/attributionrequestclaim_create.go:311-314 | The same after the defaults, and the node it returns |
| BulkCreate.BulkSave.Mutate | backend/ent/attributionrequestclaim_create.go:580-617 | From any hook of any builder on: what fails, the trace, the batch, and for every builder its spec, node, id and done flag |
| BulkCreate.BulkSave.Core | backend/ent/attributionrequestclaim_create.go:584-612 | The same for the innermost function of a mutator, which fills slot i, goes on to builder i+1 or inserts, and sets the id on the way back |
| BulkCreate.BulkSave.Save | backend/ent/attributionrequestclaim_create.go:573-629 | The whole save: the error, the nodes, the ids, the trace, the batches and the done flags, as `BulkCreate.Saved` relates them to the builders, which `BulkTheorems` is about |
| BulkTheorems.ObstacleMeaning | backend/ent/attributionrequestclaim_create.go:580-617 | The chain reaches the insert exactly when every builder gets past its hooks and checks; otherwise the first builder in order that does not is the one that stops it |
| BulkTheorems.BulkSucceedsIffEachDoes | backend/ent/attributionrequestclaim_create.go:573-629 | A bulk save succeeds exactly when the database takes the batch and each builder could be saved on its own |
| BulkTheorems.BulkNodesAreSingleNodes | backend/ent/attributionrequestclaim_create.go:573-629 | The nodes are those the builders return when saved one at a time, but for the ids, which `NodesCarryTheirRowIDs` gives |
| BulkTheorems.NodesCarryTheirRowIDs | backend/ent/attributionrequestclaim_create.go:609-613 | Each node, and its mutation, gets the id reported for its own row and none when none is reported; the rest of the node is that of the spec sent for it |
| BulkTheorems.FailureMeaning | backend/ent/attributionrequestclaim_create.go:573-629 | The error of a failed save: the first unprepared builder and what stopped it, or the database, or the innermost hook that refused |
| BulkTheorems.WalkMeaning | backend/ent/attributionrequestclaim_create.go:613-617 | A builder's hooks edit what the one before left, until one rejects it |
| BulkTheorems.InsertedOnceWithEverySpec | backend/ent/attributionrequestclaim_create.go:592-602 | The batch is sent at most once, exactly when every builder got past its checks, and holds every builder's spec in order |
| BulkTheorems.DoneExactly | backend/ent/attributionrequestclaim_create.go:584-612 | A mutation is marked done if and only if the batch went in and no hook of a later builder refused |
| BulkTheorems.FailedSaveLeavesRows | backend/ent/attributionrequestclaim_create.go:584-626 | A concrete save that fails with both rows inserted and both mutations done |
| BulkTheorems.AllOrNothing | backend/ent/attributionrequestclaim_create.go:573-629 | The done flags all equal the success of the save if and only if the batch does not go in or no hook refuses |
| BulkTheorems.ClaimsReachTheInsert | backend/ent/attributionrequestclaim_create.go:339-445 | For claims without hooks the batch is sent exactly when each builder sets the five fields and passes the validators |
| BulkTheorems.TraceIsBracketed | backend/ent/attributionrequestclaim_create.go:580-617 | The trace is the entries, the insert if reached, and the exits of exactly those entries in reverse |
| BulkTheorems.EnteredInOrder | backend/ent/attributionrequestclaim_create.go:613-617 | What is entered is a beginning of the full order, and all of it when nothing stands in the way |
| BulkTheorems.EntriesMeaning | backend/ent/attributionrequestclaim_create.go:613-617 | The full order holds every hook of every builder, builder by builder, hook 0 outermost |
| Eligibility.StoredPositiveIsFoundIff | ae-cli/internal/hookstate/eligibility.go:60-143 | A stored positive answer is found again under the binding that asked if and only if it names no other repository and the URL is in normal form |
| Eligibility.FreshPositiveAnswers | ae-cli/internal/hookstate/eligibility.go:110-128 | For 24 hours it then answers every lookup, whatever refusals are stored |
| Eligibility.RefusalAnswersBriefly | ae-cli/internal/hookstate/eligibility.go:89-128 | A refusal answers lookups for exactly five minutes and never touches a positive record |
| Eligibility.LookupIsForTheBinding | ae-cli/internal/hookstate/eligibility.go:110-143 | Whatever a lookup returns belongs to the binding that asked and is not expired |
| Eligibility.PositiveMeaning | ae-cli/internal/hookstate/eligibility.go:60-87 | Every field of a stored positive record, its key and its day of life, and that no other record changes |
| Eligibility.NegativeMeaning | ae-cli/internal/hookstate/eligibility.go:89-108 | Every field of a stored refusal, its key and its five minutes of life, and that no other record changes |
| Eligibility.LookupMeaning | ae-cli/internal/hookstate/eligibility.go:110-143 | A lookup finds the unexpired grant for the binding, or else the unexpired refusal; the stale lookup finds the grant whatever its age |
| Eligibility.SameKeyIff | ae-cli/internal/hookstate/context.go:44-48 | Without collisions of the hash, two bindings share a cache key if and only if server, account and repository agree once normalized |
| Eligibility.NormalizedAlikeIff | ae-cli/internal/hookstate/context.go:16-29 | Server URLs are normalized alike if and only if they differ in surrounding space, the case of scheme and host, and slashes at the end of the path |
| EventQueue.EnqueuedOnce | ae-cli/internal/hooks/unresolved_queue.go:133-166 | An event that is not lost is in the queue exactly once, whether it was new or not |
| EventQueue.EnqueuedInOrder | ae-cli/cmd/hook.go:322-338 | Of several events the new ones go to the end in order, and each one not lost is in the queue once, repeated ones too |
| EventQueue.DeliveryRemovesOnly | ae-cli/internal/hooks/handler.go:402-414 | Delivery removes exactly the delivered events |
| EventQueue.DeliveryKeepsDistinct | ae-cli/internal/hooks/handler.go:402-414 | Delivery keeps each key in the queue at most once |
| EventQueue.DeliveryKeepsOrder | ae-cli/internal/hooks/handler.go:402-414 | What is left after a delivery is the events whose keys were not delivered, in their order |
| QueuedEvents.SameKeyIff | ae-cli/internal/hooks/unresolved_queue.go:48-60 | Two events have the same key if and only if kind, server, account, remote, workspace, commit, rewrite type, old and new commit agree but for surrounding space |
| QueuedEvents.SentCommitMeaning | ae-cli/cmd/hook.go:271-303 | A commit that counts as queued is appended with its head, parents, remote, workspace, server and account if and only if no event in the queue says the same; else such an event is there |
| QueuedEvents.SentPairsMeaning | ae-cli/cmd/hook.go:305-339 | For every pair that counts as queued the queue holds an event with this type, old and new commit, remote, workspace, server and account; the new ones come at the end in the order of the pairs |
| HookRuntime.Runtime.ResolveHookExecutionContext | ae-cli/cmd/hook.go:147-269 | The context, the cache file and the answers after a resolution are those of `HookRouting.Resolve`, which `ResolvedContexts` and `ResolutionTheorems` are about |
| HookRuntime.Runtime.AskBackend | ae-cli/cmd/hook.go:194-235 | The part that asks the backend, creates the repository in compact mode or falls back on the stale record is `HookRouting.Ask` |
| HookRuntime.Runtime.SettleAnswer | ae-cli/cmd/hook.go:236-268 | The part that stores an answer and lets it decide is `HookRouting.Settle`; see `AnswerNamesTheRepository` and `CacheIsWrittenIff` |
| HookRuntime.Runtime.UnresolvedHookBinding | ae-cli/cmd/hook.go:341-355 | The server and account an unresolved event is queued for are `HookRouting.UnresolvedBinding` |
| HookRuntime.Runtime.ShouldSkipUnresolvedHookQueue | ae-cli/cmd/hook.go:357-373 | Whether the event is dropped is `HookRouting.ShouldSkip`, which `SkipIsJustified` is about |
| HookRuntime.Runtime.EnqueueUnresolvedHookEvent | ae-cli/internal/hooks/unresolved_queue.go:133-166 | The queue after the scan for the event's key and the append is `EventQueue.Enqueue`, which `EnqueuedOnce` and `QueuedEvents.SameKeyIff` are about |
| HookRuntime.Runtime.QueueUnresolvedPostCommit | ae-cli/cmd/hook.go:271-303 | The fate of the commit and the queue after it are `HookRouting.QueueCommit`, which `CommitIsAccountedFor` and `SentCommitMeaning` are about |
| HookRuntime.Runtime.QueueUnresolvedPostRewrite | ae-cli/cmd/hook.go:305-339 | The fate of every pair and the queue after the loop are `HookRouting.QueueRewrite`, which `RewriteIsAccountedFor` and `SentPairsMeaning` are about |
| HookRuntime.Runtime.HookPostCommit | ae-cli/cmd/hook.go:50-64 | The post-commit hook over all the files it touches is `HookRouting.PostCommit`, a step of the runs in `HookRuns` |
| HookRuntime.Runtime.HookPostRewrite | ae-cli/cmd/hook.go:72-86 | The post-rewrite hook is `HookRouting.PostRewrite`, a step of the runs in `HookRuns` |
| ResolvedContexts.BindingMeaning | ae-cli/cmd/hook.go:151-171 | The server and account of a resolution: those of the reporting config in compact mode, else of a valid login with the configured server before its own |
| ResolvedContexts.AskedIff | ae-cli/cmd/hook.go:173-235 | The backend is asked if and only if there are credentials and the cache can be read and does not settle it; about creation exactly when compact mode gets a not-found |
| ResolvedContexts.AnswerNamesTheRepository | ae-cli/cmd/hook.go:220-268 | After a reply the result is a context if and only if the last reply grants a repository: with the id, key and name of the reply, in the work tree, workspace and branch of the hook |
| ResolvedContexts.FreshRecordNamesTheRepository | ae-cli/cmd/hook.go:177-190 | A fresh record that settles it gives a context of its own repository exactly when it grants one, and changes nothing |
| ResolvedContexts.StaleRecordNamesTheRepository | ae-cli/cmd/hook.go:191-219 | Without a reply the stale record gives a context of its own repository, and nothing changes |
| ResolvedContexts.CacheIsWrittenIff | ae-cli/cmd/hook.go:236-249 | The cache is written if and only if the last reply came, the binding is stable and the file works; what is stored is that reply, as a grant or as a refusal |
| ResolutionTheorems.ResolvedContextIsUsable | ae-cli/cmd/hook.go:151-268 | Every successful resolution is for the binding of the credentials, names a nonzero repository, and allows durable replay exactly when the binding is stable |
| ResolutionTheorems.NegativeIDsComeFromTheBackend | ae-cli/cmd/hook.go:236-268 | An id that is not positive is the one the backend answered |
| ResolutionTheorems.QueueUsesTheSameBinding | ae-cli/cmd/hook.go:341-355 | An event that was not resolved is looked up and queued under the very binding resolution used |
| ResolutionTheorems.OutageKeepsKnownRepositories | ae-cli/cmd/hook.go:194-219 | With no fresh record and no answer, resolution succeeds exactly when a positive record, however old, is there, answers that repository and changes nothing |
| ResolutionTheorems.AnswerDecides | ae-cli/cmd/hook.go:220-268 | Once the backend has answered, what the cache held makes no difference to the result |
| ResolutionTheorems.OneRecordChanges | ae-cli/cmd/hook.go:236-249 | The cache changes only through an answer for a stable binding, in one record, under the stated key |
| ResolutionTheorems.AnsweredRepositoryIsKeptIff | ae-cli/cmd/hook.go:220-249 | A final answer that is positive serves the binding through later outages if and only if it names no other repository |
| ResolutionTheorems.RefusedRepositoryComesBackIff | ae-cli/cmd/hook.go:176-249 | After a refusal, given directly or by the creation, and then an outage: the repository resolves if and only if it has a positive record that is fresh, or the refusal has expired, or compact mode would ask again |
| ResolutionTheorems.DecisionMatchesRecordIff | ae-cli/cmd/hook.go:236-268 | A hook goes on although the cache holds its answer as a refusal if and only if the final answer is eligible with a negative id (or that very refusal was there before); it never gives up without storing the refusal |
| HookExample.RefusedThenHandled | ae-cli/cmd/hook.go:50-64 | A concrete run: a commit dropped after a refusal, and one five minutes later handled for the refused repository |
| HookExample.CommitWithoutRemoteIsLost | ae-cli/internal/hooks/gitcontext.go:49-63 | A concrete commit in a repository without a remote, which is lost |
| HookExample.RenamedGrantIsForgotten | ae-cli/internal/hookstate/eligibility.go:60-87 | A concrete answer that names another repository and is not found again |
| HookRuns.ResolveKeepsProvenance | ae-cli/cmd/hook.go:147-269 | A resolution leaves no cached record that the backend's answers do not account for, and forgets no answer |
| HookRuns.RunsStaySound | ae-cli/cmd/hook.go:50-86 | Over every run, each cached record is one a backend answer accounts for and no event is queued twice |
| HookRuns.SkipIsJustified | ae-cli/cmd/hook.go:357-373 | A skip means the cache holds the backend's refusal of this very binding, under five minutes old and, in compact mode, not for being unknown |
| HookRuns.RefusedCommitIsDroppedIff | ae-cli/cmd/hook.go:357-373 | The converse: after a refusal, given directly or by the creation, a commit is dropped if and only if the refusal is fresh, no positive record is, and compact mode would not ask again |
| HookRuns.DropsAreJustified | ae-cli/cmd/hook.go:271-339 | Over every run, an event is dropped only with that justification |
| HookRuns.CommitIsAccountedFor | ae-cli/cmd/hook.go:50-64 | A commit is handled exactly when resolved; else lost exactly when Git fails it or, not being dropped, it lacks a remote, a workspace or a head or the queue fails; dropped exactly when skipped; else queued exactly once |
| HookRuns.RewriteIsAccountedFor | ae-cli/cmd/hook.go:72-86 | The same exact conditions for every pair of a rewrite, with the new ones queued in order |
| HookRuns.QueuedEventsSurvive | ae-cli/internal/hooks/unresolved_queue.go:133-166 | However a run goes on, an event that was queued is there exactly once until a step delivers it |
| TokenRefresh.TokenStore.ResolveTokenFileWithRefresh | ae-cli/cmd/root.go:112-158 | The token given out and the file left behind, for every reply and failure |
| TokenRefresh.TokenStore.Renew | ae-cli/cmd/root.go:138-155 | The new token file, its lifetime counted in 64-bit nanoseconds |
| TokenRefresh.AskedOnlyWhenDue | ae-cli/cmd/root.go:117-131 | The server is asked if and only if less than five minutes are left, a server is known and there is a refresh token; else the token is given back while it is valid |
| TokenRefresh.RenewedMeaning | ae-cli/cmd/root.go:138-157 | Every field of the new token: what the server sent, or else the old refresh token and subject; it is given out, and written if it can be |
| TokenRefresh.CredentialsSurvive | ae-cli/cmd/root.go:112-158 | Over any sequence of refreshes, a refresh token, subject or server that is not blank never becomes blank |
| TokenRefresh.FailedRefreshLosesNothing | ae-cli/cmd/root.go:121-136 | Without an answer nothing is written and the token is given back exactly when it is still valid |
| TokenRefresh.AnsweredTokenExpiresLater | ae-cli/cmd/root.go:112-158 | A token given out expires in the future if and only if it is not a refreshed one whose lifetime wraps to zero or below |
| TokenRefresh.ShortLifetimesFit | ae-cli/cmd/root.go:142-152 | Up to 9223372036 seconds the lifetime is what the server said |
| TokenRefresh.LongLifetimeExpiresAtOnce | ae-cli/cmd/root.go:142-152 | One second more, and the new token is on disk already expired |
| GoStrings.FirstNonEmptyBlank | ae-cli/cmd/root.go:160-167 | The result is blank exactly when every value is |
| GoStrings.FirstNonEmptyMeaning | ae-cli/cmd/root.go:160-167 | The first value that is more than space, trimmed |
| ActivationRuntime.Installation.LoadOrCreateConfig | ae-cli/internal/reporting/config.go:69-99 | The config and the two files after loading or creating it are `Activation.LoadOrCreate` |
| ActivationRuntime.Installation.EnsureReportingEnrollment | ae-cli/cmd/reporting_helpers.go:25-77 | What an enrolment answers and leaves on disk is `Activation.Enroll`, which `EnrollmentAgrees` and `FailedEnrollmentWritesNoCredentials` are about |
| ActivationRuntime.Installation.CompleteEnrollment | ae-cli/cmd/reporting_helpers.go:56-76 | The recovery of a missing token by rotation, and the save, are `Activation.Accept` |
| ActivationRuntime.Installation.ActivateV2Reporting | ae-cli/cmd/reporting_helpers.go:79-127 | What an activation answers and leaves on disk is `Activation.Activate`, which `EnableReplyDecides` and `SuccessfulActivationIsEnabled` are about |
| ActivationRuntime.Installation.InvalidateMismatchedReportingConfig | ae-cli/cmd/login.go:107-131 | The config goes unless it is for this server and account: `Activation.Invalidate` |
| ActivationRuntime.Installation.LoginCommand | ae-cli/cmd/login.go:33-98 | The files after a login that is repeated, fresh or forced, and fails at any step, are `Activation.Login`, which `LoginOutcomes` and `CredentialRuns` are about |
| ActivationRuntime.Installation.AttributionEnableCommand | ae-cli/cmd/attribution.go:25-50 | The files after `attribution enable` are `Activation.EnableAttribution`, a step of the same runs |
| ActivationRuntime.Installation.ActivateReportingForDiscover | ae-cli/cmd/discover.go:114-135 | The files after the activation of `discover` are `Activation.ActivateForDiscover`, a step of the same runs |
| ActivationRuntime.Installation.PreserveDiscoveredRelayProvider | ae-cli/cmd/discover.go:217-230 | The provider is kept in the config, which is created if missing: `Activation.PreserveProvider` |
| ActivationRuntime.Installation.LogoutCommand | ae-cli/cmd/logout.go:13-25 | A logout removes the login token and nothing else |
| ActivationTheorems.FailedEnrollmentWritesNoCredentials | ae-cli/cmd/reporting_helpers.go:25-77 | A failed enrolment leaves the config as it was or creates one that holds an installation id only |
| ActivationTheorems.LoadingMeaning | ae-cli/internal/reporting/config.go:69-150 | A config is loaded or created if and only if the two files can be read and agree, the id is a UUID and what is missing can be written; both then hold that id |
| ActivationTheorems.EnrollmentSucceedsIff | ae-cli/cmd/reporting_helpers.go:25-77 | An enrolment succeeds if and only if there are a client, a home, a config, a valid reply, a token that was sent, kept or rotated in agreement, and a file that can be written |
| ActivationTheorems.EnrollmentAgrees | ae-cli/cmd/reporting_helpers.go:25-77 | A successful enrolment stored what it answers: token and flag from the right reply, the server and account asked for, and the one valid protocol of every reply |
| ActivationTheorems.EnableReplyDecides | ae-cli/cmd/reporting_helpers.go:79-127 | The config is saved if and only if the enable reply agrees and the file works, with the reply's flag and a first time; a server that declines is the NotActivated error, and the other outcomes follow exactly |
| ActivationTheorems.SuccessfulActivationIsEnabled | ae-cli/cmd/reporting_helpers.go:79-135 | Success, or only the warning about hooks, means all replies agreed, the enable reply said yes and the stored config is enabled; it is accepted exactly when the token that was sent, rotated or kept is not blank |
| ActivationTheorems.TokenTextDoesNotMatter | ae-cli/cmd/reporting_helpers.go:49-55 | For all inputs, another non-empty text of the token in the ensure reply leaves the outcome of an activation the same |
| ActivationTheorems.BlankTokenIsActivatedButRefused | ae-cli/cmd/reporting_helpers.go:79-135 | Wherever an activation with a token succeeds, so does the one with a blank token in its place, and its config is not accepted |
| CredentialExample.BlankTokenActivates | ae-cli/cmd/reporting_helpers.go:79-135 | A concrete activation that succeeds with a token of one space and is not accepted |
| ActivationTheorems.EnabledAtIsSetOnce | ae-cli/cmd/reporting_helpers.go:99-105 | Over repeated activations, failing or not, the time of the first stays |
| LoginOutcomes.InvalidationMeaning | ae-cli/cmd/login.go:107-131 | The config stays if and only if it is for this server and account; else it goes, if the clean-up and the deletion work, and nothing else changes |
| LoginOutcomes.LoginTokenMeaning | ae-cli/cmd/login.go:33-98 | When a login writes a token, every field of that token, and when it reports an error |
| LoginOutcomes.RepeatedLoginActivates | ae-cli/cmd/login.go:43-55 | A login that finds its token valid activates with it, at the server and for the account it is for |
| LoginOutcomes.FreshLoginActivates | ae-cli/cmd/login.go:77-94 | A login that went through activates with its new token, at the server it went to |
| LoginOutcomes.FailedLoginKeepsFiles | ae-cli/cmd/login.go:33-98 | A login that fails changes nothing but, in making room, the config |
| LoginOutcomes.EnableActivates | ae-cli/cmd/attribution.go:25-50 | `attribution enable` activates with its client for the server and account of the login, the hook warning being no error |
| LoginOutcomes.DiscoverActivates | ae-cli/cmd/discover.go:114-135 | `discover` activates once the provider is kept, for the server and account of the login, or the configured server and no account |
| LoginOutcomes.ProviderIsKept | ae-cli/cmd/discover.go:217-230 | The provider is kept if and only if the config loads and saves, and is the one field that changes |
| CredentialRuns.LoginKeepsConsistent | ae-cli/cmd/login.go:33-98 | While readable subjects are the accounts: at any point of failure a login leaves a reporter token that was issued by the recorded server, for the account of the login token, which the recorded subject does not contradict |
| CredentialRuns.TokensStayLabelled | ae-cli/cmd/login.go:33-131 | Over any sequence of logins, logouts, refreshes, `attribution enable` and `discover` whose clients act for the login, the same; the label is wrong if and only if no subject is recorded for a token that has an account |
| CredentialRuns.ReadableRunsStayLabelled | ae-cli/cmd/login.go:33-131 | While every subject can be read, the token on disk was issued for the server and account beside it, over every such run |
| CredentialRuns.FreshLoginLabelsIff | ae-cli/cmd/login.go:77-94 | A new login's new token is rightly labelled if and only if the account of the access token is the subject read out of it: for an unreadable one, only if there is no account |
| CredentialRuns.KeptTokenIsLabelledIff | ae-cli/cmd/reporting_helpers.go:49-75 | When the server sends no token, the old one stays rightly labelled if and only if server and account are still the recorded ones |
| CredentialRuns.NewTokenIsLabelledIff | ae-cli/cmd/reporting_helpers.go:37-75 | A token the server hands out is rightly labelled if and only if the client talks to the recorded server and the account of its access token is the recorded subject |
| CredentialRuns.RepeatedLoginLabelsIff | ae-cli/cmd/login.go:43-55 | The same condition for a login that finds its token valid |
| CredentialRuns.RetargetedRefreshMislabels | ae-cli/cmd/root.go:121-156 | Every refresh against another server followed by such a login ends with a wrong label |
| CredentialExample.MislabelledRunExists | ae-cli/cmd/login.go:43-55 | One such run, spelt out from a consistent and rightly labelled machine |
| CredentialExample.UnreadableLoginMislabels | ae-cli/cmd/login.go:77-94 | A concrete first login with an unreadable access token that ends with a wrong label |
| DiscoverTools.ResolveDiscoverTools | ae-cli/cmd/discover.go:137-162 | Fails exactly when some trimmed piece is unsupported, naming the first one; otherwise the distinct names in first-occurrence order |
| DiscoverTools.FirstOccurrencesMeaning | ae-cli/cmd/discover.go:147-160 | The same names, none twice, ordered by where each first occurs |
| DiscoverTools.SplitMeaning | ae-cli/cmd/discover.go:149 | The pieces of an occurrence hold no comma and, joined by commas, are the occurrence |
| DiscoverTools.RepeatedFlagsAreJoinedFlags | ae-cli/cmd/discover.go:148-149 | Repeating the flag and joining with commas give the same pieces |

## Left out

- SQL text, drivers and dialects: a query is the rows it returns in order; limits and offsets on the edge queries, and named or filtered loads, are not modelled.
- Interceptors, tracing contexts and the panicking variants: mechanical.
- Setters, update, upsert and delete builders, and the other entities: the same templates.
- Columns of a checkpoint other than its keys, and its JSON columns: no edge depends on them.
- EagerLoading.LoadToOne: a row is a value, so that two checkpoints share one pointer to it is not captured.
- SingleResults.CheckpointQuery.ScanIDs: of the library's scan into a slice only the check of the number of columns is modelled, as entgo.io/ent v0.14.4 makes it; an invalid field name counts among the failures of the query.
- Claims.CreateThenRead: the insert spec is a function from columns to cells and not an object filled field by field.
- BulkCreate.BulkSave.Save: one builder listed twice in a bulk, nil hooks, hooks that call the next mutator more than once or hand it another mutation, and the context of the batch insert are not modelled.
- Event payloads are kept as far as the hooks fill them; the head snapshot, always the commit itself, is left out.
- Outcomes of Git commands are inputs; a hook that cannot read its repository at all returns before anything modelled here.
- Parsing of the lines of a post-rewrite is an input: the pairs, or none when a line is malformed.
- HookRuntime.Runtime.EnqueueUnresolvedHookEvent: the key of an event is the list of its trimmed parts, not the string that joins them.
- URL parsing, lower-casing and the hash of cache keys are free functions; different bindings are not assumed to have different keys.
- Handlers of resolved commits and rewrites, the upload of queued events and the matching of an event with a context: delivery is a set of keys chosen freely.
- The file of observed repositories: nothing modelled here reads it.
- Concurrency between commands and the file locks: each command is one atomic run; the clock readings inside one condition are one instant.
- Reading the subject of a JWT, the account a server sees behind an access token, and checking a UUID are free functions.
- The version and OTel fields of the reporting config, and the clean-up of the Codex settings beyond its success or failure.
- Supported tool names and the detection of installed tools are inputs.
- Doctor, status, update and version output, and the frontend.
