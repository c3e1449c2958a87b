# KPanel verification model

This project models the parts of KPanel that keep state and make claims about every
run, and proves those claims. It has one module per component:

- `CredentialMatcher` and `EncodedCredential`: the streaming filter that keeps the key
  of a provider out of its public output. A Knuth-Morris-Pratt matcher is proved to
  be leftmost replacement for every chunking; the JSON-string tokenizer around it, which
  recurses into nested encodings under a shared work budget, is proved to be independent
  of chunking, bounded in work, transparent for clean text, and key-free; a run is marked
  if and only if some nested layer contains the key. `WholeProjection` gives the same
  projection for a whole text without budgets and streaming, and proves that the filter
  yields exactly it and accepts exactly the texts whose cost and room fit the limits.
  `NestedCredential` adds the grammar of JSON strings and proves that no layer of a
  completed output decodes to the key.
- `ContextBudget` and `ContextSnapshot`: compaction of a conversation in which runs
  interleave. Cut points that split no run are computed from whole windows and, in
  batches of 100 rows, with a moving boundary; both are proved against one definition.
- `RunOwnership`: the protocol of Run, Resume, Cancel and worker exit as a state
  machine with one step per critical section. `SessionHistory` adds the messages of a
  session and the calls that store them, and shows which runs a snapshot can fold.
- `EventHub`: live events, snapshots and subscriptions, with a ghost log of everything
  that was published, and whole runs of workers, subscribers and readers.
- `HistoryRebuild` and `ResponsesInput`: rebuilding provider conversations, so that
  every tool call keeps exactly one place and a result.
- `JsonBudget`: the size of an encoding computed before it is made, against a definition
  of the encoding itself. `AttachmentReader`: a JSON string unescaped into buffers of
  any size.
- `PreviewQueue`, `PreviewDisk`, `ThumbnailCache`, `ProcessReads`: the agent's bounded
  queue, disk cache, memory cache and shared process reader.
- `LightFileStream`, `LightFileRelay`, `LightTerminal`: the polling relays of a light
  node, in which polls, receipts and commands may be lost or repeated in any pattern.

Objects that the program updates in place are classes whose methods are its critical
sections; their contracts tie the new state to functions of the old one, and lemmas about
those functions and about the invariants carry the results. What runs concurrently is
modelled by letting these methods be called in any order. Ghost fields (traces, logs,
tracks, the last admitted entries) record history and are never read by the program part.

Places where a promise of the source does not hold are kept as they are, with the exact
condition and an example: the output of the credential filter for keys with brackets or
parentheses (`OutputKeyFreeIff`, `BracketKeyCanReappear`); the comment in
`internal/ai/context_budget.go` that the current run is never folded (`DroppedIff` and
`CurrentFoldedIff` give the condition; `ActiveRunKept`, `FoldedByLateOnly` and
`FewLateMessages` show that it takes an overrun, or late messages that exceed a budget;
`CurrentRunCanBeDropped` is a history in which it happens); a status that is final, when a
worker that has read its run goes on (`RevivedIff`: a Run worker whose run was cancelled
before, `EarlyCancelIsOverrun`, or a Resume worker whose provider was deleted,
`OvertakenIff` and `DeletionIsOverrun`); a request id used again with events in flight
(`EndAcked`, `ReusedId`; the center draws ids at random, so that this needs a faulty
center); an empty `json.Number` (`SizeIsLength`, `EmptyNumberUndercharged`; nothing in
`internal/ai` puts a `json.Number` into a payload, so that this needs a new caller); an
oversized window that is sent whole although it could be split (`SplitIff`,
`LongSummaryStays`); results of two native batches in one group (`InputSound`, `CoveredOrdered`, and
`SplitBatchOrphans`, `ReplayTwoRounds` from stored rows).

## Model

| member | source | states |
|---|---|---|
| `CredentialMatcher.ScanProjects` | internal/ai/public_output.go:80-103 | From any withheld prefix of the key, what is released plus what is withheld is the leftmost non-overlapping replacement of what was withheld plus the text; the withheld part is the longest suffix since the last match that is a proper prefix of the key; a hit is reported exactly when the key occurs |
| `CredentialMatcher.AnyChunkingIsReplaceAll` | internal/ai/public_output.go:80-103 | However a text is split into deltas, all writes and the final tail together are the replacement of the whole text |
| `CredentialMatcher.ReplaceAllLength` | internal/ai/encoded_credential.go:125-136 | The size computed before a bulk replacement is the size of its result, and nothing changes exactly when the key does not occur |
| `CredentialMatcher.MarkerHidesKey` | internal/ai/public_output.go:35-42 | The marker is [REDACTED], or (hidden) exactly for keys that occur in it, and never contains the key |
| `CredentialMatcher.OutputKeyFreeIff` | internal/ai/public_output.go:35-42 | No output ever contains the key, for any input, if and only if the marker can neither be completed to the key by bytes after it nor complete the key behind bytes before it |
| `CredentialMatcher.PlainKeyNeverDisclosed` | internal/ai/public_output.go:35-42 | A key without brackets and parentheses never occurs in an output |
| `CredentialMatcher.BracketKeyCanReappear` | internal/ai/public_output.go:35-42 | The key "]x" occurs in the output for "]xx": the restriction is needed |
| `CredentialMatcher.CredentialFilter.constructor` | internal/ai/public_output.go:67-79 | The failure table holds the longest border of every prefix of the key |
| `CredentialMatcher.CredentialFilter.Extend` | internal/ai/public_output.go:67-79 | One table entry is the border one byte longer, at amortised constant cost |
| `CredentialMatcher.CredentialFilter.Write` | internal/ai/public_output.go:80-103 | One delta refines the replacement of the withheld prefix plus the delta, withholds the longest possible proper prefix, and makes at most three comparisons a byte, amortised |
| `CredentialMatcher.CredentialFilter.Finish` | internal/ai/public_output.go:80-104 | The tail is exactly what was withheld |
| `EncodedCredential.LiteralExact` | internal/ai/encoded_credential.go:125-136 | The literal replacement fails exactly when its result would exceed the limit |
| `EncodedCredential.FoldSplit` | internal/ai/encoded_credential.go:55-100 | Splitting one write in two gives the same output and the same state, or the same refusal with the same budget |
| `EncodedCredential.ChunkingIndependent` | internal/ai/encoded_credential.go:55-123 | Any split of a text into writes gives the same total output, final state and success or failure |
| `EncodedCredential.FoldWork` | internal/ai/encoded_credential.go:35-42 | Whatever the nesting, the writes of a text charge at most 64 MiB of nested work |
| `EncodedCredential.RunWork` | internal/ai/encoded_credential.go:35-123 | A whole run over any split into writes, its finish included, charges at most 64 MiB of nested work |
| `EncodedCredential.LayerChangedIff` | internal/ai/encoded_credential.go:188-234 | Within the budgets a decoded text is changed if and only if it or a layer nested in it contains the key, and is otherwise returned as it is |
| `EncodedCredential.MarkedIff` | internal/ai/encoded_credential.go:44-123 | A completed run is marked if and only if the text or a decoded layer nested in its string tokens contains the key; an unmarked run returns the text |
| `EncodedCredential.DecodedTokenHidesKey` | internal/ai/encoded_credential.go:141-186 | For a codec whose decoding inverts its encoding and a key without brackets and parentheses, a complete token that decodes is projected to one that decodes to a text without the key |
| `EncodedCredential.LayerWork` | internal/ai/encoded_credential.go:188-234 | A layer and all layers inside it charge no more than the shared budget, and the recursion ends |
| `EncodedCredential.CleanTextPassesThrough` | internal/ai/encoded_credential.go:44-123 | A text none of whose nested decoded string layers contains the key comes out byte for byte and unmarked, for every chunking |
| `EncodedCredential.KeyNeverDisclosed` | internal/ai/encoded_credential.go:44-123 | For a key without brackets and parentheses no text, chunking or nesting makes a completed stream contain the key |
| `EncodedCredential.ProjectionBudget.Consume` | internal/ai/encoded_credential.go:35-42 | Refuses exactly beyond depth 32, without nodes left, above the size limit, or when the work would pass 64 MiB; a node is spent in every case, the size only on success |
| `EncodedCredential.ReplaceKnown` | internal/ai/encoded_credential.go:125-136 | Refuses exactly when the key occurs and the replaced text exceeds the limit; otherwise the text with every occurrence replaced from the left, marked exactly when the key occurred, and free of a key without brackets and parentheses |
| `EncodedCredential.ProjectToken` | internal/ai/encoded_credential.go:141-186 | The loop over a token refines the recursive specification of a token, including what it charges |
| `EncodedCredential.ProjectText` | internal/ai/encoded_credential.go:188-234 | The scan over a decoded layer refines the recursive specification of a layer, including what it charges |
| `EncodedCredential.EncodedFilter.Append` | internal/ai/encoded_credential.go:44-53 | Passing text on to the matcher refines the specified output step and its output limit |
| `EncodedCredential.EncodedFilter.Write` | internal/ai/encoded_credential.go:55-100 | The imperative tokenizer refines the byte-by-byte specification: output, state, failure and budget |
| `EncodedCredential.EncodedFilter.Finish` | internal/ai/encoded_credential.go:102-123 | Closing refines the specification of the end of a stream |
| `WholeProjection.TokenIs` | internal/ai/encoded_credential.go:141-186 | A string token is projected if and only if its load, counted on the token and all it decodes to, fits the budget and each projected text has room; it pays that load and gives the text the budget-free projection gives |
| `WholeProjection.LayerIs` | internal/ai/encoded_credential.go:188-234 | The same of a decoded text with all its string tokens |
| `WholeProjection.StreamIsProjection` | internal/ai/encoded_credential.go:44-234 | For every text, key and split into writes: no write and no finish refuses the stream if and only if the load of its string tokens fits depth, nodes, size limit and 64 MiB, each projected text has room, and the output is within the limit; the output is then the literal replacement of the text with its tokens projected, marked exactly when something was replaced |
| `WholeProjection.CleanAcceptedIff` | internal/ai/encoded_credential.go:44-234 | A text without the key in any layer is accepted, for every split into writes, if and only if it is within the limit and the load of its tokens fits the budget |
| `WholeProjection.PlainAcceptedIff` | internal/ai/encoded_credential.go:26-42 | Without escapes and without the key the assistant stream accepts exactly the texts of at most 1 MiB and 131072 string tokens |
| `NestedCredential.ReplacedBody` | internal/ai/encoded_credential.go:125-136 | A string body that is malformed, or whose text lacks the key although its bytes hold it, is malformed after the replacement |
| `NestedCredential.ReplacedClean` | internal/ai/encoded_credential.go:188-234 | A text all of whose string tokens are free of the key on every layer, whatever their own bytes, is clean on every layer after the replacement |
| `NestedCredential.TokenProjects` | internal/ai/encoded_credential.go:141-186 | A projected token is a token again, and nothing it decodes to holds the key, on any layer |
| `NestedCredential.LayerProjects` | internal/ai/encoded_credential.go:188-234 | A projected text holds the key neither itself nor in any nested layer |
| `NestedCredential.DecoderExists` | internal/ai/encoded_credential.go:165-176 | The assumption on the codec can be met: there is an encoder whose output the grammar reads back |
| `NestedCredential.NoLayerDiscloses` | internal/ai/encoded_credential.go:13-123 | For a plain key and a decoder that follows the grammar of JSON strings, no completed run discloses the key in any reversible representation: neither its output nor any layer its string tokens decode to holds it |
| `ContextBudget.OrderIsPosition` | internal/ai/context_budget.go:20-22 | In a table sorted by time and id, one message is after another exactly when its position is greater |
| `ContextBudget.RunSpans` | internal/ai/context_budget.go:50-69 | The spans are the finest run-closed partition: strictly increasing from 0 to n, and a cut belongs to them if and only if no run straddles it |
| `ContextBudget.LastOfRuns` | internal/ai/context_budget.go:26-48 | The last row of the session that belongs to a run of the batch |
| `ContextBudget.ExpandBoundary` | internal/ai/context_budget.go:26-48 | The boundary moves to the last row of any run of the batch and never back |
| `ContextBudget.BudgetCutUnique` | internal/ai/context_budget.go:75-128 | There is only one cut that keeps as many whole newest spans as fit |
| `ContextBudget.SpanCost` | internal/ai/context_budget.go:92-116 | The cost of one span is the sum over its rows; it is oversize, or holds the current run, exactly when one of its rows is or does |
| `ContextBudget.PlanBudget` | internal/ai/context_budget.go:75-128 | The plan keeps the longest suffix of whole spans within both byte budgets and the row cap; the next older span would break one of them; it fails in exactly the specified cases |
| `ContextBudget.PlanUnique` | internal/ai/context_budget.go:75-128 | The rows and the current run determine the plan |
| `ContextBudget.DroppedIff` | internal/ai/context_budget.go:70-128 | A successful plan drops the current run if and only if the rows after the span of that run cannot all be sent |
| `ContextSnapshot.TargetLeast` | internal/ai/context.go:67-111 | The target is the least run-closed cut that leaves at most the window of rows |
| `ContextSnapshot.FoldBatch` | internal/ai/context.go:67-111 | One iteration, which sees at most 100 rows, keeps the boundary at the last row of any run read so far |
| `ContextSnapshot.FoldOldRows` | internal/ai/context.go:67-111 | The batched loop ends and leaves the cursor exactly at the target, having folded exactly the rows before it in order, unless the current run is among them, and then it fails |
| `ContextSnapshot.FindRawSplit` | internal/ai/context.go:145-153 | The raw split keeps the newest messages within the allowance |
| `ContextSnapshot.RoundUp` | internal/ai/context.go:154-165 | The split is rounded up to the least run-closed cut |
| `ContextSnapshot.TrimWindow` | internal/ai/context.go:129-177 | A window of at least 1024 tokens is split exactly if summary and messages take more than 14/5 characters a token, the messages alone more than the allowance (the larger of 512 and 9/5 characters a token less the summary), and a run-closed cut inside leaves no more than that; then the least such cut is taken, or the snapshot is refused because of the current run |
| `ContextSnapshot.SplitIff` | internal/ai/context.go:129-177 | An oversized window with a possible cut is split or refused if and only if the messages alone exceed the allowance, which they always do for a summary of at most 4/5 characters a token |
| `ContextSnapshot.LongSummaryStays` | internal/ai/context.go:145-166 | Otherwise it is not: with a long summary kept from a larger window a few short messages are all sent although a cut is there |
| `ContextSnapshot.SplitKeepsWithinAllowance` | internal/ai/context.go:145-177 | A performed split leaves a non-empty run-closed rest within the allowance, and every earlier run-closed cut would leave too much |
| `ContextSnapshot.Compact` | internal/ai/context.go:112-122 | The byte-budget phase folds exactly the prefix the plan of the rest names, and stops exactly when there is no such plan |
| `ContextSnapshot.TakeSnapshot` | internal/ai/context.go:33-178 | The three phases in order, each with its least cut: refused exactly when the first would fold the current run, the plan does not exist, or the window split holds the current run. Folded rows and sent messages together are the rows since the cursor, in order, nothing lost or sent twice; no run is split; the messages are within the row cap and both byte budgets |
| `ContextSnapshot.SnapshotUnique` | internal/ai/context.go:33-178 | The rows, the cursor, the window and the current run determine the result |
| `ContextSnapshot.NewestRunNeverFolded` | internal/ai/context_budget.go:70-74 | A snapshot folds no row of a run that owns the newest row |
| `ContextSnapshot.CurrentFoldedIff` | internal/ai/context.go:33-178 | A snapshot folds rows of the current run if and only if the rows after that run cannot be sent whole |
| `SessionHistory.EventKeeps` | internal/ai/service.go:155-309 | Looking for an active run, creating one, storing its message, retrying, drafting, answering, running tools, restarting and every step of the runtime keep the tables consistent with at most one active run; without an overrun every row since the active run was created is its own or was late |
| `SessionHistory.LateIff` | internal/ai/service.go:182-205 | A message is stored for a run that is not active if and only if the run that Send found or created has ended since, or a Resume worker carries out a decision after its provider was deleted |
| `SessionHistory.AtOnceNotLate` | internal/ai/service.go:182-205 | A message stored right after the look or the creation is not late |
| `SessionHistory.ActiveRunKept` | internal/ai/context_budget.go:70-74 | In every admissible history without an overrun and without a late message, the newest row belongs to the active run if that has a row, and no snapshot folds it |
| `SessionHistory.FoldedByLateOnly` | internal/ai/context_budget.go:70-125 | With late messages a snapshot folds rows of the active run if and only if the rows after that run cannot be sent whole, and all of those are late |
| `SessionHistory.FewLateMessages` | internal/ai/context_budget.go:75-128 | Up to 128 late messages of users never make a snapshot fold the active run |
| `SessionHistory.CurrentRunCanBeDropped` | internal/ai/context_budget.go:70-125 | After an overrun it fails: an admissible history with rows of at most 1 MiB in which the only active run executes and its snapshot folds its only message |
| `RunOwnership.OneOwner` | internal/ai/runtime.go:741-753 | No two threads own the same run |
| `RunOwnership.FreshInv` | internal/ai/runtime.go:78-84 | The invariant holds at the start |
| `RunOwnership.StepKeeps` | internal/ai/runtime.go:86-198 | Every step of Run, Resume, Cancel and their exits keeps the invariant |
| `RunOwnership.OwnerStays` | internal/ai/runtime.go:86-198 | An owner stays the owner until it gives up itself, so no other can enter in between |
| `RunOwnership.CancelledOwnerSettles` | internal/ai/runtime.go:169-198 | When a cancelled owner gives up, the stored status is terminal, or the hub was shut down because the store failed; which status it is, LeavesCancelled says |
| `RunOwnership.IdleCancelSettles` | internal/ai/runtime.go:126-156 | When an idle Cancel returns without an error the stored status is terminal |
| `RunOwnership.CancellationNeverLost` | internal/ai/runtime.go:126-198 | In every interleaving a cancelled owner keeps the run up to the step at which it gives it up settled |
| `RunOwnership.EffectsSettle` | internal/ai/runtime.go:713-739 | Every action of a worker, failed status writes included, keeps it settled, and only a failed store operation shuts the hub down |
| `RunOwnership.WorkingStore` | internal/ai/runtime.go:169-198 | With a store whose operations succeed the hub is never shut down |
| `RunOwnership.StoredIff` | internal/ai/runtime.go:713-739 | In every step a run becomes completed exactly by the save of a working owner, failed exactly by the writes of fail, and cancelled exactly by the writes of cancelled or the deletion of its provider while it waits for an approval |
| `RunOwnership.LeavesCancelled` | internal/ai/runtime.go:126-198 | A run that is neither completed nor failed when its owner is cancelled is given up completed, or failed, if and only if the owner stored that itself in between |
| `RunOwnership.CancellationSettles` | internal/ai/runtime.go:126-198 | With such a store, in every interleaving, a cancelled owner keeps the run up to the step at which it gives it up; the status is then cancelled, unless the owner stored itself that the run completed or failed, or one of these had been stored before and stayed |
| `RunOwnership.CloseStops` | internal/ai/runtime.go:765-777 | Close cancels every owner that waits or works, and in every run after it no worker is registered any more |
| `RunOwnership.RevivedIff` | internal/ai/runtime.go:200-238 | A terminal status is left again if and only if a worker that has read its run stores that it is running |
| `RunOwnership.StartsOverIff` | internal/ai/runtime.go:200-238 | A Run worker does so over a terminal status if and only if the run was over when it read it |
| `RunOwnership.OvertakenIff` | internal/ai/store.go:517-560 | A Resume worker, which checks that its run waits for an approval, does so if and only if the provider of the run is deleted before it stores |
| `RunOwnership.DeletionIsOverrun` | internal/ai/runtime.go:206-238 | Such a sequence of steps: a run waiting for an approval is resumed, its provider is deleted, and the cancelled run runs again |
| `RunOwnership.EarlyCancelIsOverrun` | internal/ai/runtime.go:86-156 | A Cancel that returns before the worker of the run started is overrun by that worker |
| `RunOwnership.NativeRuntime.Register` | internal/ai/runtime.go:741-753 | Registration is the specified step and succeeds exactly when the run has no owner and the runtime is open |
| `RunOwnership.NativeRuntime.BeginCancel` | internal/ai/runtime.go:126-140 | The critical section of Cancel is the specified step: a working owner is cancelled, an idle run is reserved |
| `RunOwnership.NativeRuntime.FinishWorker` | internal/ai/runtime.go:169-180 | An owner that is not cancelled gives up here; a cancelled one keeps the run |
| `RunOwnership.NativeRuntime.Unregister` | internal/ai/runtime.go:741-753 | Giving up is the specified step |
| `EventHub.EventHub.RemoveLocked` | internal/ai/event_hub.go:39-47 | A registered channel is open, is closed once and leaves; others stay |
| `EventHub.EventHub.Unsubscribe` | internal/ai/event_hub.go:31-36 | Stopping a subscription twice is harmless |
| `EventHub.EventHub.SubscribeLocked` | internal/ai/event_hub.go:26-37 | The new channel starts at the current end of the event log of its run |
| `EventHub.EventHub.SnapshotSubscribe` | internal/ai/event_hub.go:60-75 | The content given and the start of the channel are one cut; no subscription exists after a failure |
| `EventHub.EventHub.BeginMessage` | internal/ai/event_hub.go:77-85 | At most one live message a run and two in all |
| `EventHub.EventHub.ClearLive` | internal/ai/event_hub.go:102-106 | The run has no live message any more |
| `EventHub.EventHub.PublishDelta` | internal/ai/event_hub.go:89-100 | A delta is accepted exactly for the live message, within 1 MiB and with the right total length, and then reaches every subscriber or closes it |
| `EventHub.EventHub.Publish` | internal/ai/event_hub.go:169-181 | Other events reach every subscriber of the run or close it; completed messages and ended runs are no longer live |
| `EventHub.EventHub.PublishLocked` | internal/ai/event_hub.go:183-194 | Every channel of the run gets the event, or is closed and removed if it is full |
| `EventHub.PublishedKeeps` | internal/ai/event_hub.go:183-194 | Publishing keeps every channel gap-free up to the event it dropped out at |
| `EventHub.EventHub.InvalidateSnapshots` | internal/ai/event_hub.go:111-120 | Every channel is closed once and nobody stays registered |
| `EventHub.EventHub.GapFree` | internal/ai/event_hub.go:183-194 | What a reader took and can still take is a gap-free stretch of the events after its cut, all of them while it is registered; a channel is closed exactly when it is not registered |
| `EventHub.EventHub.SnapshotCut` | internal/ai/event_hub.go:55-100 | Every registered subscriber of a live message, whenever it subscribed, has received or can take its content: the snapshot and the deltas after it, or, of a message begun later, the deltas since its beginning |
| `EventHub.EmitDelta` | internal/ai/runtime.go:307-316 | A worker extends its builder within 1 MiB and publishes builder and delta, which keeps the live message equal to its deltas |
| `EventHub.Run` | internal/ai/event_hub.go:26-194 | After any interleaving of workers, subscribers and readers every registered subscriber sees exactly the content of the live message of its run |
| `HistoryRebuild.TurnsKeepOrder` | internal/ai/runtime.go:488-538 | The turns flatten back to the history: no message is lost, repeated or moved |
| `HistoryRebuild.CollectGroup` | internal/ai/runtime.go:493-513 | One group holds the consecutive results of one run with their calls, or the read or budget fails |
| `HistoryRebuild.AppendBatch` | internal/ai/runtime.go:514-531 | A group follows one assistant turn with exactly its calls, which absorbs the assistant message just before |
| `HistoryRebuild.CompletionMessages` | internal/ai/runtime.go:488-538 | The loop succeeds exactly when every call is stored and the private bytes are within 4 MiB, and then returns the rendered turns |
| `HistoryRebuild.PlainSent` | internal/ai/runtime.go:533-536 | A message outside a batch is sent with its id, role, text and attachments |
| `HistoryRebuild.BatchSent` | internal/ai/runtime.go:493-531 | A group of results is sent behind one turn with the id, text and attachments of the assistant message just before it and the stored calls, and each result with its redacted text |
| `HistoryRebuild.RebuiltPaired` | internal/ai/runtime.go:488-538 | Read off the result alone, every tool result stands in a group right behind one assistant turn whose calls are exactly that group |
| `ResponsesInput.WholeOrNone` | internal/ai/client.go:539-573 | Native calls are replayed only with a whole batch, so a turn never mixes native and stored calls |
| `ResponsesInput.AddNative` | internal/ai/client.go:226-238 | Native items are replayed unchanged and in order, but no call id a second time |
| `ResponsesInput.AddPlaceholders` | internal/ai/client.go:239-253 | One placeholder for every native call id without a recorded result, and none otherwise |
| `ResponsesInput.AddStored` | internal/ai/client.go:262-278 | Appended, in order, are exactly the calls whose id was not seen, each once, with its own id, name and arguments |
| `ResponsesInput.BuildInput` | internal/ai/client.go:211-287 | Placeholders and calls without an id aside, the input is the system message and all turns one after another, item by item, without the later calls of an id; the counts of calls and results of every id and the order of calls before results are kept with it |
| `ResponsesInput.CallIsFirst` | internal/ai/client.go:211-287 | A function call in the input is the one of the first turn that brings its id, native or stored, with the name and the arguments it has there |
| `ResponsesInput.NativeOf` | internal/ai/client.go:539-573 | The first call with matching native data speaks for its turn: a readable complete batch item by item as it was parsed, otherwise its reasoning items |
| `ResponsesInput.ReasoningAt` | internal/ai/client.go:574-586 | Reasoning items keep their order and are unchanged |
| `ResponsesInput.InputSound` | internal/ai/client.go:211-287 | A non-empty call id occurs in at most one function call, exactly if a turn brings it; its results are the recorded ones, or a single placeholder for a native call without any; texts and results keep their order; no result stands before its call if and only if every result is announced in time |
| `ResponsesInput.EveryCallAnswered` | internal/ai/client.go:211-287 | From a paired history every call in the input has a result |
| `ResponsesInput.CoveredOrdered` | internal/ai/client.go:211-287 | If every whole native batch holds its turn's calls, every result follows its call |
| `ResponsesInput.ReadInOrder` | internal/ai/context.go:229 | Two rounds of one run whose middle rows share a millisecond can be read with both assistant messages before both results |
| `ResponsesInput.RebuiltTwoBatches` | internal/ai/runtime.go:488-538 | The rebuilt conversation of these rows has one turn with the calls of both rounds |
| `ResponsesInput.SplitBatchOrphans` | internal/ai/client.go:539-547 | From these stored rows, if the first call carries a native batch with itself alone, the request holds the second result once, without a call |
| `ResponsesInput.ReplayTwoRounds` | internal/ai/client.go:211-287 | The same from the rows to the request: rebuilding succeeds exactly within the private budget, and then the second result has no call |
| `JsonBudget.JsonSizeBudget.Text` | internal/ai/json_budget.go:56-84 | A string is charged the length of its quoted, HTML-escaped form, and is refused exactly if it is not UTF-8 or too long |
| `JsonBudget.JsonSizeBudget.RawMessage` | internal/ai/json_budget.go:103-131 | A raw message is charged its length and room for every escape |
| `JsonBudget.JsonSizeBudget.Value` | internal/ai/json_budget.go:89-254 | The walk succeeds exactly on supported values within size, node and depth budgets, and takes exactly what they cost |
| `JsonBudget.Empty` | internal/ai/json_budget.go:298-308 | The fields left out for omitempty are false, zero, nil, and empty strings, numbers, lists and maps |
| `JsonBudget.SizeIsLength` | internal/ai/json_budget.go:22-44 | The bytes charged are the length of the encoding but for empty json.Number values; with raw messages they are an upper bound |
| `JsonBudget.RawBound` | internal/ai/json_budget.go:117-131 | A compacted, escaped raw message is never longer than what was reserved for it |
| `JsonBudget.Base64Length` | internal/ai/json_budget.go:171-177 | The Base64 form has the charged length |
| `JsonBudget.EmptyNumberUndercharged` | internal/ai/json_budget.go:132-134 | An empty json.Number is charged nothing although it is encoded as one byte |
| `JsonBudget.EscapedRoundTrip` | internal/ai/json_budget.go:56-84 | Reading the escaped form back gives the string again, so the specified encoding is a faithful one |
| `JsonBudget.ProviderJSONSize` | internal/ai/json_budget.go:40-44 | Without raw messages and empty numbers the size check succeeds if and only if the encoding is within the limit and the node and depth caps hold, and returns its length |
| `AttachmentReader.AttachmentJSONReader.Read` | internal/ai/attachment_metadata_json.go:52-95 | The buffer is filled from the front; delivered bytes and what is still to come are the whole view; a short read happens only at the end; the rest of the buffer is untouched |
| `AttachmentReader.AttachmentJSONReader.TakeEscape` | internal/ai/attachment_metadata_json.go:65-89 | One escape gives its byte, or 0xff for a non-ASCII one |
| `AttachmentReader.EscapesAre` | internal/ai/attachment_metadata_json.go:65-89 | Exactly these digits and letters are escapes, and each digit has its place in the table and each letter its control byte |
| `AttachmentReader.ReadAll` | internal/ai/attachment_metadata_json.go:38-95 | Any sequence of non-empty buffers delivers exactly the view before the end of file |
| `AttachmentReader.ViewIsUnescaped` | internal/ai/attachment_metadata_json.go:45-48 | Without non-ASCII escapes the view is the unescaped string |
| `AttachmentReader.OthersRejected` | internal/ai/attachment_metadata_json.go:45-48 | A non-ASCII escape, and nothing else, puts a byte into the view that no Base64 text contains |
| `PreviewQueue.PreviewQueue.Submit` | internal/agent/preview_queue.go:50-96 | Equal keys join one job; a full queue refuses exactly when nothing may be displaced; a job that a foreground request asked for keeps its mark and its outcome |
| `PreviewQueue.PreviewQueue.Victim` | internal/agent/preview_queue.go:67-76 | The newest queued optional job, if there is one |
| `PreviewQueue.PreviewQueue.Displace` | internal/agent/preview_queue.go:77-86 | The victim leaves queue and map and ends once |
| `PreviewQueue.PreviewQueue.Enter` | internal/agent/preview_queue.go:87-96 | The new job is listed and queued last, and a worker is running |
| `PreviewQueue.PreviewQueue.Pick` | internal/agent/preview_queue.go:133-161 | The worker stops exactly on an empty or closed queue, waits only for optional work, and takes the first foreground job or else the first |
| `PreviewQueue.PreviewQueue.Finish` | internal/agent/preview_queue.go:162-170 | The active job leaves the map and ends once |
| `PreviewQueue.PreviewQueue.Close` | internal/agent/preview_queue.go:225-248 | Every queued job ends canceled, once; the active one is left to its worker |
| `PreviewQueue.Enters` | internal/agent/preview_queue.go:50-96 | A new job keeps the invariant: the map lists exactly the queued jobs and the active one, each under its key, and a job is unfinished exactly as long as it is listed |
| `PreviewQueue.Leaves` | internal/agent/preview_queue.go:77-86 | A job that gets its outcome keeps the same invariant, and only an optional one may be displaced |
| `PreviewQueue.NextFirst` | internal/agent/preview_queue.go:140-147 | The job the worker takes is the head of the service order |
| `PreviewQueue.PreviewQueue.Serve` | internal/agent/preview_queue.go:133-171 | Left alone, the worker serves all foreground jobs in arrival order, then all others, and every one gets its generated outcome |
| `PreviewDisk.RecordExact` | internal/agent/preview_disk.go:203-221 | A read yields a body and type if and only if the file is exactly the record written for that key with them |
| `PreviewDisk.PreviewDisk.Remove` | internal/agent/preview_disk.go:313-321 | Bytes stay the sum of the entry sizes; a failed unlink leaves everything accounted for |
| `PreviewDisk.PreviewDisk.Prune` | internal/agent/preview_disk.go:300-312 | What should have gone and did not is what could not be unlinked; what went was used no later than what stayed; within the quotas only entries go that were not used for thirty days |
| `PreviewDisk.PreviewDisk.MakeRoom` | internal/agent/preview_disk.go:270-293 | Only least recently used other entries go, and afterwards the new entry fits; it gives up only on a failed unlink or an entry that can never fit |
| `PreviewDisk.PreviewDisk.Put` | internal/agent/preview_disk.go:231-298 | Quotas and accounting hold whatever fails; a published entry is the record just written; evicted entries were used no later than any other that stayed |
| `PreviewDisk.PreviewDisk.Get` | internal/agent/preview_disk.go:178-229 | Only the very record of the key is returned, and its use is put on disk when that is an hour old; a miss drops its entry |
| `PreviewDisk.PreviewDisk.Touch` | internal/agent/preview_disk.go:151-176 | Only the last use of one entry changes, on disk only in a new hour and for an unchanged file |
| `PreviewDisk.PreviewDisk.Recover` | internal/agent/preview_disk.go:94-129 | The index built from a directory holds usable files only, all of them if they fit the quotas, and is accounted for and within the quotas; the cache is off exactly with too many names or if the quotas cannot be met |
| `PreviewDisk.PutThenGet` | internal/agent/preview_disk.go:178-298 | A record just stored is read back with the same body and type unless input or output fails |
| `PreviewDisk.TotalWith` | internal/agent/preview_disk.go:313-321 | Adding or replacing an entry changes the sum by the difference in size |
| `ThumbnailCache.ThumbnailCache.Get` | internal/agent/thumbnail_cache.go:37-50 | The last admitted value of the key, moved to the front, or a miss |
| `ThumbnailCache.ThumbnailCache.Put` | internal/agent/thumbnail_cache.go:52-73 | The list becomes the longest prefix within the limit of the new entry followed by the others |
| `ThumbnailCache.FirstSurvives` | internal/agent/thumbnail_cache.go:52-73 | An admitted entry survives its own put |
| `ThumbnailCache.FittingIs` | internal/agent/thumbnail_cache.go:66-72 | Dropping from the back until the rest fits leaves the longest fitting prefix |
| `ProcessReads.ProcessReads.Enter` | internal/agent/process_reads.go:40-73 | A reader joins only an identical, unsealed, live observation with room; otherwise it is refused, or starts the only collector |
| `ProcessReads.JoinKeeps` | internal/agent/process_reads.go:50-54 | Joining keeps the invariant: the waiters of a call are its readers that have not left, at most eight, and each reader waits for its own query |
| `ProcessReads.LeaveKeeps` | internal/agent/process_reads.go:74-82 | Leaving keeps the same invariant, and a call without waiters is cancelled |
| `ProcessReads.ProcessReads.Finish` | internal/agent/process_reads.go:59-68 | The collector that returns was the only one |
| `ProcessReads.ProcessReads.Leave` | internal/agent/process_reads.go:74-87 | A reader leaves with the sample of its own query, from an observation that began after the last write boundary before its entry; nobody waiting cancels the call |
| `ProcessReads.ProcessReads.Seal` | internal/agent/server.go:1016-1023 | After a write boundary every observation that exists began before it, so later readers cannot join one |
| `ProcessReads.ProcessReads.Close` | internal/agent/process_reads.go:99-106 | Closing cancels the observation but leaves it to its collector |
| `LightFileStream.ReceivedPrefix` | cmd/kejilion-node/light_file.go:515-566 | Who has the first events of a stream has the first bytes of the body in order, at the right offsets; with the end event all of them |
| `LightFileStream.ResponseWriter.WriteHeader` | cmd/kejilion-node/light_file.go:515-530 | One response event opens the stream, at most once, with the given status or 500 for an impossible one |
| `LightFileStream.ResponseWriter.Write` | cmd/kejilion-node/light_file.go:532-555 | The bytes sent are exactly the part reported as written, none for HEAD; a stream not yet open is opened with status 200 first |
| `LightFileStream.ResponseWriter.Finish` | cmd/kejilion-node/light_file.go:557-566 | The end event closes the stream once, behind a response of status 200 if there was none |
| `LightFileRelay.LightFileControl.HandlerSend` | cmd/kejilion-node/light_file.go:568-578 | A stream event enters the channel of its session |
| `LightFileRelay.LightFileControl.QueueEvent` | cmd/kejilion-node/light_file.go:628-638 | A command result is queued exactly when there is room and the poll still fits |
| `LightFileRelay.LightFileControl.RememberCommandResult` | cmd/kejilion-node/light_file.go:602-613 | The log keeps the first result of the last 128 commands; its map keys are its queue |
| `LightFileRelay.LightFileControl.StartRequest` | cmd/kejilion-node/light_file.go:341-389 | The exact new state of every case: a live session, no room, a malformed request, a new session |
| `LightFileRelay.LightFileControl.WriteRequestBody` | cmd/kejilion-node/light_file.go:391-431 | A block is accepted exactly at the end of the body with no write in flight in a live session with an open body, and then it extends the accepted blocks; otherwise nothing changes |
| `LightFileRelay.LightFileControl.CollectBodyResult` | cmd/kejilion-node/light_file.go:433-470 | The write in flight is reported once; the offset moves over the whole block or the session is cancelled |
| `LightFileRelay.LightFileControl.AfterResult` | cmd/kejilion-node/light_file.go:441-467 | The session and the event after a write, in every case |
| `LightFileRelay.LightFileControl.CancelRequest` | cmd/kejilion-node/light_file.go:472-481 | The session leaves and the cancel is answered |
| `LightFileRelay.LightFileControl.Drain` | cmd/kejilion-node/light_file.go:580-589 | Events move from the channel to the session in order, as far as there is room |
| `LightFileRelay.LightFileControl.Expire` | cmd/kejilion-node/light_file.go:261-267 | Exactly the sessions whose context is done leave |
| `LightFileRelay.LightFileControl.CollectEvents` | cmd/kejilion-node/light_file.go:261-322 | An unacknowledged or full poll is offered again unchanged. Any other takes from every live session the first of the events it has, at most one, or two when it is the only one, except in the legacy mode; it stops only at 15 events (16 in the legacy mode) or when every session of the order has nothing, does not fit or has used its share; and if all fits and there is room, every session that has an event gets its first one in |
| `LightFileRelay.FirstTaken` | cmd/kejilion-node/light_file.go:280-313 | With any number of sessions and in every mode, if every poll fits and there is room, each visited session with waiting events gets its first one into the poll |
| `LightFileRelay.AloneTaken` | cmd/kejilion-node/light_file.go:280-313 | A session that is alone gives its next two events |
| `LightFileRelay.LightFileControl.Acknowledge` | cmd/kejilion-node/light_file.go:185-212 | Acknowledged are exactly the events with a receipt and no event of their request before them without one; their streams grow in order; exactly the sessions with an acknowledged end leave, delivered as EndAcked says |
| `LightFileRelay.LightFileControl.ReturnEvents` | cmd/kejilion-node/light_file.go:213-221 | Rejected events return in order to the front of their sessions, those of no session stay in the poll |
| `LightFileRelay.LightFileControl.AcceptRelayResponse` | cmd/kejilion-node/light_file.go:155-225 | A new epoch or a peer that stops sending receipts resets everything; otherwise the flow mode, the rejected events and every session are as specified and acknowledged streams only grow |
| `LightFileRelay.LightFileControl.HandleCommand` | cmd/kejilion-node/light_file.go:324-339 | A logged command changes no session, and its result is offered again exactly if there is room and it fits; a new one is refused, accepted or being written, with the answer put into log and poll that belongs to its case |
| `LightFileRelay.BlocksDisjoint` | cmd/kejilion-node/light_file.go:391-431 | Accepted blocks never overlap and leave no gap |
| `LightFileRelay.AcknowledgedPrefix` | cmd/kejilion-node/light_file.go:155-225 | What the node took as acknowledged is, in order, a prefix of what was in flight at the start followed by what the handler emitted |
| `LightFileRelay.ReusedId` | cmd/kejilion-node/light_file.go:341-389 | A run (emit, lost poll, expired session, request with the same id) in which the acknowledged end of the first stream deletes the second session, none of whose events was offered |
| `LightFileRelay.LoggedSince` | cmd/kejilion-node/light_file.go:602-613 | In every state of a run, with all its body and other commands, the last result of a command is still logged if and only if fewer than 128 new commands were logged since |
| `LightFileRelay.RedeliveredIff` | cmd/kejilion-node/light_file.go:324-339 | In every state of a run a request command that comes again is carried out again if and only if 128 or more new commands were logged since its result; its new session accepts a block exactly at the start of the body |
| `LightFileRelay.EndAcked` | cmd/kejilion-node/light_file.go:203-207 | A stream whose end is acknowledged was delivered whole if and only if no end of its request id was in flight when it started, and nothing else was delivered for it if and only if no stream event was; otherwise only leftover was acknowledged |
| `LightFileRelay.Run` | cmd/kejilion-node/light_file.go:75-128 | In every run of polls, losses, replies, commands, handler steps and resets, acknowledged streams are prefixes, body offsets count the accepted blocks, every session that left by an acknowledged end was delivered as EndAcked says, and the log is what the results since the last reset leave |
| `LightTerminal.FitOutputEvent` | cmd/kejilion-node/light_terminal.go:405-432 | The largest prefix of the output that fits the poll, or none if not even one byte fits |
| `LightTerminal.PollSizeIsBound` | cmd/kejilion-node/light_terminal.go:434-439 | A limit on the length of the encoded poll has the properties the fitting relies on: fewer sessions, no events or less data never need more room |
| `LightTerminal.StreamIntact` | cmd/kejilion-node/light_terminal.go:155-207 | Without truncation the queued outputs together are the terminal's bytes from the start of the session to its offset |
| `LightTerminal.EndsIs` | cmd/kejilion-node/light_terminal.go:170-200 | The end of a session is announced only together with its last byte |
| `LightTerminal.LightTerminalControl.QueueEvent` | cmd/kejilion-node/light_terminal.go:375-403 | An event is queued exactly if it fits; with a full queue a command result takes the place of the oldest output, exactly if the poll then fits |
| `LightTerminal.LightTerminalControl.CollectOne` | cmd/kejilion-node/light_terminal.go:149-206 | One read queues exactly what there is and what fits: nothing, the bytes that follow, or the end of the session, which then leaves |
| `LightTerminal.LightTerminalControl.NextOutput` | cmd/kejilion-node/light_terminal.go:168-206 | Of a live terminal the longest first part of at most 32 KiB that fits is sent, and nothing exactly if there is nothing new or not even one byte fits; the end of the session is kept back while bytes are left |
| `LightTerminal.LightTerminalControl.CollectScreen` | cmd/kejilion-node/light_terminal.go:168-206 | That event is queued, and the session moves on to its end or leaves with it |
| `LightTerminal.LightTerminalControl.CollectEvents` | cmd/kejilion-node/light_terminal.go:137-208 | The sessions and the events of every poll fit the limit; if everything fits and there is room, every session with something new has output in the poll |
| `LightTerminal.LightTerminalControl.AcceptRelayResponse` | cmd/kejilion-node/light_terminal.go:109-127 | An answered poll delivered everything; a new epoch starts over |
| `LightTerminal.LightTerminalControl.RememberCommandResult` | cmd/kejilion-node/light_terminal.go:359-373 | The log keeps the first result of the last 128 commands; its map keys are its queue |
| `LightTerminal.LightTerminalControl.OpenSession` | cmd/kejilion-node/light_terminal.go:238-262 | A session that cannot be announced is closed again |
| `LightTerminal.LightTerminalControl.ExecuteCommand` | cmd/kejilion-node/light_terminal.go:232-318 | A repeated command is answered from the log; a new one has exactly the result and the sessions its case demands, and the result is logged and queued if it fits |
| `LightTerminal.LightTerminalControl.Turn` | cmd/kejilion-node/light_terminal.go:45-107 | No turn of the control loop displaces a pending output, so that branch of the queue is never taken |

## Left out

- HTTP handlers, the Noise transport, SQLite, authentication and configuration: their results enter as parameters or as steps that may fail.
- EncodedCredential: decoding and encoding JSON strings is a parameter (`Codec`) about which nothing is assumed, so the results hold for every decoder; `DecodedTokenHidesKey` asks that decoding inverts encoding.
- NestedCredential: what \uXXXX stands for is a parameter; bytes beyond ASCII stand for themselves, as they do in valid UTF-8, which the decoder would otherwise repair.
- SessionHistory: every stored row has its own time, so that rows of one millisecond are not modelled; the checkpoints of a draft are one row at its end; deleting a session ends its history.
- LightFileRelay and LightTerminal: whether a poll fits is a parameter; for LightTerminal it must not need more room for fewer sessions, less data or an event that ends nothing, which `PollSizeIsBound` proves of the encoded length.
- LightFileRelay: the visiting order of the sessions is a parameter and its fairness is not modelled; reconnect delays and the session time limit appear only as a context that may end at any step.
- LightFileRelay: relay replies are already decoded into markers and receipts.
- LightTerminal: terminal managers are snapshots that only grow; closing terminals and the sorted visiting order are not modelled.
- ContextSnapshot: the text of summaries, attachment hydration and required attachments; the length of a summary is a parameter.
- ContextSnapshot: the two limits of the window are exact fractions; in binary floating point they can come out lower by one.
- ContextSnapshot and ContextBudget: message ids are their order among equal times.
- RunOwnership: the worker semaphore, the wait group of shutdown and the work inside the loop; each store access is a step that succeeds or fails.
- EventHub: `ProjectLiveMessage`, which selects the history page around a live message.
- HistoryRebuild: redaction is a parameter, and the flag for required attachments is not carried.
- ResponsesInput: decoding provider data is a parameter; item ids for providers that need them, tools and reasoning options are not modelled, nor are the Chat, Anthropic and Gemini forms.
- JsonBudget: the digits of numbers are those both sides print; map entries stand in iteration order; reflection over types is replaced by a datatype of shapes.
- JsonBudget.JsonSizeBudget.RawMessage: the token scan that admits a raw message is a parameter, so which texts it admits is not stated.
- AttachmentReader: Base64 decoding itself, which only sees the view.
- PreviewQueue: generating an image is a function; timers are the flag `quiet`.
- PreviewDisk: SHA-256 is a function with 32-byte results; temporary files, permissions and locks enter as flags, and a failed rename changes nothing.
- ProcessReads: the three-second limit is the flag `expired`.
- ThumbnailCache: the linked list is a sequence, so the cost of moving an element is not captured.
- Image decoding, prompt texts, provider error parsing, event-stream parsing and learning proposals.
