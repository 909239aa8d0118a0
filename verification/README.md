# Verified model of a yuanyi hub and its gateway

This project models, in Dafny, the stateful core of yuanyi, a peer-to-peer gateway that shares GPU
inference across machines, and proves properties of that model. `dafny verify dfyconfig.toml` checks
everything.

What is modelled:

- **The hub's peer cache over SQLite.** `PeerState` gives every cache operation as a function on the
  live map, the queue of audit events and the set of pending deletes; `PeerCacheStore.PeerCache` is
  the mutable class; `PeerDatabase` is the peers table (NULL columns included), the audit log and the
  atomic batch transaction; `SqlReplica` is the older path of one SQL statement per event.
  `WriteBehind` is the flush protocol as a state machine in which any operation may land between
  the copy, the commit and the drain, and any commit may fail. `PeerCacheStore.PeerCache.Flush` is
  that machine's three phases with nothing in between, and `FlushRefinement` runs the objects through
  the machine's steps in any interleaving.
- **What is computed from the cache.** `Ranking` (snapshot order and prefill/decode split),
  `Contribution` (score and credits), `Provenance` (address and role), `BootMerge` (bulk loading),
  `Convergence` (several hubs), `Health` (ping history), `HubEvents` (the two runtime entry points)
  and `HubProxy` (the hub's dispatcher: backend lists, round robin, credits of a request).
- **The local-first dispatcher.** `Dispatcher` is a concurrent machine with one program counter per
  request and arbitrary interleaving; `DispatchSchedules` says what the worst schedule can do to a
  request; `DispatchProvenance` says what must have happened before a request answers or gives up;
  `LocalDispatch` is the handler in its sequential form, proved to
  be that machine run alone.
- **Two printer/parser pairs.** `GpuSummary`, `GpuRoundTrip` and `GpuReport` (the GPU
  report, its summary string and the hardware score), `ChatMarkdown`, `ChatScanners`, `ChatShapes` and
  `ChatRoundTrip` (chat sessions as Markdown).
  Regular expressions are hand-written scanners over characters.

Conventions. Scores are `real`, counters are unbounded integers, strings are sequences of code points.
The clock, the network, JSON, libp2p's peer-ID decoder, the GPU specification database and the base64
codec are parameters. Map and set iteration order is arbitrary everywhere.

## Guards and findings

- **One flush at a time.** Nothing in the code keeps two flushes apart: the flush at shutdown
  (`app.go:113-117`) and the one after a statistics reset (`server_web.go:148-155`) can overlap the
  periodic one. `WriteBehind` assumes one flush in flight. For two flushes that copied the cache at
  different times, `FlushOverlap` proves, for either order of their commits and of their drains and
  with operations anywhere in between, exactly when no row is orphaned, and for either order of the
  commits exactly when the audit log stays exact. A stale commit after a reset always writes the old
  totals back (`FlushOverlap.StaleCommitUndoesResetIff`).
- **Loading.** `LoadSnapshot` does not cancel pending deletes, so it is enabled only while there are
  none, which is how the code uses it (at boot).
- **Two-stage dispatch without a prefill count.** With `prefill_nodes` zero and `decode_nodes`
  positive no prefill backend is ever chosen (`HubProxy.SplitUnavailableIff`,
  `HubProxy.ProxyServer.ReloadBackends`), and with an empty list every request is answered 503 at its
  first attempt (`HubProxy.ProxyServer.HandleProxyRequest`).
- **Overlapping health checks** of one peer can lose a count or a penalty point;
  `Health.OverlappedChecksIff` says exactly for which stored counts and limits, for each pair of
  outcomes.
- **Peer IDs of less than eight bytes** make the dispatcher's handler panic while logging
  (`proxy.go:675`, `proxy.go:728`), and the client gets no response. `DispatchSchedules.PanicIff` says
  exactly which requests can meet that fate. Such an ID is rare: a broadcast with one is recorded
  (`p2p.go:1101`) by a goroutine that soon afterwards abbreviates the same ID itself (`p2p.go:1162`
  at the latest) and takes the process down, so the handler has to read the list in between; in
  the two-stage mode the IDs are whatever the hub's topology lists, unchecked (`proxy.go:115-127`).
- **"Every known node is tried"**, as the comment at `proxy.go:654-656` has it, holds for a request
  whose draws are not interleaved with others (`Dispatcher.GivesUpOnlyWhenExhausted`). Under every
  schedule it holds exactly for a request that knows at most one peer
  (`DispatchSchedules.MissesAPeerIff`).
- **Prompt plus completion tokens** can exceed the total after a boot merge
  (`Contribution.MergeKeepsSplitIff`).
- **Attached images** with subtype "jpg", with capitals or with punctuation do not come back from a
  saved chat as they went in (`ChatRoundTrip.AttachedImageIff`).

## Model

| member | source | states |
|---|---|---|
| `WriteBehind.CrashRecoversPrefix` | peer_cache.go:292-326 | in every reachable state the table and the audit log together equal the live map and the full list of queued events at one instant of the history, the copy instant of the last flush that got through, and a warm start from the table recovers exactly that map |
| `WriteBehind.PersistedIsSqlPrefix` | peer_cache.go:15-21 | what is persisted is also what the per-event SQL path would have written for that prefix of the history |
| `WriteBehind.NothingLostOrOrphaned` | peer_cache.go:120-129 | live IDs and pending deletes are disjoint, every row is one or the other, and the log followed by the uncommitted queue is every event ever queued, once and in order |
| `WriteBehind.CutOnlyAdvances` | peer_cache.go:315-317 | the durable instant never moves back; a failed commit changes neither store |
| `WriteBehind.QuietFlush` | peer_cache.go:298-326 | an undisturbed successful flush from any reachable idle state leaves the table equal to the cache and both queues empty |
| `WriteBehind.SkipInv` | peer_cache.go:311-313 | the early return on an empty snapshot is sound: the table has no rows then |
| `WriteBehind.CommitInv` | server_db.go:365-436 | deletes, then upserts, then events, written while the cache has moved on, keep the invariant |
| `WriteBehind.MutateInv` | peer_cache.go:52-129 | any operation landing in any flush phase keeps the invariant |
| `FlushOverlap.OverlapKeepsLogIff` | peer_cache.go:304-321 | with events queued between and after the two copies, the exact condition, for either commit order, under which both drains stay within the queue and log plus queue are every event once and in order |
| `FlushOverlap.StaleCommitHarmlessIff` | peer_cache.go:298-326 | if the older copy commits last, whatever operations came between the copies, before and between the drains, and whichever drain comes first: the exact condition under which no row is orphaned, and the table stays the newer copy exactly when the older peers' rows were all there unchanged and no peer pending deletion had come back |
| `FlushOverlap.InOrderCommitsHarmlessIff` | peer_cache.go:298-326 | if the commits come in the order of the copies the table is the newer copy, and, again with operations anywhere and the drains in either order, the exact condition under which no row is orphaned: it concerns only peers pending deletion at the older copy and back at the newer one |
| `FlushOverlap.StaleCommitOrphansIff` | peer_cache.go:124-129 | if one peer was removed in between, its row comes back orphaned exactly when it had been live |
| `FlushOverlap.StaleCommitUndoesResetIff` | server_web.go:148-155 | if the statistics were reset in between, the stale commit writes the old totals back, harmlessly only if there was nothing to reset |
| `PeerDatabase.FlushRowsIsListed` | server_db.go:376-416 | a batch over a table whose keys are all listed or deleted leaves exactly the listed map |
| `PeerDatabase.DBManager.BatchFlush` | server_db.go:365-436 | one transaction: all of deletes, upserts and events, or nothing |
| `PeerDatabase.DBManager.GetAllPeers` | server_db.go:349-357 | lists every row once through the NULL-tolerant projection, except rows whose remaining columns are NULL, which the scan drops |
| `SqlReplica.StepReplicates` | server_db.go:162-337 | reading the table back after an event's statements gives the cache operation's result |
| `SqlReplica.RunReplicates` | server_db.go:162-337 | for every history the in-memory map equals the row map of the per-event path and the log grows by the same events |
| `PeerCacheStore.PeerCache.UpsertGossip` | peer_cache.go:52-92 | is the gossip operation; reports whether the peer was unknown |
| `PeerCacheStore.GossipMerges` | peer_cache.go:52-92 | a broadcast sets telemetry, role, endpoints and ping time, the address only until a connection was seen, moves requests, tokens and score only upwards, and keeps every other field |
| `PeerCacheStore.PeerCache.UpsertConnection` | peer_cache.go:98-118 | sets the address, marks it verified, notes the time and changes nothing else; an unknown peer starts empty; a pending delete is cancelled |
| `PeerCacheStore.PeerCache.RemovePeer` | peer_cache.go:124-129 | is the removal operation |
| `PeerCacheStore.PeerCache.IncrementTokensDetail` | peer_cache.go:185-203 | a cached peer gains the requests (at least one), the tokens on both sides and their sum, and 10 points a request and one per ten tokens; nothing else changes |
| `PeerCacheStore.PeerCache.IncrementContribution` | peer_cache.go:167-183 | likewise for tokens of unknown side |
| `PeerCacheStore.PeerCache.ResetStats` | peer_cache.go:214-225 | every cumulative column of every cached peer is zero afterwards, every other field and the set of peers is as before, and the peers are counted |
| `PeerCacheStore.PeerCache.LoadSnapshot` | peer_cache.go:258-290 | is the bulk merge, entry by entry |
| `PeerCacheStore.PeerCache.Snapshot` | peer_cache.go:234-248 | the result ranks the live map and is the only list that does |
| `PeerCacheStore.PeerCache.TakeForFlush` | peer_cache.go:299-309 | copies every row, event and pending delete |
| `PeerCacheStore.PeerCache.DrainFlushed` | peer_cache.go:319-324 | is the machine's drain: exactly the committed events and deletes go |
| `PeerCacheStore.PeerCache.Flush` | peer_cache.go:298-326 | success makes the table read back as the live map and empties the queues into the log; failure changes nothing |
| `PeerCacheStore.PeerCache.ResetAndFlush` | server_web.go:148-155 | after a reset and a flush that gets through, every row of the table reads back with zero columns and its other fields as they were |
| `FlushRefinement.FlushingHub.PerformAll` | peer_cache.go:298-326 | the cache and database objects, used in any interleaving of operations and flush phases with commits failing at will, stay in a state of the machine, so the database holds the outcome of a prefix of the operations, nothing queued is lost or doubled and no row is orphaned |
| `FlushRefinement.FlushingHub.Write` | peer_cache.go:311-317 | the transaction on the objects is the machine's skip, commit or failure |
| `FlushRefinement.FlushingHub.Persist` | peer_cache.go:386-388 | persisting a fetched snapshot at boot is the machine's seed step |
| `PeerState.LoadListing` | app.go:54-56 | warm-starting from any listing of a table rebuilds its map |
| `Contribution.SoundRun` | peer_cache.go:78-89 | for every history of nonnegative inputs, max(10*requests, tokens/10) <= score <= 10*requests + tokens/10, and in and out never exceed the total |
| `Contribution.MergeBreaksSplit` | peer_cache.go:265-279 | two sound entries whose merge has in + out above the total |
| `Contribution.MergeKeepsSplitIff` | peer_cache.go:265-279 | merging keeps in + out within the total, whatever the totals, exactly when neither column crosses |
| `Contribution.LoadKeepsSplitIff` | peer_cache.go:258-290 | loading a whole list keeps a peer's in + out within its total, whatever the totals, exactly when one of its old row and entries leads in both columns |
| `Contribution.CrossingFreeKeepsSplit` | peer_cache.go:258-290 | a list without crossings keeps the split |
| `Contribution.SplitRun` | peer_cache.go:185-203 | without boot merges in + out <= total survives every history |
| `Contribution.TotalsCoverLedger` | peer_cache.go:167-203 | a live peer's totals are never below its credits since its last insertion or reset |
| `Contribution.TotalsEqualLedger` | peer_cache.go:167-203 | between broadcasts, merges, resets and removals, totals and score move by exactly the credits |
| `Provenance.RowComesFromLifetime` | peer_cache.go:52-118 | a peer inserted at runtime is live exactly when it connected or broadcast since its last removal; its address is that of the last connection, else of the last broadcast; role, telemetry and endpoints are those of the last broadcast |
| `BootMerge.LoadIsMaximum` | peer_cache.go:258-280 | every cumulative column after a load is the maximum over the old row and all loaded entries |
| `BootMerge.LoadOrderIrrelevant` | peer_cache.go:284-290 | order and repetition of entries do not matter to keys or cumulative columns |
| `BootMerge.LoadGrouping` | peer_cache.go:284-290 | loading in batches is loading the concatenation |
| `BootMerge.LoadKeepsKnown` | peer_cache.go:250-280 | a known peer loses nothing and keeps every other field |
| `Convergence.ColumnsAreMaxima` | server_p2p.go:67-90 | each keep-max column is the maximum over the broadcasts heard, floored at zero |
| `Convergence.HubsAgree` | server_p2p.go:67-90 | hubs that heard the same broadcasts in any order and with any repetition agree on every keep-max column |
| `Convergence.HubsAssignAlike` | server_proxy.go:88-155 | if the last broadcasts agree too, they compute the same prefill and decode assignment |
| `Ranking.RankingUnique` | peer_cache.go:227-248 | the score-then-ID ordering of a map is one list, whatever the iteration order |
| `Ranking.RankingDetermined` | peer_cache.go:241-246 | it depends on IDs and scores alone |
| `Ranking.RankedIff` | peer_cache.go:241-246 | a ranking goes down in score and, among equal scores, up in peer ID |
| `Text.BeforeIff` | peer_cache.go:245-245 | IDs compare by their first difference, a proper prefix first |
| `Ranking.SplitServes` | server_proxy.go:98-116 | no relay-only, GPU-less or undecodable peer is ever picked |
| `Ranking.UsableIff` | server_proxy.go:105-116 | exactly the peers whose role is not "relay" and whose stored summary is not "No GPU Detected" are usable |
| `Ranking.SplitMembersIff` | server_proxy.go:121-150 | exactly the decodable ones of the first prefill_nodes usable peers prefill, and without a cap exactly the other decodable ones decode; an empty decode side is the prefill side again |
| `Ranking.SplitSeparates` | server_proxy.go:121-150 | with dedicated roles the sides are capped and disjoint, every prefill peer outranks every decode peer, and nobody is dropped unless the decode cap is full |
| `HubProxy.ProxyServer.ReloadBackends` | server_proxy.go:88-155 | installs the split of the usable peers, with the fallback, and keeps the old lists when there is none; with decode nodes but no prefill nodes an empty prefill list stays empty |
| `HubProxy.ProxyServer.SplitLoop` | server_proxy.go:121-146 | the index-switch loop equals the closed form |
| `HubProxy.SplitUnavailableIff` | server_proxy.go:121-150 | with dedicated roles one of the lists comes out empty exactly when none of the first prefill_nodes usable peers is decodable |
| `HubProxy.BackendsCarry` | server_proxy.go:124-130 | each backend has its peer's own ID, address, bootstrap address and engine |
| `HubProxy.ProxyServer.HandleProxyRequest` | server_proxy.go:232-321 | all attempts but the last are in vain and the last decides: 503 exactly if it had no backends, 499 exactly if the client left, 200 exactly if it was served, 502 if all three were in vain; the credits are those of the attempt that ended in 200, to the backends its index picked from the lists of that moment, and none otherwise, whatever others do to cache, lists and index |
| `HubProxy.DecidesMeans` | server_proxy.go:303-321 | no attempt before the deciding one was served or abandoned, 502 means none was served, and an empty list at the first attempt is answered 503 at once |
| `HubProxy.ProxyServer.DispatchPDTogether` | server_proxy.go:325-371 | one round-robin attempt: 503 exactly without backends, 499 exactly for a client that left, 200 exactly for a served reply, with its credit |
| `HubProxy.ProxyServer.DispatchPDSplit` | server_proxy.go:374-458 | one two-stage attempt: 503 exactly when a list is empty, 499 exactly for a client that left at either stage, 200 exactly when both stages served, with its two credits |
| `HubProxy.TogetherCreditsOnce` | server_proxy.go:352-365 | one request for the serving backend, with the reply's own two counts, 20 and 30 only if it reports neither, 50 tokens if it cannot be parsed; nothing for anybody else |
| `HubProxy.SplitCreditsBoth` | server_proxy.go:437-452 | one request each; the reply's prompt count (or 20) to the prefill peer and its completion count (or 80) to the decode peer, in their own column and total; both to one peer that is both |
| `HubProxy.ProxyServer.PickMany` | server_proxy.go:332-333 | any number of picks draw exactly the index sequence `Picks` |
| `HubProxy.PicksAreFair` | server_proxy.go:332-333 | in that sequence, from any start and however requests interleave, two backends' counts differ by at most one |
| `Health.HealthIsHistory` | server_p2p.go:162-206 | the stored fail count is min(trailing failures, limit - 1), the penalty grows by one per recovery, and the audit log replays to the stored pair |
| `Health.OverlappedChecksIff` | server_p2p.go:154-206 | for each pair of outcomes, two checks handed the same row store the same fail count and penalty as one after the other exactly under a condition on the stored count and the limit |
| `HubEvents.ServerProcessGossipMessage` | server_p2p.go:72-90 | a broadcast without a name changes nothing; any other is merged, stored with its GPUs filled in, logged as JOIN exactly for an unknown peer, and the dispatcher's backends are then those of the new map |
| `HubEvents.PingOnePeer` | server_p2p.go:162-206 | one check issues exactly the operations of its outcome |
| `HubEvents.CheckMeans` | server_p2p.go:180-206 | an answer sets the ping to OK and turns failures into one penalty point with a RECOVERED_PENALTY event; a failure is counted with FAIL_INCREMENT, or only reported with WARNING_OFFLINE when it would reach the limit (3 by default); other rows are untouched |
| `HubEvents.EntriesFilledIn` | server_p2p.go:77-81 | a broadcast that lists GPUs is stored as it is, one that does not gets what its summary names |
| `Dispatcher.SlotIsExclusive` | proxy.go:631-634 | under any interleaving localBusy is true exactly when one request is inside the slot-held local section |
| `Dispatcher.OnlyHolderReleases` | proxy.go:631-634 | only the request inside the slot gives it back |
| `Dispatcher.OneResponse` | proxy.go:554-814 | a finished request has written exactly one response, an unfinished attempt or a panicked handler none |
| `Dispatcher.RequestTerminates` | proxy.go:554-814 | a request takes a bounded number of its own steps and is never blocked by others |
| `Dispatcher.GivesUpOnlyWhenExhausted` | proxy.go:657-698 | the dispatcher's own 502 comes only from the local last resort, not ready or not answering, after all remote attempts; with uninterleaved draws every known peer was tried |
| `DispatchProvenance.TwoStageAnswers` | proxy.go:704-814 | under any interleaving a two-stage request passes an answer on only after prefill and then decode of one and the same attempt were answered, or the local vLLM was; it fails only when the local vLLM was not ready or did not answer, with 503 on an empty list and 502 after three failed attempts; stages on this node are sent only after a ready check |
| `DispatchProvenance.TogetherAnswers` | proxy.go:601-699 | a PD-together request passes an answer on with its own status and only from the exchange just made; the local vLLM comes first, by the slot whenever it is ready and free, and other nodes only when that failed, was impossible, or (with peers) was taken |
| `DispatchProvenance.ReadinessFallsIff` | proxy.go:433-439 | a step takes vLLM's readiness away exactly when it is an exchange with this node's vLLM that could not reach it |
| `DispatchProvenance.CandidatesAre` | proxy.go:606-626 | exactly the known nodes with a name, other than this one, not relay-only and not GPU-less are candidates |
| `DispatchSchedules.PanicIff` | proxy.go:660-728 | in any reachable state, a request about to arrive panics under some schedule exactly when it may have to abbreviate an ID of less than eight bytes: one of its peers, or in two-stage mode the first prefill or some decode backend with neither list empty |
| `DispatchSchedules.ShortNamePanics` | proxy.go:675-675 | a run from a fresh dispatcher to the panic, with no response written |
| `DispatchSchedules.MissesAPeerIff` | proxy.go:654-698 | in any reachable state, a PD-together request about to arrive gives up under some schedule without having tried every peer it knew exactly when it knows two different ones, one of them loggable |
| `Dispatcher.StepsCover` | proxy.go:657-667 | stepping by one through n indices at least n times meets every index |
| `LocalDispatch.LocalDispatcher.HandleTogether` | proxy.go:601-699 | the sequential handler is the machine run alone, restores the slot, sends the client exactly one status line, the machine's, with exactly the body of the exchange it came from (or the dispatcher's own message), nothing if it panics, and gives up only after trying every peer |
| `LocalDispatch.LocalDispatcher.ProxyToLocal` | proxy.go:411-474 | a failed local call has sent the client nothing, a successful one exactly vLLM's status and body, and an unreachable vLLM loses its readiness |
| `LocalDispatch.LocalDispatcher.StreamToPeer` | proxy.go:208-298 | a failed attempt, a 5xx answer included, has sent the client nothing; a successful one exactly the peer's status and body |
| `GpuSummary.GetGPUTelemetry` | sys.go:275-369 | the summary prints each model's count in some order, the total is the sum over all cards, and the other columns are combined over all rows |
| `GpuReport.RowReads` | sys.go:305-319 | which of the ten columns is what: name and total memory make the card, the other eight the reading, blanks around them ignored |
| `GpuReport.ShortRowReads` | sys.go:306-308 | a row with fewer than ten columns is passed over |
| `GpuReport.ReportReads` | sys.go:297-323 | a report printed from any cards reads back as exactly those cards, in order, with the sum of their memory |
| `GpuSummary.GaugesArePeaks` | sys.go:326-344 | combined utilisation, temperature, fan and power are the peaks over the rows, floored at zero |
| `GpuSummary.UsedIsSum` | sys.go:319-324 | combined memory in use is the sum over the rows, and the driver is that of the last row |
| `GpuSummary.ParseSummaryGPUs` | server_p2p.go:97-130 | accumulates the matches in first-seen order |
| `GpuReport.MatchIs` | server_p2p.go:94-94 | whatever the scanner finds is name, bracketed size and count in the shape of the pattern |
| `GpuReport.NameByCode` | server_p2p.go:94-94 | a model name may have every character but comma, semicolon, brackets and line break |
| `GpuReport.TailReads` | server_p2p.go:94-94 | everything of that shape behind a name is read: blanks where allowed, MB in either case or left out, all ways of writing the count |
| `GpuReport.TalliedIff` | server_p2p.go:104-127 | each ID gets one entry whose number is the sum over the parts that name it |
| `GpuReport.CountReads` | server_p2p.go:112-119 | a count too large for 64 bits counts as one |
| `GpuReport.SummaryText` | sys.go:346-355 | how the parts of a summary are spelled and separated |
| `GpuSummary.CalculateScore` | server_rank.go:281-333 | scores a decoded broadcast, or raw text, with every fallback |
| `GpuRoundTrip.SummaryRoundTrip` | sys.go:346-355 | for clean model names and any sizes, printing the counts in any order and parsing gives each model once with exactly its count |
| `GpuRoundTrip.SummaryMatches` | server_p2p.go:94-98 | the scanner finds one match per printed part |
| `GpuRoundTrip.ScoreIsTotalMemory` | server_rank.go:313-332 | for cards above 1024 MB the hub scores a printed summary, as sent or as stored with its GPU list, at exactly 300 * total MB / 1024 |
| `GpuRoundTrip.ScoreTelemetry` | server_rank.go:313-332 | from nvidia-smi text with clean, sized rows to the hub: a broadcast with the telemetry's summary scores 300 per GB of the telemetry's own total |
| `GpuReport.ScoreReport` | server_rank.go:313-332 | from a printed report of any cards above 1024 MB: the node's total is their sum and the hub scores 300 * sum / 1024 |
| `GpuReport.EntryScores` | server_rank.go:313-330 | one listed entry scores 300 per GB and card, 16 GB when no capacity is known, at least one card |
| `GpuReport.ScoreFloors` | server_rank.go:293-335 | relay-only and GPU-less nodes score nothing, everybody else something, a broadcast naming no card as much as one of 16 GB |
| `GpuReport.KnownModelIs` | server_rank.go:183-216 | the first known model name that occurs decides the capacity |
| `GpuReport.GigabytesRead` | server_rank.go:204-208 | a figure in GB behind a plain name is the capacity |
| `GpuReport.NameLookedUp` | server_rank.go:210-215 | without a size or a figure in GB the upper-cased name is looked up |
| `GpuReport.UpperIs` | server_rank.go:210-210 | letter by letter, by code point |
| `GpuReport.SizeReads` | server_rank.go:194-202 | a bracketed size, with or without MB, reads as MB above 1024 and as GB up to there |
| `ChatRoundTrip.SessionRoundTrip` | chat_history.go:118-292 | reading back what was written returns the same title, model and messages, for any number of messages and images, whatever files were there before |
| `ChatShapes.LineImageIff` | chat_history.go:215-222 | a line is taken for an image exactly when it is an image line with a trusted reference, and otherwise stays text |
| `ChatShapes.ResolvesIff` | chat_history.go:176-193 | a reference is trusted exactly when it is a link or names an existing file in the shape the writer makes up; it then stands for itself or for that file's bytes |
| `ChatShapes.SubtypeIs` | chat_history.go:187-191 | the extension is the image subtype, "jpg" being "jpeg" |
| `ChatShapes.PathsAreNotTrusted` | chat_history.go:66-76 | a reference that starts with a dot or a slash is never trusted |
| `ChatShapes.DataURLIff` | chat_history.go:81-81 | exactly which URLs are base64 images, and their subtype and payload |
| `ChatShapes.ImageCases` | chat_history.go:140-160 | what each kind of attached image leaves in the file |
| `ChatShapes.DecodedParts` | chat_history.go:94-114 | texts run together, image URLs in order, other parts ignored |
| `ChatShapes.FileOfText` | chat_history.go:118-170 | the file of a session of one text message, piece by piece |
| `ChatShapes.PiecesOfFile` | chat_history.go:127-137 | front matter, title, markers, headings and image lines character by character |
| `ChatShapes.FileOfImage` | chat_history.go:132-167 | the part of an answer with one attached image |
| `ChatShapes.ClassesByCode` | chat_history.go:64-81 | the character classes of the patterns by code point |
| `ChatRoundTrip.AttachedImageIff` | chat_history.go:140-193 | an attached canonical base64 image comes back as itself exactly when its subtype is lower-case letters and digits other than "jpg" |
| `ChatRoundTrip.MessagesCut` | chat_history.go:280-289 | the file is cut into segments exactly where messages begin |
| `ChatRoundTrip.MessageReads` | chat_history.go:197-241 | parsing a message's segment gives the message back |
| `ChatRoundTrip.MessagesKeep` | chat_history.go:153-162 | later images never overwrite earlier ones of the same session |
| `ChatShapes.MarkerIff` | chat_history.go:79-79 | a marker is found exactly where text of that shape begins |
| `ChatShapes.UncutIff` | chat_history.go:280-289 | a text is left whole exactly when no line of it begins with a marker |
| `ChatScanners.MarkerInside` | chat_history.go:79-79 | whether a marker starts in a text does not depend on what follows the text's end |
| `ChatScanners.CutText` | chat_history.go:280-289 | a text without a marker of its own is passed over whole |
| `ChatShapes.FrontMatterIff` | chat_history.go:78-78 | a model is read exactly from first lines of that shape |
| `ChatScanners.ModelIsRead` | chat_history.go:78-78 | the model is read back from the front matter whatever non-blank text it is |
| `ChatShapes.TitleIs` | chat_history.go:269-278 | the title of any file is its first level-one heading, and empty if a bare "#" comes first or there is none |
| `ChatScanners.TitleIsRead` | chat_history.go:269-278 | the title is read back, the empty one included |
| `ChatMarkdown.ChatStore.WriteChatSessionMarkdown` | chat_history.go:118-170 | writes the rendered session and its image files, an image that cannot be written losing its line but not its number; an invalid id, a missing directory or a failed write is an error that leaves the old document |
| `ChatMarkdown.ChatStore.ReadChatSessionMarkdown` | chat_history.go:246-292 | parses the stored file, or reports that there is none |
| `ChatMarkdown.ChatStore.ParseChatMessageSegment` | chat_history.go:197-241 | the line loop of a message segment |
| `Text.TrimAround` | chat_history.go:222-222 | trimming strips exactly the blank surroundings of a trimmed text |
| `ChatShapes.SpaceByCode` | chat_history.go:222-222 | which characters trimming strips, by code point |
| `ChatShapes.TrimCRIs` | chat_history.go:270-270 | carriage returns at a line's end go, and nothing else |
| `Text.WidthByCode` | proxy.go:675-675 | how many bytes a character of an ID takes |
| `Text.AtoiReads` | sys.go:312-312 | digits with an optional sign read as their number, and saturate with an error beyond 64 bits |
| `Text.AtoiRejects` | sys.go:312-312 | nothing else reads as a number |
| `Text.JoinSplit` | chat_history.go:201-222 | splitting into lines and joining them again is the identity |

## Left out

- libp2p, DHT, GossipSub delivery, relays, NAT and stream I/O: the environment delivers arbitrary messages and outcomes.
- SQL text and SQLite errors: the table is a row map, a transaction commits or fails as a whole.
- HTTP, JSON and SSE bodies: an exchange is an outcome with optional usage; re-encoding a decoded request cannot fail.
- Real time: last_ping values and timestamps are opaque strings; tickers, sleeps and the 90-second peer window are not modelled.
- Floating-point rounding of scores, and overflow of 64-bit counters.
- Overlapping flushes as part of the main machine: `FlushOverlap` covers two of them separately, not three.
- The hub's 128-slot semaphore: it only delays requests.
- Dispatcher and WriteBehind are machines on values rather than classes, because their steps interleave; `LocalDispatch` and `PeerCacheStore` give the sequential code its mutable form for the PD-together handler and the cache. The two-stage handler has only the machine form.
- Message wording of audit events; the detail column is empty in the model.
- Rows that the scan drops are kept apart from the table the machine speaks of: such a row, left by an older version, stays until its peer is written or deleted.
- HubProxy.ProxyServer.HandleProxyRequest: the two credits of a two-stage attempt land together, nothing between them.
- `matchGPUSpec` and the specification database: an arbitrary partial function from entry IDs to capacities, not needed once the ID carries a size.
- The session list and chat deletion.
- Invalid UTF-8 and letters outside ASCII in case folding.
- Base64 itself: an arbitrary pair of functions; canonical means that decoding and encoding again gives the same text.
- The TUI, the web pages, the process runner, the KV tunnel, the install scripts and configuration editing.
