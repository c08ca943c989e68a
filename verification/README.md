# Host-chain following, from the notifier to the RPC client

A Dafny model of the part of the Signet node that follows a host chain and survives its reorganisations, with
proofs. Four layers, each with a simple specification that the incremental code has to meet:

1. **Notifiers.** `RpcHostNotifier` walks parent hashes back to a bounded view of recent blocks and emits commits and
   reorgs; when the walk leaves the view it clears it and backfills by number. `RethHostNotifier` drains the host
   node's database and then hands over to live notifications. Specification: a *consumer* that replays notifications
   (append on commit; truncate at the first reverted block, then append, on reorg) holds one hash-linked chain.
2. **Node.** `SignetNode` executes host blocks into rollup blocks, unwinds on reverts, keeps the block tags and
   broadcasts events. Specification: storage is the *fresh sync*, a fold of the processor over the host chain.
3. **Filters and subscriptions.** Polled filters reconstruct removed logs from a ring of 25 reorgs; subscriptions are
   told of them at once. Specification: the client holds the *matching logs of the canonical chain*.
4. **Fees.** The gas oracle and the fee-history reward walk. Specification: a rank of a multiset, and the textbook
   gas-weighted percentile.

The host is an immutable tree of blocks (hash to number, parent, timestamp) and, for each provider request, an
arbitrary canonical chain of that tree: the chain may change between any two requests, and requests may fail or miss.

## How it is organised

Code that changes things in place is a class whose methods are proved equal to specification functions on the
object's abstract state; lemmas about those functions then cover whole runs, and say what each function computes in
terms of the inputs, the answers and the state alone, so that no part of a result rests on a function's own body.

| part | in place | specification | results |
|---|---|---|---|
| RPC notifier | `RpcHostNotifier.dfy` | `Host`, `HostProvider`, `Follower` | `FollowerRuns`, `ViewRuns`, `TagRuns`, `ChainBreaks`, `WalkDecision`, `HeadOutcomes`, `BatchOutcomes`, `CallErrors`, `Coalescing`, `ExactlyOnce`, `BackfillArithmetic` |
| in-process notifier | `DbBackfill.dfy`, `RethHostNotifier.dfy` | same files | same files |
| node | `SignetNode.dfy`, `ChainNotifier.dfy`, `BlockTags.dfy` | `Rollup`, `Node` | `NodeRuns`, `Acknowledged`, `BlockTags` |
| notifier and node | | | `Pipeline` |
| filters | `Filters.dfy` | `InterestKind`, `FilterPolls` | `FilterPolls`, `RingLimits`, `FailedPolls`, `FilterSessions` |
| subscriptions | `Subscriptions.dfy` | `InterestKind`, `FilterSessions` | `Subscriptions` |
| all of it | | | `EndToEnd` |
| fees | `GasOracle.dfy`, `RewardPercentiles.dfy` | same files, `Sorting` | same files, `RewardConditions`, `RewardInputs` |

The top-level theorem is `EndToEnd.WorldStaysInStep`: a node restarted with the fresh sync of some host prefix, fed by
the RPC notifier through any schedule of provider answers, and polled by a log-filter client, keeps storage equal to
the fresh sync of the chain the notifier delivered, and, from the first event the node broadcasts on, the client equal
to the matching logs of all of it.

## What the proofs found

- **An unchecked step.** After the walk leaves the view and backfill finds nothing to do, the block that the next header
  leads to is committed alone without looking at its parent. The chain stays linked exactly when that block is a child
  of the last one emitted (`UnanchoredTurnLinksIffParentMatches`); `UncheckedHeaderBreaksChain` is a run of two calls,
  from a freshly built notifier and with every request served, in which it is not.
- **By-number batches.** A batch fetched by number is hash-linked exactly when neighbouring requests saw chains that
  agree on the lower block (`BatchLinkedIffSeamsAgree`, an instance that fails is `BatchAcrossReorgIsNotLinked`); the
  documentation's "every block fetch is anchored to a specific hash" holds for the hash walk only.
- **Nothing else breaks the chain.** Over whole runs it is linked after every call if and only if every unchecked
  header leads to a child of the last block emitted and every batch's seams agree (`RunLinkedIff`).
- **Linked does not mean from `set_head` on.** `crates/node-types/src/notifier.rs:19-22` says that delivery begins at the
  block given to `set_head`. If the provider's tip is just below that block, the first header is committed alone,
  whatever its number: delivery begins there if and only if the tip has reached the block or that header leads to a
  block of that number (`FirstDelivery`, an instance that fails is `FirstBlockIsSkipped`). A restarted node then stores
  the block above the one it asked for without a look at its parent (`FirstNotificationAtNode`), and what it had and
  what it was given form one linked chain exactly under `FollowedChainIsLinkedIff`.
- **No panic in the view.** Over every run, linked or not and through errors, the view stays contiguous and every
  reported revert range is one `RevertRange::new` accepts (`RunNeverPanics`).
- **Errors after mutation.** A delivery or a batch whose tag refresh fails has already moved the view and the delivery
  mark past blocks nobody received. The state still describes the consumer exactly when the failure came earlier, or
  when the header led with an empty view back to the very block delivered last (`FailedHeadIsSoundIff`,
  `FailedBatchIsSoundIff`), so run results are stated up to the first error, where the node stops.
- **Tag order.** `crates/rpc/src/config/resolve.rs:14-18` says that during an update readers never see `latest` behind
  `finalized`. That holds if and only if the new finalized is at most the old latest (`LatestNeverBehindIff`); an
  instance that fails is `UpdateCanShowLatestBehindFinalized`. For a rewind (lines 20-23 and 160-164) it holds for
  every reader that loads `latest` first, and for readers that load `finalized` first if and only if the ancestor is
  not below finalized (`RewindNeverBehindIff`). A host that reports a finalized block but no safe one inverts the
  rollup's tags (`MissingSafeInvertsTags`).
- **A debug assertion.** "drained should always contain at least one block" (`crates/node/src/node.rs:436-438`) can
  fail for a node on its own (`DrainedCanBeEmpty`); `DrainedIsNonEmptyIff` says exactly when. It never fails for a reorg
  of delivered blocks (`FittingReorgDrains`), and in runs that keep the chain linked the RPC notifier emits no other
  reverts.
- **Acknowledged heights.** A revert can take away the host block the node has acknowledged (`AcknowledgedIsReverted`);
  `StepKeepsAckIff` says exactly when, and on a host that never reverts below a block it reported as finalized it
  stays stored over every run (`AcknowledgedStaysStored`).
- **Start at genesis.** The in-process notifier positions the live stream at block `cursor - 1`; for cursor 0 that is
  block 0, which was never delivered (`GenesisIsSkipped`). In every other case, and only then, the live stream
  continues what was delivered (`LiveHeadContinuesIff`).
- **More than 25 reorgs between polls.** The ring has lost some. What that means for a client is decided by the logs
  and not by the count: a poll is exact if and only if, between the last poll and the oldest reorg the ring still
  holds, the matching logs below the rewound position stayed the same and those above it can all still be taken back
  (`PollIsExactIff`, over sessions `SessionTracksIff`). Up to 25 reorgs always meet it, and for every larger number
  there is a history that does not and leaves the client wrong (`ForgottenReorgLeavesStaleLogs`).
- **Polls that fail.** A log poll rewinds its filter before it reads cold storage. If that read fails, the removed logs
  it had computed are lost: the retry finds the filter rewound. The client is exact after the retry if and only if no
  matching log lay between the rewound and the old position (`RetryIsExactIff`); block filters lose nothing
  (`FailedBlockPollIsHarmless`).
- **One-slot channels.** A subscription asks for half of the client's channel; with capacity 1 that is nothing, and
  the buffer is never sent (`DrainsIff`).
- **Reward percentiles.** The one-pass walk adds the gas of the transaction it stopped at again for the next
  percentile, so later rewards can be too low (`RewardsCanBeTooLow`). `PositionsAreNaiveIff` gives the exact condition
  for stopping at the textbook transactions, in textbook terms only. Stopping early can be harmless when tips are
  equal (`EarlyStopCanBeHarmless`); `RewardsAreTextbookIff` is the exact condition for the rewards themselves, and
  `UniformRewardsAreTextbookIff` puts it in textbook terms for blocks in which equal tips use equal gas, which
  `FirstTransactionsAreNotEnough` shows to be needed. For any gas, recounting the largest gas of each earlier group is
  enough, and recounting the smallest is necessary (`LargestGasSuffices`, `SmallestGasIsNeeded`).

## Model

| member | source | states |
|---|---|---|
| HostProvider.FetchByHashIsFixed | crates/host-rpc/src/notifier.rs:237-246 | whatever the canonical chain does between the requests, a successful fetch by hash returns exactly the named blocks of the tree, in path order |
| HostProvider.BatchLinkedIffSeamsAgree | crates/host-rpc/src/notifier.rs:270-283 | a batch fetched by number has the requested numbers, and is hash-linked if and only if the chains behind neighbouring requests agree on the lower block |
| RpcHostNotifier.Latest.PollNext | crates/host-rpc/src/latest.rs:37-61 | one poll consumes everything that is ready, yields only the newest item, and counts the others |
| RpcHostNotifier.RpcHostNotifier.constructor | crates/host-rpc/src/notifier.rs:118-144 | a new notifier has an empty view, no head and nothing delivered |
| RpcHostNotifier.RpcHostNotifier.SetHead | crates/host-rpc/src/notifier.rs:695-703 | the first call starts backfill at the block, every later call changes nothing |
| RpcHostNotifier.RpcHostNotifier.SetBackfillThresholds | crates/host-rpc/src/notifier.rs:705-708 | the batch size becomes the given size but at least 1, or the default |
| RpcHostNotifier.RpcHostNotifier.ExtendView | crates/host-rpc/src/notifier.rs:166-174 | pushing and evicting one by one keeps the newest entries up to the capacity |
| RpcHostNotifier.RpcHostNotifier.ReorgView | crates/host-rpc/src/notifier.rs:176-183 | popping from the fork on and then pushing gives the view the run lemmas reason about |
| RpcHostNotifier.RpcHostNotifier.FetchBlocksByHash | crates/host-rpc/src/notifier.rs:237-246 | the in-order result of one request per hash, or the first failure |
| RpcHostNotifier.RpcHostNotifier.FetchRange | crates/host-rpc/src/notifier.rs:270-283 | the blocks of the range in ascending order, or the first failure |
| RpcHostNotifier.RpcHostNotifier.MaybeRefreshTags | crates/host-rpc/src/notifier.rs:285-312 | safe and finalized are requested only when the epoch changed, and kept when the refresh fails |
| RpcHostNotifier.RpcHostNotifier.WalkChain | crates/host-rpc/src/notifier.rs:321-407 | the loop over mutable locals computes the walk whose decision is characterised below, and its number of lookups |
| RpcHostNotifier.RpcHostNotifier.HandleNewHead | crates/host-rpc/src/notifier.rs:416-503 | view, delivery mark, backfill cursor, tags and outcome after a header, with the fallback to the latest hash when a block is gone |
| RpcHostNotifier.RpcHostNotifier.DeliverPath | crates/host-rpc/src/notifier.rs:463-488 | nothing moves unless all blocks were fetched; then view and delivery mark move before the tags are refreshed |
| RpcHostNotifier.RpcHostNotifier.Announce | crates/host-rpc/src/notifier.rs:488-502 | a failed tag refresh becomes the outcome, otherwise the notification carries the cached tags |
| RpcHostNotifier.RpcHostNotifier.DrainBackfill | crates/host-rpc/src/notifier.rs:541-575 | the three cases of the cursor against the provider's tip |
| RpcHostNotifier.RpcHostNotifier.IngestBatch | crates/host-rpc/src/notifier.rs:577-657 | ceiling, batch end, first-parent check and state after one batch |
| RpcHostNotifier.RpcHostNotifier.NextNotification | crates/host-rpc/src/notifier.rs:676-693 | the loop ends with the first outcome that is not silent, in the state the run lemmas speak about |
| FollowerRuns.ViewHashIsSearch | crates/host-rpc/src/notifier.rs:154-164 | the constant-time lookup by number finds a hash exactly when a linear search of the view does |
| FollowerRuns.ResolveWalkOk | crates/host-rpc/src/notifier.rs:321-407 | for every contiguous view, linked or not: at most capacity + 1 lookups per walk; a result other than seen or exhausted attaches to the view block below the fork, is linked and fresh, ends at the walked hash, and has a range `RevertRange::new` accepts |
| FollowerRuns.BatchShape | crates/host-rpc/src/notifier.rs:564-627 | every batch is non-empty, starts at the cursor, ends at or below the provider's tip and the ceiling, and moves the cursor just past it |
| FollowerRuns.DrainKeepsSound | crates/host-rpc/src/notifier.rs:541-657 | a batch keeps the invariant: linked chain, view is its newest part, delivery mark is its tip |
| FollowerRuns.HeadKeepsSound | crates/host-rpc/src/notifier.rs:416-503 | a header with something to anchor to keeps the invariant, and what it emits ends at the walked block |
| FollowerRuns.UnanchoredTurnLinksIffParentMatches | crates/host-rpc/src/notifier.rs:375-384 | the one header step that can break linkage commits exactly the block the header leads to, and keeps the chain linked if and only if that block is a child of the last one emitted |
| FollowerRuns.TurnKeepsSound | crates/host-rpc/src/notifier.rs:676-693 | a turn keeps the invariant, also an unchecked one that leads to a child of the last block emitted |
| FollowerRuns.TurnLinkedIff | crates/host-rpc/src/notifier.rs:676-693 | a turn that delivers something leaves the consumer with one linked chain if and only if the batch's seams agree or, for an unchecked header, it leads to a child of the last block emitted |
| FollowerRuns.FailedHeadIsSoundIff | crates/host-rpc/src/notifier.rs:463-488 | after a failed header, with any view, the state still describes what the consumer holds if and only if the walk or the fetch failed, or the header led from an empty view to the block delivered last; otherwise a failed tag refresh has moved view and delivery mark past blocks nobody received |
| FollowerRuns.FailedBatchIsSoundIff | crates/host-rpc/src/notifier.rs:589-634 | the same for a batch: after a failure the state describes the consumer if and only if the batch was not accepted |
| FollowerRuns.NextNotificationKeepsSound | crates/host-rpc/src/notifier.rs:676-693 | one call keeps the invariant whatever the provider answers, if the turn that ends it links |
| FollowerRuns.CallLinkedIff | crates/host-rpc/src/notifier.rs:676-693 | the consumer's chain is linked after one call if and only if the turn that ends the call links |
| FollowerRuns.RunKeepsSound | crates/host-rpc/src/notifier.rs:676-693 | in every run of linking calls without an error, a consumer that replays the notifications holds one number-contiguous, hash-linked chain, of which the view is the newest part and the delivery mark the tip |
| FollowerRuns.RunLinkedIff | crates/host-rpc/src/notifier.rs:676-693 | the exact condition: over any run, errors included, the consumer's chain is linked after every call if and only if every call links |
| FollowerRuns.FromTheStart | crates/host-rpc/src/notifier.rs:118-144 | the same for every run of a freshly built notifier, wherever its delivery begins |
| FollowerRuns.UncheckedHead | crates/host-rpc/src/notifier.rs:375-384 | with an empty view exactly the block the header leads to is committed: the hinted one, or the provider's latest if that one is gone |
| FollowerRuns.FirstDelivery | crates/node-types/src/notifier.rs:19-22 | an emitting first call has a tip at or just below `start`, and delivers from `start` on if and only if the tip has reached it or the first header leads to a block of that number |
| ViewRuns.CallKeepsNumbered | crates/host-rpc/src/notifier.rs:154-164 | any call, whatever its outcome, keeps the view contiguous with the cursor right above it, and reports a valid revert range if any |
| ViewRuns.RunNeverPanics | crates/host-rpc/src/notifier.rs:154-164 | after any number of calls of a fresh notifier, linking or not and errors included, the view is contiguous, so the lookup's debug assertion never fires, and the next revert range is valid |
| ChainBreaks.UncheckedHeaderBreaksChain | crates/host-rpc/src/notifier.rs:375-384 | the condition is needed: two calls of a fresh notifier on a provider that serves every request, after which the consumer holds a block on top of one that is not its parent |
| ChainBreaks.BatchAcrossReorgIsNotLinked | crates/host-rpc/src/notifier.rs:270-283 | so is the other one: the first batch of a fresh notifier, fetched while the host reorgs, is not hash-linked |
| ChainBreaks.FirstBlockIsSkipped | crates/host-rpc/src/notifier.rs:375-384 | a good run that was to begin at block 1 and begins with block 2 |
| WalkDecision.DistanceIsLeast | crates/host-rpc/src/notifier.rs:321-407 | the independent reference: the distance is the least one at which an ancestor is in the view |
| WalkDecision.WalkDecides | crates/host-rpc/src/notifier.rs:321-407 | with all ancestors available the walk is decided by the distance alone: seen iff in the view, advance or reorg iff the highest common ancestor is 1..capacity away, otherwise exhausted, with the path just above that ancestor |
| WalkDecision.DescendantAdvances | crates/host-rpc/src/notifier.rs:385-402 | a descendant of the view's tip up to capacity above it is always an advance along exactly its ancestry |
| HeadOutcomes.HeadDecides | crates/host-rpc/src/notifier.rs:416-503 | with every request served a header is never an error: its distance from the view decides whether it is ignored, clears the view, or is delivered as exactly the commit or reorg of the blocks above the common ancestor, with the range, the tags, and the view and delivery mark left behind |
| HeadOutcomes.MissingBlockFallsBack | crates/host-rpc/src/notifier.rs:424-439 | when a block of the hint's walk is missing, at any depth, the header is decided like one that names the provider's latest block |
| HeadOutcomes.BrokenLookupFails | crates/host-rpc/src/notifier.rs:424-446 | a lookup that breaks is reported at once, and nothing but the number of requests has changed |
| HeadOutcomes.CallDecides | crates/host-rpc/src/notifier.rs:676-693 | a call skips the bursts that bring nothing new; the last header of the first one that does decides it; without one the stream has ended |
| HeadOutcomes.EpochIsIff | crates/host-rpc/src/notifier.rs:284-287 | an epoch is a stretch of 32 slots from the genesis timestamp on |
| BatchOutcomes.BackfillDecides | crates/host-rpc/src/notifier.rs:541-657 | with every request served a backfill call ends, fails or delivers, in terms of the chains behind its requests: over just above the tip, an error further above, for a chain that became too short and for a first parent that does not match, and otherwise the whole batch, each block from the chain its own request saw |
| BatchOutcomes.BackfillCallDecides | crates/host-rpc/src/notifier.rs:676-693 | the same of whole calls: a call that finds a batch due has the batch's outcome, and goes on to the headers when backfill is over |
| BatchOutcomes.BrokenTipFails | crates/host-rpc/src/notifier.rs:541-563 | without an answer about the tip the call fails, and nothing but the number of requests has changed |
| BatchOutcomes.BatchEndIs | crates/host-rpc/src/notifier.rs:577-587 | half the capacity is left for headers unless the cursor is past that point; the batch is as long as configured, or ends there |
| TagRuns.CallReports | crates/host-rpc/src/notifier.rs:285-312 | over any call, errors included, cached and reported tags are the answers to one pair of requests |
| TagRuns.RunReports | crates/host-rpc/src/notifier.rs:488-502 | so after any number of calls of a fresh notifier |
| CallErrors.CallFails | crates/host-rpc/src/notifier.rs:676-693 | whatever the provider does, the error of a call is the answer to one of the requests it made, or a break in continuity |
| CallErrors.FetchByHashFails | crates/host-rpc/src/notifier.rs:237-246 | a failed fetch by hash reports the first request that failed |
| Coalescing.CoalescingIsHarmless | crates/host-rpc/src/latest.rs:37-61 | from the same view, when the last header is the newest and not in the view and no walk fails or leaves the view, handling a burst one by one or only its last header leaves the consumer with the same chain |
| Coalescing.BurstEndsAtLast | crates/host-rpc/src/notifier.rs:416-503 | that chain is linked, keeps its base block and ends at the last header |
| ExactlyOnce.EveryBlockExactlyOnce | crates/host-rpc/src/notifier.rs:676-703 | on an append-only host with headers never below the front of the view, every canonical block from the head on is delivered once and in order, and no reorg is ever reported, through any number of exhaust, clear and backfill cycles |
| ExactlyOnce.RunStaysOnTrack | crates/host-rpc/src/notifier.rs:541-657 | the invariant behind it: what was delivered is the canonical chain at every request from then on |
| BackfillArithmetic.BatchBounds | crates/host-rpc/src/notifier.rs:583-587 | from <= end <= ceiling <= tip, and a batch that stops early has exactly the batch size |
| BackfillArithmetic.PhaseLength | crates/host-rpc/src/notifier.rs:564-627 | with a fixed tip the phase takes exactly ceil(range / batch) batches and leaves the view's tip at the ceiling, at most half the capacity below the provider's tip |
| BackfillArithmetic.AfterPhaseHeadersAdvance | crates/host-rpc/src/notifier.rs:577-587 | after such a phase a descendant hint up to capacity above the view's tip is an advance, never exhausted |
| DbBackfill.DbBackfill.constructor | crates/host-reth/src/backfill.rs:91-93 | a new backfill stands at the given block with the default batch size |
| DbBackfill.DbBackfill.SetBatchSize | crates/host-reth/src/backfill.rs:96-98 | the size is at least 1 and nothing else changes |
| DbBackfill.DbBackfill.ResetBatchSize | crates/host-reth/src/backfill.rs:101-103 | back to the default |
| DbBackfill.DbBackfill.NextBatch | crates/host-reth/src/backfill.rs:133-166 | cursor and result for every finalized answer; a failed read leaves the cursor alone |
| DbBackfill.DbBackfill.ReadBlockRange | crates/host-reth/src/backfill.rs:173-199 | all blocks of the range with receipts, or the first missing block, missing receipts or provider error |
| DbBackfill.RangeDecides | crates/host-reth/src/backfill.rs:173-199 | a range is read in full, each block as answered, if and only if every block and its receipts are there; otherwise the first that is not is the error |
| DbBackfill.BatchDecides | crates/host-reth/src/backfill.rs:133-166 | the backfill ends if and only if nothing at or above the cursor is finalized; a batch reaches the lower of the finalized block and the batch size, and nothing moves if a block is not there |
| DbBackfill.RangeIsLinked | crates/host-reth/src/backfill.rs:183-191 | on a database that holds one linked chain a successful read is the requested stretch of it, so that the parent-hash debug assertion never fires |
| DbBackfill.BatchShape | crates/host-reth/src/backfill.rs:133-166 | a batch is a non-empty run of at most batch-size blocks from the cursor, none above the finalized block |
| DbBackfill.SegmentsTile | crates/host-reth/src/backfill.rs:133-199 | for arbitrary finalized answers, batch sizes and failures, the segments concatenate to exactly start..cursor-1 |
| RethHostNotifier.RethHostNotifier.constructor | crates/host-reth/src/notifier.rs:98-104 | a new notifier has no backfill and no head |
| RethHostNotifier.RethHostNotifier.SetHead | crates/host-reth/src/notifier.rs:228-236 | the first call starts the backfill, later ones change nothing |
| RethHostNotifier.RethHostNotifier.SetBackfillThresholds | crates/host-reth/src/notifier.rs:238-252 | only a running backfill is affected |
| RethHostNotifier.RethHostNotifier.NextNotification | crates/host-reth/src/notifier.rs:119-226 | a batch, the hand-over at block cursor - 1, or a live notification, with tags that are absent when they cannot be read; a live revert of nothing, of the host's genesis or backwards panics |
| RethHostNotifier.NextExpects | crates/host-reth/src/notifier.rs:151-180 | one call delivers exactly the blocks expected next; the live head is set if and only if the header was found |
| RethHostNotifier.BatchIsReported | crates/host-reth/src/notifier.rs:119-180 | during the backfill a call has the batch's outcome; at its end it is the missing header's error, or goes on to the live stream at block cursor - 1 |
| RethHostNotifier.TagsAreAnswers | crates/host-reth/src/notifier.rs:189-204 | every notification carries the answers to the safe and the finalized request, absent where the request failed |
| RethHostNotifier.LiveIsReplayed | crates/host-reth/src/notifier.rs:206-226 | replaying a live notification on a chain that ends with the removed blocks replaces these by the added ones, with a range that ends at the removed tip; what cannot be reported panics |
| RethHostNotifier.LiveEnds | crates/host-reth/src/notifier.rs:183-187 | a stream error is passed on, an empty stream is the end |
| RethHostNotifier.ThresholdsAre | crates/host-reth/src/notifier.rs:238-252 | the batch size of a running backfill becomes the given size but at least 1, or the default, and nothing else changes |
| RethHostNotifier.HandOff | crates/host-reth/src/notifier.rs:119-226 | through any use, errors included, the database phase delivers consecutive blocks from the start and the live phase begins at the last of them |
| RethHostNotifier.LiveHeadContinuesIff | crates/host-reth/src/notifier.rs:158-177 | the live stream starts right after what was delivered if and only if the next block expected is not block 0 |
| RethHostNotifier.GenesisIsSkipped | crates/host-reth/src/notifier.rs:158-177 | with start 0 and nothing finalized the live head is a block that was never delivered |
| BlockTags.BlockTags.constructor | crates/rpc/src/config/resolve.rs:108-115 | the three tags start at the given numbers |
| BlockTags.BlockTags.UpdateAll | crates/rpc/src/config/resolve.rs:152-156 | the states a reader can observe between the stores, in order |
| BlockTags.BlockTags.RewindTo | crates/rpc/src/config/resolve.rs:179-183 | the states a reader can observe between the three minimum stores, in order |
| BlockTags.RewindStaysOrdered | crates/rpc/src/config/resolve.rs:158-183 | finalized <= safe <= latest at every intermediate state of a rewind, which ends with each tag capped at the ancestor |
| BlockTags.UpdateStaysOrderedIff | crates/rpc/src/config/resolve.rs:145-156 | an ordered update ends ordered, and is ordered throughout if and only if the new finalized is at most the old safe and the new safe at most the old latest |
| BlockTags.LatestNeverBehindIff | crates/rpc/src/config/resolve.rs:14-18 | latest is never behind finalized during an update if and only if the new finalized is at most the old latest |
| BlockTags.UpdateCanShowLatestBehindFinalized | crates/rpc/src/config/resolve.rs:14-18 | an update during which latest is behind finalized |
| BlockTags.RewindReaders | crates/rpc/src/config/resolve.rs:118-131 | for every schedule of the three loads during a rewind: exactly when the reader gets unordered tags, and exactly when it gets latest behind finalized |
| BlockTags.RewindNeverBehindIff | crates/rpc/src/config/resolve.rs:158-164 | readers that load latest first always get ordered tags; readers that load finalized first never get latest behind finalized if and only if the ancestor is not below finalized |
| BlockTags.UpdateReadersIff | crates/rpc/src/config/resolve.rs:118-131 | every schedule of loads during an update gets ordered tags if and only if no tag, old or new, overtakes the next larger one, new or old |
| BlockTags.UpdateLatestFirstIff | crates/rpc/src/config/resolve.rs:118-131 | for readers that load latest first the update only must not overtake itself; tags may move back |
| ChainNotifier.ChainNotifier.constructor | crates/rpc/src/config/chain_notifier.rs:49-53 | zeroed tags, nothing sent, an empty ring |
| ChainNotifier.ChainNotifier.SendNewBlock | crates/rpc/src/config/chain_notifier.rs:65-70 | the event is broadcast and the ring is untouched |
| ChainNotifier.ChainNotifier.SendReorg | crates/rpc/src/config/chain_notifier.rs:78-90 | the ring holds the newest 25 reorgs, stamped, and the event is broadcast |
| ChainNotifier.ChainNotifier.ReorgsSince | crates/rpc/src/config/chain_notifier.rs:110-118 | exactly the ring entries stamped later than the given instant, oldest first |
| SignetNode.SignetNode.LastRollupBlock | crates/node/src/node.rs:131-134 | the number of the stored tip, 0 for empty storage |
| SignetNode.SignetNode.ProcessCommittedChain | crates/node/src/node.rs:260-289 | storage, feed and result after executing the newer blocks one by one, stopping at a missing parent |
| SignetNode.SignetNode.DrainAbove | crates/node/src/node.rs:428 | exactly the blocks above the target are removed and returned in ascending order |
| SignetNode.SignetNode.NotifyReorg | crates/node/src/node.rs:303-317 | subscribers and the ring are told the common ancestor and every removed block with its logs |
| SignetNode.SignetNode.OnHostRevert | crates/node/src/node.rs:398-444 | storage, tags and feed after a revert, or the error when the range does not cover the stored tip |
| SignetNode.SignetNode.UpdateStatusChannel | crates/node/src/node.rs:320-324 | the published status is the stored height |
| SignetNode.SignetNode.OnNotification | crates/node/src/node.rs:228-255 | reverts before commits, and whether anything changed |
| SignetNode.SignetNode.UpdateBlockTags | crates/node/src/node.rs:328-383 | tags and acknowledged height after clamping the host's safe and finalized blocks |
| SignetNode.SignetNode.Step | crates/node/src/node.rs:201-215 | one turn of the main loop |
| SignetNode.SignetNode.Start | crates/node/src/node.rs:200-219 | the main loop accepts a stream if and only if every turn does, and then storage is the fresh sync of the replayed host chain |
| NodeRuns.CommitAcceptedIff | crates/node/src/node.rs:260-289 | a commit is accepted if and only if it leaves no gap above the stored tip; then storage is the fresh sync of the longer chain, and already stored blocks are ignored |
| NodeRuns.CommitIsReplay | crates/node/src/node.rs:260-289 | an accepted commit announces one block per new host block, in order: the block then stored at its place, every field of it the processor's output on the block below |
| NodeRuns.RevertIsReplay | crates/node/src/node.rs:398-444 | a revert is accepted if and only if it lies below the rollup or covers the stored tip; then storage is the fresh sync of the cut chain, each tag is capped, and the events account for the change |
| NodeRuns.RevertIsAnnounced | crates/node/src/node.rs:303-317 | a revert that drains something sends one reorg, with the last block kept and every removed block in order: number, hash, timestamp and all its logs |
| NodeRuns.NotificationAcceptedIff | crates/node/src/node.rs:228-255 | a notification is accepted if and only if its revert covers what is stored and its commit then leaves no gap; it changes something if and only if it reverts above the deploy height or brings a block that is not stored |
| NodeRuns.NotificationIsReplay | crates/node/src/node.rs:228-255 | every accepted notification leaves the fresh sync of the replayed host chain |
| NodeRuns.RunIsFreshSync | crates/node/src/node.rs:200-215 | so does every accepted history of commits, reverts, reorgs and redelivered blocks; every announced block is the processor's output on the one announced below it |
| NodeRuns.FreshSyncAt | crates/block-processor/src/v1/processor.rs:157-162 | stored block n + 1 has number n + 1, and the hash, timestamp, transactions and receipts the processor returns for its host block on stored block n: no gap, nothing dropped, nothing reverted |
| NodeRuns.HistoryIndependence | crates/node/src/node.rs:228-289 | two accepted histories that leave the same host chain leave the same storage |
| NodeRuns.DrainedIsNonEmptyIff | crates/node/src/node.rs:436-441 | an accepted revert drains something if and only if there is a block above genesis and the range starts at or below the stored tip |
| NodeRuns.DrainedCanBeEmpty | crates/node/src/node.rs:436-438 | an accepted revert that drains nothing, from a caller that reverts what was never delivered |
| NodeRuns.UpdatedTags | crates/node/src/node.rs:328-383 | latest is the stored tip; safe and finalized are each 0 without a host tag above the deploy height, and otherwise the smaller of the stored tip and the host tag less the deploy height; they are ordered if and only if the host's were as far as the rollup can tell; what is acknowledged is one below the finalized host block |
| NodeRuns.OrderedHostTagsSuffice | crates/node/src/node.rs:368-375 | ordered host tags, finalized only with safe, always give ordered rollup tags |
| NodeRuns.MissingSafeInvertsTags | crates/node/src/node.rs:368-372 | finalized without safe gives safe < finalized |
| NodeRuns.StepTags | crates/node/src/node.rs:201-215 | whenever a turn changed anything, latest and the published status equal the stored tip; otherwise nothing changed |
| NodeRuns.RunKeepsTags | crates/node/src/node.rs:200-215 | with ordered host tags, finalized <= safe <= latest <= stored tip after every accepted history |
| NodeRuns.RunKeepsStatus | crates/node/src/node.rs:246-252 | the published status is the stored tip after every accepted history |
| Acknowledged.StepKeepsAckIff | crates/node/src/node.rs:352-356 | after an accepted turn the acknowledged block is still at or below the stored tip if and only if it was not reverted, was delivered again, or another finalized block was acknowledged |
| Acknowledged.RunKeepsAckIff | crates/node/src/node.rs:200-215 | over whole accepted histories it is after every turn if and only if every turn keeps it |
| Acknowledged.AcknowledgedStaysStored | crates/node/src/node.rs:377-383 | on a host that never reverts below a block it reported as finalized, it always is |
| Acknowledged.AcknowledgedIsReverted | crates/node/src/node.rs:398-444 | an accepted revert with no finalized block reported, after which the acknowledged block is no longer stored |
| Pipeline.CallFits | crates/host-rpc/src/notifier.rs:676-693 | what the notifier emits continues the consumer's chain or replaces its end from inside it, with a revert range that reaches the chain's tip |
| Pipeline.FittingIsAccepted | crates/node/src/node.rs:416-422 | the node accepts every such notification, and its host chain goes on following the consumer's |
| Pipeline.FittingReorgDrains | crates/node/src/node.rs:436-438 | the debug assertion holds for every reorg inside the consumer's linked chain, so for all the RPC notifier emits in linking runs |
| Pipeline.NodeStaysInSync | crates/node/src/node.rs:173-219 | notifier driving node: in every good run that begins at the block asked for or right above it, all notifications are accepted and storage is the fresh sync of the delivered chain |
| Pipeline.RestartedNodeStaysInSync | crates/node/src/node.rs:188-193 | the same from a restart that asks for the host block of the stored tip; only a first unchecked header that leads elsewhere than to that block or the next is excluded |
| Pipeline.FirstNotificationAtNode | crates/node/src/node.rs:188-193 | what that header does to a restarted node: its block is accepted if and only if it leaves no gap, stored if it is one above the block asked for, whatever its parent, and ignored below that |
| Pipeline.FollowedChainIsLinkedIff | crates/node/src/node.rs:188-193 | old and new host blocks form one linked chain if and only if the redelivered block is the one the node had, or the first new one is a child of it |
| InterestKind.ApplyFilterIsKeep | crates/rpc/src/interest/kind.rs:44-73 | filtering while streaming gives the matching ones of the block's indexed logs |
| InterestKind.DeliveredLogIsExact | crates/rpc/src/interest/kind.rs:44-73 | every delivered log matches and names its block, its transaction and its position among all logs of the block |
| InterestKind.MatchingLogIsDelivered | crates/rpc/src/interest/kind.rs:44-73 | every matching log of every receipt is delivered |
| InterestKind.DeliveriesAreInBlockOrder | crates/rpc/src/interest/kind.rs:50-70 | log indices increase strictly along a delivery |
| Filters.ActiveFilter.constructor | crates/rpc/src/interest/filters.rs:173-184 | a filter starts at the given position and instant |
| Filters.ActiveFilter.MarkPolled | crates/rpc/src/interest/filters.rs:65-68 | the next poll starts after the block just read |
| Filters.ActiveFilter.TouchPollTime | crates/rpc/src/interest/filters.rs:75-77 | only the instant moves; the rewound position is kept |
| Filters.ActiveFilter.ComputeRemovedLogs | crates/rpc/src/interest/filters.rs:113-140 | the nested loops rewind the position to the lowest common ancestor and take back, reorg by reorg, what was delivered above it |
| Filters.ActiveFilter.TakeBack | crates/rpc/src/interest/filters.rs:125-137 | of one reorg, exactly the matching logs of blocks below the snapshot, marked removed |
| Filters.ActiveFilter.TakeBackBlock | crates/rpc/src/interest/filters.rs:129-136 | the matching logs of one removed block, in order, marked removed |
| Filters.FilterManager.constructor | crates/rpc/src/interest/filters.rs:152-155 | ids start at 1 and there are no filters |
| Filters.FilterManager.Install | crates/rpc/src/interest/filters.rs:173-184 | a fresh id, never used before, maps to a new filter that starts after the current block; all others are untouched |
| Filters.FilterManager.Uninstall | crates/rpc/src/interest/filters.rs:197-199 | exactly that id is gone, and whether it was there |
| Filters.FilterManager.GetFilterChanges | crates/rpc/src/eth/endpoints.rs:1049-1150 | one poll: the output and position that the poll results below are about, or the error of a failed read with the filter rewound; no other filter changed, an unknown id is an error that changes nothing |
| Filters.FilterManager.PollEntry | crates/rpc/src/eth/endpoints.rs:1066-1146 | rewind, early return, failed read or forward scan, removed logs first, cursor moved only on success |
| FilterPolls.ReorgKeepsExact | crates/rpc/src/interest/filters.rs:113-140 | what one reorg takes back is exactly what the client holds above the common ancestor |
| FilterPolls.LazyRemovalIsExact | crates/rpc/src/interest/filters.rs:113-140 | through any cascade of blocks and reorgs, also below the installation block, lazily computed removals leave the client exact up to the rewound position |
| FilterPolls.RingKeepsNewest | crates/rpc/src/config/chain_notifier.rs:78-118 | what a filter finds in the ring are the newest 25 of the reorgs since its last poll |
| FilterPolls.RewoundIsLeast | crates/rpc/src/interest/filters.rs:113-118 | a filter is rewound to the lowest of where it stood and the blocks after the common ancestors |
| RingLimits.PollIsExact | crates/rpc/src/eth/endpoints.rs:1061-1146 | after any history for which the ring suffices, with any number of reorgs, one poll makes the client hold exactly the matching logs below the filter's position, the whole chain if the tip was read |
| RingLimits.PollIsExactIff | crates/rpc/src/eth/endpoints.rs:1061-1146 | the exact condition: the client is exact after the poll if and only if what happened before the oldest remembered reorg left the matching logs below the rewound position the same, and those above it there to be taken back |
| RingLimits.HarmlessReorgsSuffice | crates/rpc/src/config/chain_notifier.rs:78-118 | forgotten reorgs that neither rewind the filter nor take anything back meet the condition, however many |
| RingLimits.FewReorgsSuffice | crates/rpc/src/config/chain_notifier.rs:12-18 | so does every history with at most 25 reorgs |
| RingLimits.BlockPollIsExact | crates/rpc/src/eth/endpoints.rs:1094-1111 | a block filter redelivers every number that may have changed: with at most 25 reorgs the client then knows the canonical hashes |
| RingLimits.BlockPollIsExactIff | crates/rpc/src/eth/endpoints.rs:1094-1111 | with any number of reorgs a poll delivers exactly the hashes from the rewound position up to latest, and leaves the client up to date if and only if the hashes below that position are the same as before |
| FilterPolls.PrefixSurvives | crates/rpc/src/interest/filters.rs:115-118 | blocks below the rewound position are untouched by everything that happened |
| FailedPolls.RetryIsExactIff | crates/rpc/src/eth/endpoints.rs:1066-1146 | after a poll that failed and a retry, with any events before and between and at most 25 reorgs, the client is exact if and only if no matching log lay between the rewound and the old position |
| FailedPolls.FailingAgain | crates/rpc/src/eth/endpoints.rs:1066-1087 | failing several times leaves the filter where failing once, the last time, would |
| FailedPolls.FailedBlockPollIsHarmless | crates/rpc/src/eth/endpoints.rs:1094-1111 | a block filter's retry returns what a first poll would have |
| FailedPolls.RemovedComeFirst | crates/rpc/src/eth/endpoints.rs:1128-1134 | of what a log poll delivers, the removed logs come first and are all that is marked removed |
| FailedPolls.PollFailsIff | crates/rpc/src/eth/endpoints.rs:1070-1131 | a poll fails if and only if cold storage does and the rewound filter is not past latest; otherwise cold storage makes no difference |
| FilterSessions.InstallTracks | crates/rpc/src/interest/filters.rs:173-184 | a client that knows the matching logs up to the installation block is exact |
| FilterSessions.SessionTracks | crates/rpc/src/eth/endpoints.rs:1049-1150 | through whole sessions of events and polls in which the ring suffices the client stays exact below the filter's position |
| FilterSessions.RoundTracksIff | crates/rpc/src/eth/endpoints.rs:1049-1150 | one round of events and a poll keeps the client exact if and only if the ring suffices for it |
| FilterSessions.SessionTracksIff | crates/rpc/src/eth/endpoints.rs:1049-1150 | over whole sessions the client is exact after every poll if and only if the ring sufficed every time |
| FilterSessions.FewReorgsAlwaysSuffice | crates/rpc/src/config/chain_notifier.rs:12-18 | sessions with at most 25 reorgs between polls always suffice |
| FilterSessions.SessionIsExact | crates/rpc/src/eth/endpoints.rs:1049-1150 | if the last poll read the tip, the client holds exactly the matching logs of the chain |
| FilterSessions.PushEventIsExact | crates/rpc/src/interest/kind.rs:44-123 | each event's output moves a subscriber from the matching logs of the old chain to those of the new one |
| FilterSessions.PushIsExact | crates/rpc/src/interest/kind.rs:44-123 | so do all outputs of a history, eager removals included |
| FilterSessions.PullAndPushAgree | crates/rpc/src/interest/kind.rs:105-123 | over the same events, however cut into polls, polling and subscribed clients end with the same logs |
| FilterSessions.ForgottenReorgLeavesStaleLogs | crates/rpc/src/config/chain_notifier.rs:12-18 | the bound cannot be raised: for every number of reorgs above 25 there is a history of that many after which the client is wrong |
| Subscriptions.SubscriptionBuffer.constructor | crates/rpc/src/interest/kind.rs:93-98 | the buffer is empty and of the filter's kind |
| Subscriptions.SubscriptionBuffer.Extend | crates/rpc/src/interest/buffer.rs:47-53 | items are appended in order; the mismatched-kind panic is a precondition, proved at the only call |
| Subscriptions.SubscriptionBuffer.PopFront | crates/rpc/src/interest/buffer.rs:56-61 | the oldest item leaves, the rest stays in order |
| Subscriptions.SubscriptionTask.constructor | crates/rpc/src/interest/subs.rs:137-142 | nothing sent, nothing buffered, buffer of the filter's kind |
| Subscriptions.SubscriptionTask.SendPermitted | crates/rpc/src/interest/subs.rs:181-219 | sending moves the oldest items, at most half the channel, from the buffer to the client in order |
| Subscriptions.SubscriptionTask.HandleEvent | crates/rpc/src/interest/subs.rs:233-249 | the filter's output is added at the end |
| Subscriptions.SubscriptionTask.Turn | crates/rpc/src/interest/subs.rs:196-251 | one wake-up adds exactly the output of the event it received, if any |
| Subscriptions.SubscriptionTask.TaskFuture | crates/rpc/src/interest/subs.rs:162-253 | at every point, sent items followed by buffered items are the filter's outputs for the received events, in order |
| Subscriptions.RunConserves | crates/rpc/src/interest/subs.rs:162-253 | over every run of wake-ups nothing is lost, repeated or reordered: sent followed by buffered is the output for the events received |
| Subscriptions.SubscriberIsExact | crates/rpc/src/interest/subs.rs:162-253 | a log subscriber that knew the matching logs ends with those of the chain it was last told about |
| Subscriptions.BlockSubscriberIsTold | crates/rpc/src/interest/kind.rs:34-42 | over every run, what a block subscription has sent followed by what waits is exactly the announced blocks, in order and once each, and nothing for reorgs |
| Subscriptions.PermitsSend | crates/rpc/src/interest/subs.rs:181-219 | room in the channel sends the oldest items: as many as half the channel holds, or all of them |
| Subscriptions.DrainsIff | crates/rpc/src/interest/subs.rs:181-190 | some number of wake-ups that grant permits empties the buffer if and only if it is empty already or the channel has at least two slots |
| EndToEnd.RunTicks | crates/rpc/src/config/chain_notifier.rs:12-15 | the node broadcasts at most one reorg per notification that reverts |
| EndToEnd.RunKeepsLatest | crates/node/src/node.rs:205-214 | over accepted histories latest always names a stored block, and is the stored tip unless nothing changed at all |
| EndToEnd.FewRevertsSuffice | crates/rpc/src/config/chain_notifier.rs:12-18 | a stream with at most 25 reverts leaves a ring that suffices |
| EndToEnd.DeploymentRound | crates/rpc/src/eth/endpoints.rs:1061-1146 | node and filter: after any accepted stream a poll leaves the client exact if and only if the ring suffices for what the node broadcast, and then it holds the matching logs of everything stored, once anything has changed |
| EndToEnd.InStepAtStart | crates/node/src/node.rs:179-193 | the end-to-end invariant holds when a restarted node installs a filter, unless a first unchecked header leads elsewhere than to the block asked for or the next |
| EndToEnd.WorldRound | crates/node/src/node.rs:200-215 | one round of notifier, node and poll keeps it, and from the first change on the client holds the matching logs of everything stored |
| EndToEnd.WorldStaysInStep | crates/node/src/node.rs:200-215 | so does every sequence of rounds: storage is the fresh sync of what the notifier delivered, and from the first broadcast event on the client holds all its matching logs after every round |
| EndToEnd.InStepAtTip | crates/rpc/src/eth/endpoints.rs:1061-1146 | for a client that holds everything stored, or has polled up to the stored tip: its logs are those of the fresh sync of the node's old host blocks continued by one linked chain |
| GasOracle.GasOracleCache.constructor | crates/rpc/src/config/mod.rs:36-41 | the sentinel block, no tip |
| GasOracle.GasOracleCache.Get | crates/rpc/src/config/mod.rs:44-47 | a hit exactly for the cached block |
| GasOracle.GasOracleCache.Set | crates/rpc/src/config/mod.rs:50-54 | the tip, saturated to 64 bits, is stored before the block |
| GasOracle.ReadDuringSet | crates/rpc/src/config/mod.rs:44-54 | for both loads at arbitrary moments of a concurrent store: which block hits, and exactly when the tip read is that block's |
| GasOracle.GetDuringSet | crates/rpc/src/config/mod.rs:44-54 | with the block loaded first, a hit on the new block is never wrong, and a hit on the old one is wrong exactly when the tip is loaded after the first store and differs |
| GasOracle.CollectTips | crates/rpc/src/config/gas_oracle.rs:62-72 | the tips of all blocks that exist and reach the floor, in the order read |
| GasOracle.SuggestTipCap | crates/rpc/src/config/gas_oracle.rs:25-93 | whatever order the reads finish in, the price of the window, the cached tip, or the error of a failed read, and the cache afterwards |
| GasOracle.PriceIgnoresOrder | crates/rpc/src/config/gas_oracle.rs:52-80 | the price depends only on which blocks were read |
| GasOracle.PriceIsRank | crates/rpc/src/config/gas_oracle.rs:82-91 | it is the required rank of the multiset of tips, defined by counting, cut at the maximum |
| GasOracle.RankIndexIs | crates/rpc/src/config/gas_oracle.rs:82-87 | the rank is the percentile of the positions from 0 on, rounded down, and never outside |
| GasOracle.WindowIs | crates/rpc/src/config/gas_oracle.rs:36-53 | the blocks read are exactly the stored ones among the last block-count up to latest, each once and in order |
| GasOracle.AllTipsCount | crates/rpc/src/config/gas_oracle.rs:62-72 | of each tip at or above the floor every transaction that pays it counts, of others none |
| GasOracle.SuggestDecides | crates/rpc/src/config/gas_oracle.rs:25-93 | the answer in every case: the cached tip, the failed read's error, the default, or the rank cut at the maximum; and what is cached |
| GasOracle.RankIsUnique | crates/rpc/src/config/gas_oracle.rs:82-87 | only one value has a given rank |
| GasOracle.HitIsRecomputationIff | crates/rpc/src/config/mod.rs:44-54 | a second request on unchanged data answers the same if and only if the price fits in 64 bits |
| RewardPercentiles.CalculateRewardPercentiles | crates/rpc/src/eth/endpoints.rs:266-310 | zeros for an empty block, otherwise the one-pass rewards, in at most transactions + percentiles inner steps |
| RewardPercentiles.SortByTipSorts | crates/rpc/src/eth/endpoints.rs:287-288 | the fees are sorted by tip and none is lost |
| RewardPercentiles.AdvanceIsShiftedNaive | crates/rpc/src/eth/endpoints.rs:297-303 | the walk goes where the textbook goes for a threshold lowered by the gas counted twice so far |
| RewardPercentiles.WalkIsNaiveIff | crates/rpc/src/eth/endpoints.rs:295-307 | one step: the walk stops at the textbook transaction if and only if it stands there already or the gas recounted so far does not reach the threshold early |
| RewardPercentiles.RewardIsAtMostNaive | crates/rpc/src/eth/endpoints.rs:295-307 | every reward is at most the textbook percentile's tip |
| RewardPercentiles.FirstRewardIsNaive | crates/rpc/src/eth/endpoints.rs:295-307 | the first one is equal to it |
| RewardPercentiles.RewardsAreNondecreasing | crates/rpc/src/eth/endpoints.rs:295-307 | rewards never go down |
| RewardPercentiles.RewardIsATip | crates/rpc/src/eth/endpoints.rs:305-306 | every reward is the tip of a transaction of the block |
| RewardPercentiles.RewardsCanBeTooLow | crates/rpc/src/eth/endpoints.rs:297-303 | two transactions of equal gas for which the second reward is below the textbook value |
| RewardInputs.TextbookIsWeighted | crates/rpc/src/eth/endpoints.rs:276-303 | the textbook tip in terms of the block's own tips and gas, without sorting: some transaction pays it, those that pay less use less gas than the threshold, and those that pay at most as much use at least that |
| RewardInputs.FirstRewardIsWeighted | crates/rpc/src/eth/endpoints.rs:276-307 | so is the first reward of every block |
| RewardConditions.PositionsAreNaiveIff | crates/rpc/src/eth/endpoints.rs:295-307 | in textbook terms only: every percentile stops at its textbook transaction if and only if each of these is the previous one, or the gas before it plus the gas of the earlier textbook transactions is below the threshold |
| RewardConditions.WalkIsStop | crates/rpc/src/eth/endpoints.rs:295-307 | the walk without its loop: the position is the larger of the previous one and the textbook search for a lowered threshold |
| RewardConditions.RewardIsTextbookIff | crates/rpc/src/eth/endpoints.rs:305-306 | one reward is the textbook tip if and only if the walk was already among the transactions with that tip, or recounting does not stop it before them |
| RewardConditions.RewardsAreTextbookIff | crates/rpc/src/eth/endpoints.rs:295-307 | all rewards are the textbook tips if and only if for every percentile the group of equal tips is the previous one, or the gas before it plus the gas recounted stays below the threshold |
| RewardConditions.UniformRewardsAreTextbookIff | crates/rpc/src/eth/endpoints.rs:295-307 | the same in textbook terms only, with the gas of the groups' first transactions, for every block in which equal tips use equal gas |
| RewardConditions.LargestGasSuffices | crates/rpc/src/eth/endpoints.rs:295-307 | for any gas, in textbook terms: all rewards are the textbook tips if recounting the largest gas of each earlier group stops no percentile early |
| RewardConditions.SmallestGasIsNeeded | crates/rpc/src/eth/endpoints.rs:295-307 | and only if recounting the smallest does not |
| RewardConditions.EarlyStopCanBeHarmless | crates/rpc/src/eth/endpoints.rs:305-306 | a walk that stops before the textbook transaction and still returns its tip |
| RewardConditions.FirstTransactionsAreNotEnough | crates/rpc/src/eth/endpoints.rs:297-303 | a block with unequal gas in one group for which the gas of first transactions gives the wrong verdict |

## Left out

Weaker than the source:

- RpcHostNotifier.RpcHostNotifier.FetchBlocksByHash: requests are numbered in path order; the bounded concurrency of the fetches is not modelled, which loses nothing since each answer is fixed by its hash and results keep path order. A failed receipts request counts as a failed block request.
- RpcHostNotifier.RpcHostNotifier.FetchRange: the requests of one range are numbered in ascending order, so concurrent completion inside a range is not modelled; the answers may still come from different chains.
- RpcHostNotifier.Latest.PollNext: wakers are left out; readiness is given as bursts of items that are ready together.
- RethHostNotifier.RethHostNotifier.NextNotification: what the live stream does with the head it is given belongs to the host node.
- Filters.FilterManager.GetFilterChanges: no other call runs while the entry lock is dropped in the middle of a poll; a read that exceeds a limit or a deadline is a failed read, and cold storage that lags behind is not modelled.
- Subscriptions.SubscriptionTask.TaskFuture: events lost to broadcast lag are not recovered by the source, and do not count as received.
- GasOracle.SuggestTipCap: the percentile is a real number, so rounding of the floating-point index is not modelled.
- RewardPercentiles.CalculateRewardPercentiles: thresholds are given as integers; their computation from floating-point percentiles is not modelled. Transactions without any receipt make the source panic and are excluded.

Assumptions of the results:

- Block numbers, gas and tips are unbounded; saturation is written out where it is visible (cursor 0, deploy height, the 64-bit cache), overflow is not.
- `exec`, the block processor, is a deterministic function of the parent rollup block and the host block; EVM execution, extraction and hardforks are not part of this model.
- A committed segment carries consecutive block numbers.
- Hot and cold storage are one sequence of blocks; `drain_above` returns the drained blocks in ascending order and `stream_logs` the matching logs of the range in block order. signet_storage and signet_cold are not part of this model.
- Runs of the RPC notifier are stated up to the first error. Their hypothesis, that batches have consistent seams and unchecked headers follow the last block emitted, is exact (`RunLinkedIff`). End-to-end results also exclude a first unchecked header that leads elsewhere than to the block asked for or the next one, and polls for which the ring does not suffice.
- A block and its receipts come from one chain, and the receipts are present: the source asks for them separately, and turns a missing answer into an empty list (`crates/host-rpc/src/notifier.rs:204-205`, `255-258`).
- A gas-oracle block count of zero underflows in the source and is excluded.
- Host reorgs while the node is down and stale-filter cleanup are not modelled: the source promises nothing there.
- Instants are a strictly increasing logical clock that ticks at reorgs, installations and polls.

Not modelled, because only easy members would be added: transport, serialisation, routers and error codes, metrics and
tracing, configuration and builders, genesis loading, blob fetching, alias oracles, the other RPC endpoints, subscription
and filter cleanup threads, and sync status.
