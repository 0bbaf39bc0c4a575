# A verified model of the volunteer-plan platform

A Dafny model of the parts of the platform in which state, order and repetition matter, with proofs
about all inputs, all runs and all interleavings. `dafny verify dfyconfig.toml` checks everything.

- **Recommendation** (`Selection`, `Recommend`, `Table`, `VolunteerPlan`). A pool is fetched through
  three rank windows, filtered in place, and picked greedily tier by tier over two shared maps; the
  result is folded into groups of majors. The main results are that the greedy pass is optimal under
  its nested limits, that the table keeps its rules, exactly when it reaches its size, and that the
  plan does not depend on map iteration order.
- **Turns** (`Turns`, `TurnManagers`). A detached agent turn logs events and fans them out to bounded
  channels; a manager indexes one turn per conversation. Every mutex section is one step, and the
  theorems hold for all interleavings of the steps.
- **Streams** (`Utf8`, `ToolStream`). The buffer that holds back incomplete characters, against
  RFC 3629 sections 3 and 4, and the accumulator that assembles tool calls from interleaved fragments.
- **Membership and payment** (`Membership`, `Fulfilment`). Serial transactions over the grant ledger
  and the membership row, and the payment paths that all end in one idempotent grant. The paths are
  methods whose store calls may fail, and between any two of them transactions of other requests run;
  what a request relies on is proved to survive that. `alone` switches both off, and then the methods
  compute their exact new state.
- **Transcript and agent** (`Messages`, `Transcript`, `AgentLoop`, `Drafts`). The tool-calling loop,
  the Anthropic form of a transcript, decoding, replay of persisted turns, and the draft tool on top.
- **Rank lookup** (`RankLookup`). From a score to a rank with one year of walk-back.

Methods follow the loops and field updates of the source and are proved against functions; the
theorems are lemmas about those functions. What each function computes is also stated without it, in terms
of the inputs alone: the events a run appended, the texts and calls of the messages, the fragments of a
stream, the fields of an order. `Options` and `Sequences` are shared helpers.

## Findings

Where the code does not have a property one would expect of it, the exact condition is proved:

- `Table.FullTableIff`: safe items with too few places are dropped after they were picked and are not
  replaced. The table has plan size exactly when the picks reach it and none of them is dropped;
  `Table.DroppedPickLeavesFreeCandidate` is a table left empty beside a free candidate.
- `Table.FreeBesideShortTable`: an unfilled tier hands its quota to the next tier and none to an earlier
  one, although the total is meant to come near the plan size
  (internal/admission/recommendation_service.go:125-126). With nothing dropped, the only candidates with a
  place left beside a short table lie in the rush or match window, and the quotas up to that tier were
  used up; `Table.NothingSpillsBack` is an empty table beside a free candidate of the rush window.
- `Membership.RevokeForfeits`: refunding the last order also takes the unexpired time of earlier
  orders; it takes no more than its own exactly when no other order has time left
  (`Membership.RenewalRefundLosesEarlierTime` is a run). `Fulfilment.FullRefundEndsMembershipIff` says
  when a full refund ends an active membership at all: refunding an earlier order leaves it as it is,
  while a paid order is marked refunded either way (`Fulfilment.FullRefundRefundsIff`).
- The next three conditions about payments are exact for a request that runs alone and whose store calls
  all succeed; what holds among other requests and failing calls is in the methods of
  `Fulfilment.PaymentService`.
  - `Fulfilment.CallbackSettlesIff`, and for open orders `Fulfilment.OpenOrderSettlesIff`: an open order
    is settled exactly by an accepted callback in time whose id and trade number are both new, while its
    plan can be had. Success is also reported when the id is on record, and when the trade is on record
    for the order; then the order still waits. On both channels both are reached by a request that fails
    halfway (`Fulfilment.LostCallbackIsReached`, `Fulfilment.StrandedTradeIsReached`). Only Alipay is
    asked about its trades: there detection settles such an order
    (`Fulfilment.StrandedAlipayTradeIsDetected`), and `Fulfilment.DetectionSettlesIff` says what detection
    settles for every order and every answer. Nothing asks about a stranded trade of the other channel.
  - `Fulfilment.FulfilSettlesIff`: a paid order is settled by fulfilment exactly when it is not refunded
    and its plan can still be had; a plan withdrawn after the payment leaves it unsettled. Fulfilling a
    refunded order adds a grant exactly when it had none and the plan can be had, and the order stays
    refunded (`Fulfilment.RefundedWithoutGrantIsReached`).
  - `Fulfilment.RegrantSettlesIff`: regranting a refunded order always fails and overwrites its entitlement,
    revoked, with failed. No later transaction of any run changes that, and every later retry, redetection
    included, fails too (`Fulfilment.RefundedFailureIsFinal`).
- `Transcript.EchoIsExactIff`: blocks are documented to go back unchanged (internal/ai/llm.go:85-92);
  they do exactly when no block fills a field outside its kind. Preserved blocks never survive
  persistence: a replayed conversation goes back without any (`Transcript.ReplayLosesThinking`).
- `Drafts.StepKeepsNewestIff`: a call leaves two live drafts exactly when it creates one while the list
  cannot be read and the newest is live, or while the supersede of a drifted draft fails
  (`Drafts.FailedReadOverlaps` and `Drafts.FailedSupersedeOverlaps` are runs).
- `Drafts.StuckIff`: after a call the newest draft is generating exactly when the call created it and
  neither of its two final marks could be written, or when the call created none and it was generating
  before. Such a draft (`Drafts.StuckDraftIsReached` is a run) stops its conversation for as long as the
  list can be read; a call that cannot read the list goes past it (`Drafts.GeneratingWaitsIff`,
  `Drafts.GeneratingBlocks`).

The comment at internal/admission/recommendation_service.go:479-482 speaks of windows that overlap by
1000 ranks; the code gives adjacent windows one shared bound, and the model follows the code.


## Model

| member | source | states |
|---|---|---|
| Selection.PickBooks | internal/admission/recommendation_service.go:549-568 | After any prefix of the scored list the picks are in list order, within quota, admissible, and the shared books hold exactly the earlier entries plus the picks, per group and per school |
| Selection.PickedOrBlocked | internal/admission/recommendation_service.go:549-568 | While the quota is open, every scanned item is picked or blocked by its group or by the school cap |
| Selection.PickGrows | internal/admission/recommendation_service.go:549-568 | Books only fill up and picks are only added: a blocked item stays blocked |
| Selection.GreedyPrefixMaximal | internal/admission/recommendation_service.go:549-568 | In every prefix the greedy pass has at least as many picks as any choice that obeys one item per unseen group, the school cap and the quota |
| Selection.GreedyOptimal | internal/admission/recommendation_service.go:549-568 | Greedy is itself feasible, is largest, and its i-th pick comes no later than the i-th pick of any feasible selection |
| Selection.GreedyBestScores | internal/admission/recommendation_service.go:549-568 | On a descending list the i-th best greedy score dominates that of every feasible selection, and with non-negative scores the total is maximal |
| Recommend.StableSortContract | internal/admission/recommendation_service.go:957-959 | The sort is a descending permutation that keeps items of equal score in their old order |
| Recommend.ScoredMembers | internal/admission/recommendation_service.go:913-960 | Scoring neither invents nor loses a candidate and labels each with tier and score |
| Recommend.WindowsAlwaysMeet | internal/admission/recommendation_service.go:571-599 | For any monotone scaling each bound is the scaled rank or 1, the clamped windows share their bounds, and together they are exactly one interval of ranks |
| Recommend.MergeRows | internal/admission/recommendation_service.go:503-519 | Rows of one query extend the merged list by first occurrences of their ids |
| Recommend.FetchBucketCandidates | internal/admission/recommendation_service.go:489-521 | The three queries are merged by first id; any failed query fails the whole |
| Recommend.FetchedCandidates | internal/admission/recommendation_service.go:489-521 | Under the query contract every merged candidate is ranked inside some window, ids are distinct, none is lost, and the sizes are bounded by the limits |
| Recommend.FetchAsksEachWindow | internal/admission/recommendation_service.go:489-521 | All three windows are asked, each with its own limit, and the fetch fails exactly when one of the three queries does |
| Recommend.FirstByIdIsFirst | internal/admission/recommendation_service.go:503-519 | The merged rows are the first rows of their ids, unchanged and in the order they came |
| Recommend.ExcludedByAbility | internal/admission/recommendation_service.go:857-871 | Visiting the subject thresholds in any order gives the same exclusion |
| Recommend.IsExcluded | internal/admission/recommendation_service.go:850-891 | The tests of the filter together exclude exactly the candidates it does not keep |
| Recommend.FilterByPreference | internal/admission/recommendation_service.go:850-891 | In-place compaction leaves the functional filter of the original slice in front and does not touch the rest |
| Recommend.FilteredMembers | internal/admission/recommendation_service.go:850-891 | A candidate survives exactly when it was there and no rule excludes it |
| Recommend.KeepIff | internal/admission/recommendation_service.go:799-891 | In terms of texts, scores and rules: a candidate is kept exactly when no rule that is the last of its subject fails, no excluded keyword stands for its category or occurs in its text, and one of the required majors does |
| Recommend.FilteredSplits | internal/admission/recommendation_service.go:850-891 | What is kept of a pool is what is kept of its parts, in pool order |
| Recommend.MoreExclusionsShrinkPool | internal/admission/recommendation_service.go:850-891 | Adding exclusions leaves what filtering the old pool again would leave, so the pool never grows |
| Table.WindowScan | internal/admission/recommendation_service.go:538-547 | The scan keeps the candidates ranked in the window, in order |
| Table.SlotBooks.PickBucket | internal/admission/recommendation_service.go:525-569 | The early-stopping loop over the two shared maps equals the greedy fold on the sorted window and leaves its books |
| Table.SlotBooks.Take | internal/admission/recommendation_service.go:551-564 | An item is taken exactly when neither its group nor its school blocks it, and is then booked once in each map |
| Table.SlotBooks.PickScan | internal/admission/recommendation_service.go:549-568 | Stopping at the quota loses nothing against the fold over the whole list |
| Table.TierBooks | internal/admission/recommendation_service.go:525-569 | A tier obeys its quota, picks fresh pairwise different groups, and books exactly those; the school counters stay true and capped |
| Table.TierMembers | internal/admission/recommendation_service.go:525-569 | A tier consists of pool candidates ranked in its window, with its label and their score |
| Table.TierShortfall | internal/admission/recommendation_service.go:525-569 | A tier below its quota leaves every candidate of its window blocked |
| Table.TierOptimal | internal/admission/recommendation_service.go:525-569 | Given the books and the quota, a tier is at least as good, place by place, as any other admissible choice from its window |
| Table.QuotaSplitsPlan | internal/admission/recommendation_service.go:603-611 | The 1:2:1 split sums to the plan size and the remainder stays in the middle tier |
| Table.SafeQualityPart | internal/admission/recommendation_service.go:1240-1250 | Exactly the items with a known plan of one to four places are dropped, and no group is repeated by it |
| Table.RecommendTable | internal/admission/recommendation_service.go:121-146 | The three passes over shared maps with spilled quotas compute the specified table, numbered from 1; what that table is, the next rows say |
| Table.TierSizes | internal/admission/recommendation_service.go:121-134 | With the split of the plan size alone: the first one, two and three tiers never pick more than their quotas together |
| Table.TiersOptimal | internal/admission/recommendation_service.go:121-134 | Each tier beats, place by place, every admissible choice from its window that fits into its quota plus what the tiers before it left unused |
| Table.TableOrder | internal/admission/recommendation_service.go:134-146 | The table lists rush, match and safe items in this order, each tier by falling score, and consists of exactly what was picked and not dropped |
| Table.TiesInPoolOrder | internal/admission/recommendation_service.go:538-547 | Candidates of a window with equal scores are tried in pool order |
| Table.TierKeys | internal/admission/recommendation_service.go:123-134 | Tiers never pick the same group and the shared books are the union of their groups |
| Table.ShortfallMeansTaken | internal/admission/recommendation_service.go:128-133 | Whenever the first one, two or three tiers together pick less than their quotas of the split together, no candidate of the window of the last of them has a place left: its group is picked, or four of its university are |
| Table.BooksHoldPicks | internal/admission/recommendation_service.go:121-134 | The books after each tier block exactly those whose group is among the picks so far or whose university has four of them |
| Table.FullTableIff | internal/admission/recommendation_service.go:128-146 | The finished table has plan size exactly when the picks reach it and no picked safe item is dropped afterwards |
| Table.ShortTableMeansBlockedOrDropped | internal/admission/recommendation_service.go:132-146 | When the finished table is short, no candidate of the safe window, the last one picked, has a place left, or a picked safe item was dropped |
| Table.FreeMeansTierFull | internal/admission/recommendation_service.go:125-134 | A candidate of any window that still has a place at the end lies only in windows up to whose tier the quotas of the split were used up |
| Table.FreeBesideShortTable | internal/admission/recommendation_service.go:125-134 | The candidates left free beside a short table that dropped nothing: none of the safe window, and of the rush and match windows only those whose tiers were filled |
| Table.NothingSpillsBack | internal/admission/recommendation_service.go:125-134 | A concrete pool whose table stays empty, with nothing dropped, although a candidate of the rush window is free |
| Table.DroppedPickLeavesFreeCandidate | internal/admission/recommendation_service.go:132-134 | A concrete pool whose table stays empty although a candidate of the safe window is free |
| Table.TableRules | internal/admission/recommendation_service.go:121-146 | The table never exceeds the plan size, never repeats a university with a group, holds at most four items of a university, and every item is a pool candidate in its tier window |
| Table.PreviewCounts | internal/admission/recommendation_service.go:401-418 | Each candidate is counted under the first window that holds its rank |
| Table.CountsSum | internal/admission/recommendation_service.go:401-418 | The three counts sum to the pool size exactly when every candidate lies in some window |
| Table.CountsByRank | internal/admission/recommendation_service.go:401-418 | The three counts are the numbers of ranks from the first bound to the second, above it to the third, and above that to the last |
| Table.PreviewCountsSumToPool | internal/admission/recommendation_service.go:396-418 | Whatever is filtered out, the preview counts sum to its pool size |
| Table.EveryRankHasATier | internal/admission/recommendation_service.go:571-599 | No rank between the outer bounds falls between two tiers |
| VolunteerPlan.BuildGroupMajorRoster | internal/admission/recommendation_service.go:197-249 | For any order of map iteration each wanted group gets the same roster; a missing group has no rows |
| VolunteerPlan.RosterCodes | internal/admission/recommendation_service.go:226-247 | The roster of a group holds exactly the non-empty major codes of its rows in the pool |
| VolunteerPlan.RosterByScore | internal/admission/recommendation_service.go:226-247 | Each roster entry names a best-scored row of its code, and no row of an entry behind it scores better |
| VolunteerPlan.FoldScan | internal/admission/recommendation_service.go:278-316 | The index map always points at the group of its key; the loop equals the fold |
| VolunteerPlan.RefillScan | internal/admission/recommendation_service.go:318-342 | Refilling the groups in any order gives every group its own roster fill |
| VolunteerPlan.BuildVolunteerPlan | internal/admission/recommendation_service.go:278-354 | Plan and record count do not depend on map iteration order; the record count is the sum over the groups |
| VolunteerPlan.RecordsAreMajors | internal/admission/recommendation_service.go:339-342 | The record count is the number of majors in all groups |
| VolunteerPlan.FoldDistinct | internal/admission/recommendation_service.go:283-316 | For distinct groups the fold gives one group per item, in item order |
| VolunteerPlan.FoldCollects | internal/admission/recommendation_service.go:278-316 | For any items one group per key, in the order of first occurrence, with number and tier of its first item and all its picked majors in item order |
| VolunteerPlan.FillKeepsShape | internal/admission/recommendation_service.go:326-341 | Refilling keeps the picked major first, codes distinct, orders consecutive, the cap, and below the cap adds everything |
| VolunteerPlan.FillFollowsRoster | internal/admission/recommendation_service.go:326-341 | Added majors are the missing roster majors, code and name, in roster order, cut only by the room left |
| VolunteerPlan.PlanShape | internal/admission/recommendation_service.go:197-354 | One group per item: 1 to 6 majors, the pick first, distinct codes; below 6 it contains every non-empty code of its candidates |
| VolunteerPlan.RecommendedPlan | internal/admission/recommendation_service.go:121-193 | The same for the plan of any recommended table, with group numbers, size and record count bounds |
| Turns.Turn.Append | internal/ai/turn_manager.go:50-70 | One event is logged and offered to each registered channel, in any order of iteration; a full channel drops it; after the end nothing happens |
| Turns.Turn.MarkFinished | internal/ai/turn_manager.go:74-87 | Every registered channel is closed once, and a second call changes nothing |
| Turns.Turn.Subscribe | internal/ai/turn_manager.go:96-120 | The backlog is the log at that moment; a running turn registers a fresh channel, a finished one hands out none |
| Turns.Turn.Unsubscribe | internal/ai/turn_manager.go:110-119 | Removes and closes the channel once; repeating it changes nothing |
| Turns.NeverPanics | internal/ai/turn_manager.go:50-120 | In every interleaving no closed channel is sent to or closed again, and no channel holds more than 64 undelivered events |
| Turns.LogGrows | internal/ai/turn_manager.go:50-87 | The log only grows and is frozen by the end |
| Turns.LogIsWhatWasAppended | internal/ai/turn_manager.go:50-87 | In every run the log is exactly the events appended before the first finish, in order, whoever is subscribed |
| Turns.RunRegisters | internal/ai/turn_manager.go:74-120 | A subscriber is registered exactly until it leaves or the turn finishes |
| Turns.RunSends | internal/ai/turn_manager.go:50-70 | Along every run the channel of a subscriber carries a subsequence of what is appended while it stays; sent events and those that met 64 undelivered ones add up |
| Turns.HeardIsRest | internal/ai/turn_manager.go:50-120 | What is appended for a subscriber while it stays continues what was appended before it came |
| Turns.SubscriberSeesLog | internal/ai/turn_manager.go:50-120 | In terms of the appended events alone: the backlog is all of them so far; the channel agrees with the later ones exactly when none met a full channel; then what has been read is a gapless prefix of all |
| Turns.LateSubscriberSeesAll | internal/ai/turn_manager.go:96-104 | A subscriber after the end gets every event that was appended before it, and there will be no more |
| Turns.ClosedChannelFrozen | internal/ai/turn_manager.go:50-120 | A closed channel receives nothing more and can still be drained |
| Turns.UnsubscribeDetaches | internal/ai/turn_manager.go:110-119 | A subscriber that has left is never registered again; its channel is closed as it was |
| Turns.ReadsDeliver | internal/ai/turn_manager.go:96-120 | Every read takes the oldest undelivered event, and n reads take n of them or all there are |
| TurnManagers.TurnManager.Start | internal/ai/turn_manager.go:154-199 | Refuses exactly while the indexed turn of the conversation runs; otherwise indexes a fresh turn, and each running turn stays indexed and every started turn safe |
| TurnManagers.TurnManager.Finish | internal/ai/turn_manager.go:172-175 | Ending a turn closes its channels and changes no index entry |
| TurnManagers.TurnManager.Cleanup | internal/ai/turn_manager.go:176-184 | The timer removes the index entry only if it still is this turn |
| TurnManagers.TurnManager.Get | internal/ai/turn_manager.go:203-207 | The turn handed out was started for this conversation, and a turn that runs in it is always the one handed out |
| TurnManagers.RunsStayConsistent | internal/ai/turn_manager.go:154-207 | In every interleaving of start, end, late cleanup and reads each running turn is the one indexed for its conversation |
| TurnManagers.OneTurnPerConversation | internal/ai/turn_manager.go:154-199 | At most one turn runs per conversation, and start is refused exactly while one does |
| TurnManagers.LateCleanupIsHarmless | internal/ai/turn_manager.go:176-184 | A late cleanup removes no other turn and never makes a second start possible or impossible |
| TurnManagers.CleanedUpIsForgotten | internal/ai/turn_manager.go:176-207 | In every run a turn that was cleaned up is never handed out again |
| TurnManagers.TurnStaysReachable | internal/ai/turn_manager.go:154-207 | A turn stays reachable until its own cleanup or the next start in its conversation |
| Utf8.Utf8DeltaBuffer.Push | internal/ai/openai_client.go:327-357 | Output and pending together are old pending plus input, cut at the specified place; at most three bytes wait |
| Utf8.Utf8DeltaBuffer.Flush | internal/ai/openai_client.go:359-366 | Hands out what was pending and empties the buffer |
| Utf8.StreamText | internal/ai/openai_client.go:327-366 | Pushing chunks one by one through the buffer object computes the specified outputs and tail |
| Utf8.ChunkingDoesNotMatter | internal/ai/openai_client.go:327-357 | For arbitrary bytes, output and pending are the input cut at a place that does not depend on the chunking |
| Utf8.HoldIsAligned | internal/ai/openai_client.go:327-383 | On prefixes of well-formed streams the masks and the ranges of RFC 3629 section 4 agree on what to hold back |
| Utf8.HoldIffIncomplete | internal/ai/openai_client.go:327-383 | Of arbitrary bytes, well-formed or not, exactly an incomplete character at the end is held back: a lead byte with fewer continuation bytes than it announces |
| Utf8.OutputIsWellFormed | internal/ai/openai_client.go:327-357 | Each single output of a well-formed stream is well-formed |
| Utf8.WellFormedStream | internal/ai/openai_client.go:327-366 | After any chunks the output is the longest prefix made of complete characters, and the final flush is empty |
| ToolStream.FirstSeenIsExact | internal/ai/openai_client.go:170-184 | Each index is listed once, in order of first appearance |
| ToolStream.AddFragment | internal/ai/openai_client.go:269-287 | The accumulator holds, per index, the last non-empty id and name and all argument pieces in order |
| ToolStream.FlushPending | internal/ai/openai_client.go:170-187 | A flush emits the accumulated call of each index, position by position in first-appearance order |
| ToolStream.StreamDecoder.Feed | internal/ai/openai_client.go:255-293 | One frame moves the decoder as specified: text first, then fragments, then a flush on tool_calls |
| ToolStream.StreamDecoder.End | internal/ai/openai_client.go:226-233 | The end flushes held text, then pending calls, then done |
| ToolStream.StreamBody | internal/ai/openai_client.go:154-306 | The reading loop emits exactly the specified chunks, for every line sequence, done marker or not, and for a failing scanner |
| ToolStream.BatchesPartition | internal/ai/openai_client.go:269-293 | Batches between flushes cut the fragment stream without losing or repeating a fragment |
| ToolStream.TextMeans | internal/ai/openai_client.go:259-268 | Text emitted plus text held is the content so far |
| ToolStream.CallsMean | internal/ai/openai_client.go:170-187 | Calls emitted so far are those of the closed batches |
| ToolStream.StreamCalls | internal/ai/openai_client.go:170-293 | The calls of a finished stream in terms of its fragments: batch after batch one per index, ordered by first occurrence in the batch, each with the last non-empty id and name and all argument pieces joined |
| ToolStream.BatchesEndAtCuts | internal/ai/openai_client.go:269-293 | What came since the last tool_calls finish is open, and everything before it is in closed batches |
| ToolStream.CallsFollowText | internal/ai/openai_client.go:255-293 | What a line emits comes behind what was emitted, and its calls behind all text so far but an incomplete end |
| ToolStream.StreamIsComplete | internal/ai/openai_client.go:154-306 | A stream that ends in done emits one done, last; all the text; and one call per index of each batch |
| ToolStream.FailedStreamReports | internal/ai/openai_client.go:295-306 | A stream whose reading fails ends in one error and no done, with all text but an incomplete end and the calls of its closed batches |
| ToolStream.ArgumentsConserved | internal/ai/openai_client.go:269-293 | Every argument piece of an index is emitted exactly once, in order, whatever the interleaving and the flushes |
| ToolStream.TextChunksWellFormed | internal/ai/openai_client.go:203-268 | Well-formed content reaches the reader in well-formed pieces however frames cut it |
| Membership.MembershipStore.GrantMembership | internal/membership/store.go:336-443 | One transaction: replay, activate, renew or restore, with the exact interval, row and outcome |
| Membership.MembershipStore.RevokeMembershipForOrder | internal/membership/store.go:445-554 | One transaction: replay, no-op for another order, or the end of the membership now |
| Membership.MembershipStore.HasActiveMembership | internal/membership/store.go:312-334 | The answer, and the lazy expiry it may write |
| Membership.MembershipStore.GetCurrentStatus | internal/membership/store.go:293-310 | An active row past its end is reported expired; active is reported exactly when the ledger says the user is active |
| Membership.RunAgrees | internal/membership/store.go:336-554 | On every run with a monotone clock the row repeats what the grants since the last revoke say |
| Membership.GrantsAreDisjoint | internal/membership/store.go:378-391 | Between revokes the intervals are exactly their duration long and pairwise disjoint |
| Membership.ActiveIffCovered | internal/membership/store.go:312-334 | A user is active exactly when a grant since the last effective revoke covers the time |
| Membership.RemainingTimeIsConserved | internal/membership/store.go:378-433 | While active, the remaining time is the sum of the unexpired parts of the grants |
| Membership.GrantAddsItsDuration | internal/membership/store.go:378-433 | A successful grant adds exactly its duration |
| Membership.StartIsFirstGrant | internal/membership/store.go:393-433 | A user has a row exactly when there is a grant, and the row starts where the first grant of the user started |
| Membership.ActionMeans | internal/membership/store.go:374-391 | A grant activates a user without grants, renews one who is covered, and restores any other |
| Membership.StatusMeans | internal/membership/store.go:293-310 | Nothing is reported before the first grant, active while covered, refunded after an effective revoke, expired otherwise |
| Membership.CheckTellsTruth | internal/membership/store.go:312-334 | After an activity check the stored status is active exactly while a live grant covers the time, and nothing else has changed |
| Membership.OutcomesMean | internal/membership/store.go:336-515 | The answers to grants and revokes in terms of the keys and live grants so far |
| Membership.RevokeTakesLatestOrderIff | internal/membership/store.go:462-515 | On every clocked run a revoke does something exactly when its key is new and its order is that of the latest live grant; with no live grant it changes no answer about activity |
| Membership.RevokeEndsMembershipIff | internal/membership/store.go:493-536 | On every clocked run a revoke ends an active membership exactly when its key is new and its order is that of the latest live grant, and changes nothing otherwise |
| Membership.RevokeForfeits | internal/membership/store.go:493-536 | An effective revoke ends everything; it takes only the refunded order's time exactly when no other order has unexpired time |
| Membership.RenewalRefundLosesEarlierTime | internal/membership/store.go:493-536 | A concrete run in which refunding a renewal forfeits 29 days of the first purchase |
| Membership.LazyExpiryIsInvisible | internal/membership/store.go:312-334 | Runs with and without the lazy writes give the same later answers, grants and revokes |
| Membership.KeysPersist | internal/membership/store.go:347-372 | A key once in the grant table stays there |
| Membership.KeysAreUnique | internal/membership/store.go:347-372 | No two grant rows share a key, whatever the calls |
| Membership.GrantHasCall | internal/membership/store.go:393-414 | Every grant row comes from a call with its key, order and user |
| Membership.ReplaysEraseToOne | internal/membership/store.go:347-372 | Grants and rows are those of the run with all but the first successful grant of a key deleted |
| Fulfilment.KeysAreDistinct | internal/payment/service.go:614-620 | Keys of different orders differ, and no order key is a revoke key |
| Fulfilment.ApplyKeepsInv | internal/payment/store.go:323-487 | Every store transaction keeps: fulfilled or granted orders have their grant, only paid orders are granted, and orders move only forward |
| Fulfilment.EveryRunIsSound | internal/payment/store.go:323-487 | The same in every interleaving of transactions of any requests |
| Fulfilment.GrantsArePaidFor | internal/payment/service.go:602-627 | Each grant belongs to a paid order of its own user, and no order has two grants |
| Fulfilment.ReplaysAreErased | internal/payment/service.go:602-627 | However often and by whichever path an order is fulfilled, the ledger is that of the run with its replays deleted |
| Fulfilment.FulfilSettlesIff | internal/payment/service.go:602-627 | For every paid order running alone: settled exactly when it was, or it is not refunded and its plan can be had; granted exactly when it was or the plan can be had; the ledger stays exactly when it had its grant or the plan cannot be had; repeating it on a settled order changes nothing |
| Fulfilment.ResolveSettlesIff | internal/payment/service.go:370-443 | For every order and trade number: when it settles and when success is reported |
| Fulfilment.CallbackSettlesIff | internal/payment/service.go:201-444 | For every order and every callback, exactly when it settles the order and exactly when success is reported |
| Fulfilment.OpenOrderSettlesIff | internal/payment/service.go:332-444 | An open order is settled exactly by an accepted callback in time with a new id and a new trade number and a plan that can be had; success is reported also for an id or an own trade on record, and then order and ledger are unchanged |
| Fulfilment.LostCallbackIsReached | internal/payment/service.go:336-342 | For either channel, a run in which the retry of a saved callback is answered with success and does nothing |
| Fulfilment.StrandedTradeIsReached | internal/payment/service.go:370-405 | For either channel, a run in which a callback for a recorded trade succeeds while the order waits |
| Fulfilment.RefundedWithoutGrantIsReached | internal/payment/service.go:582-600 | A run after which fulfilling a refunded order grants what was never granted |
| Fulfilment.PaymentSettlesIff | internal/payment/service.go:137-146 | For every order: marking it paid and fulfilling it settles exactly the settled ones and those that may be paid and whose plan can be had; the response says which |
| Fulfilment.StrangersCannotPay | internal/payment/service.go:115-119 | An order is found exactly by its own user; to anybody else nothing is shown and nothing changes |
| Fulfilment.PayMockSettlesIff | internal/payment/service.go:115-149 | Paying settles, and reports success, exactly for the own user of an order that waits, is in time, has a new trade and a plan that can be had |
| Fulfilment.PayMockRefusalMeans | internal/payment/service.go:115-149 | Which error an own order is refused with, in terms of its fields, the trade and the plan |
| Fulfilment.PayingCloses | internal/payment/service.go:120-125 | Paying closes an order exactly when it waits, belongs to the user who pays, and has expired |
| Fulfilment.CallbackCloses | internal/payment/service.go:360-371 | A callback closes an order exactly when it is new and accepted and the order waits and has expired |
| Fulfilment.DetectionCloses | internal/payment/service.go:446-512 | Detection closes an order exactly when it waits and its own user is told that its trade is closed |
| Fulfilment.PayingCredits | internal/payment/service.go:115-149 | A waiting order that ends up settled has credited its user the days of the plan, once, under its key; one that does not has credited nothing |
| Fulfilment.CallbackCredits | internal/payment/service.go:201-444 | The same for callbacks |
| Fulfilment.DetectionCredits | internal/payment/service.go:446-512 | The same for detection |
| Fulfilment.CreditAddsDays | internal/payment/service.go:602-627 | Such a credit adds exactly the days of the plan to the time the user has left |
| Fulfilment.PayingTouches | internal/payment/service.go:115-149 | Paying changes no other order |
| Fulfilment.CallbackTouches | internal/payment/service.go:201-444 | A callback changes no other order |
| Fulfilment.DetectionTouches | internal/payment/service.go:446-512 | Detection changes no other order |
| Fulfilment.DetectionSettlesIff | internal/payment/service.go:446-512 | For every user, order and answer of the provider: detection settles exactly what was settled, and for the user who owns the order, while the plan can be had, what was paid and not refunded or waits and is reported paid; it reports success exactly to that user, when the order ends up settled or had nothing to retry |
| Fulfilment.PaidAnswerSettlesIff | internal/payment/service.go:463-494 | A trade the provider reports paid settles every order under the same condition, on record or not |
| Fulfilment.RetrySettlesIff | internal/payment/service.go:499-508 | A retry settles exactly the settled orders and the paid ones whose plan can be had, and reports success exactly for settled orders and those that need no retry |
| Fulfilment.StrandedAlipayTradeIsDetected | internal/payment/service.go:453-494 | After the run that strands an Alipay trade, detection settles the order |
| Fulfilment.RegrantSettlesIff | internal/payment/service.go:582-600 | A regrant settles, and reports success, exactly when the order is settled or paid, not refunded, with a plan that can be had; a refunded order is left as it was but for its entitlement, which turns from revoked to failed |
| Fulfilment.RefundedFailureIsFinal | internal/payment/store.go:450-457 | A refunded order once marked as failed never changes again in any run, and every later retry fails |
| Fulfilment.PaymentService.Interfere | internal/payment/service.go:115-627 | Any transactions of other requests keep the invariant and move orders only forward |
| Fulfilment.PaymentService.FulfillMembership | internal/payment/service.go:602-627 | Success means the order is settled for good, under interference and failing calls |
| Fulfilment.PaymentService.FulfilOrMarkFailed | internal/payment/service.go:141-144 | Fulfilment with its failure mark; alone, success and the settled order coincide |
| Fulfilment.PaymentService.SettleTrade | internal/payment/service.go:412-443 | Attempt, payment and fulfilment of a new trade; success means settled |
| Fulfilment.PaymentService.CheckPayable | internal/payment/service.go:629-637 | The payable check; an expired order is closed |
| Fulfilment.PaymentService.CheckCallback | internal/payment/service.go:360-371 | A callback for an order already paid or fulfilled is not refused; otherwise the payable check decides |
| Fulfilment.PaymentService.PayMock | internal/payment/service.go:115-149 | Success means settled, under interference and failing calls; alone, the exact new state and response |
| Fulfilment.PaymentService.ProcessMockCallback | internal/payment/service.go:332-444 | Among other requests, success of a callback that is no duplicate means: accepted, saved, its trade on record for the order, and the order settled or shown in a state that needs no retry; alone, the exact new state and response of every branch |
| Fulfilment.PaymentService.HandleMockCallback | internal/payment/service.go:344-444 | The same for a callback just saved |
| Fulfilment.PaymentService.ResolveMockTrade | internal/payment/service.go:370-443 | Among other requests, success means the trade is on record for this order and no other, and the order is settled or shown in a state that needs no retry; alone, a trade on record is not paid again |
| Fulfilment.PaymentService.ProcessAlipayCallback | internal/payment/service.go:201-330 | An unverified or unfinished callback changes nothing; among other requests, success of one that is no duplicate means: saved, amount and trade are the order's, and the order is settled or needed no retry when it was read; alone, the exact new state and response |
| Fulfilment.PaymentService.HandleAlipayCallback | internal/payment/service.go:236-329 | The same for a callback just saved; alone, the judging reading is the order before the call |
| Fulfilment.PaymentService.ResolveAlipayTrade | internal/payment/service.go:266-329 | Judged by the earlier reading: success means the trade is on record for this order, and the order is settled unless that reading needed no retry |
| Fulfilment.PaymentService.Detect | internal/payment/service.go:446-512 | Among other requests, success means the order is settled or shown in a state that needs no retry; alone, the exact new state and response for every provider answer |
| Fulfilment.PaymentService.RedetectAdmin | internal/payment/service.go:563-580 | Success means settled or shown in a state that needs no retry; alone, exactly what is paid or failed is fulfilled again and any other order returned as it is |
| Fulfilment.PaymentService.RegrantMembership | internal/payment/service.go:582-600 | Success means settled; alone, whatever was paid is fulfilled again and success is reported exactly when it ends up settled |
| Fulfilment.PaymentService.FinalizeFullRefund | internal/payment/service.go:789-802 | Revoke, then mark refunded, each best effort; alone it does exactly both |
| Fulfilment.FullRefundRefundsIff | internal/payment/service.go:789-802 | Afterwards the order is refunded exactly when it was paid |
| Fulfilment.FullRefundEndsMembershipIff | internal/payment/service.go:789-802 | Alone, a full refund ends an active membership exactly when its revoke is complete and new and the order is that of the latest live grant; otherwise the ledger stays as it is and the user stays active |
| Transcript.ConvertMessages | internal/ai/anthropic_client.go:40-128 | The conversion loop, with the user message before rewritten in place, computes the specified Anthropic form and system text |
| Transcript.EncodeAssistant | internal/ai/anthropic_client.go:73-121 | Preserved blocks win over the call list; text precedes the calls; a call sends what its argument text decodes to |
| Transcript.MergeLosesNothing | internal/ai/anthropic_client.go:49-71 | Splitting the merged messages recovers the non-system input in order, and result messages are never adjacent |
| Transcript.MergeIsUnique | internal/ai/anthropic_client.go:49-71 | The merged form is the only one with that property, so results of two turns are never merged |
| Transcript.ConversionConveys | internal/ai/anthropic_client.go:40-128 | Read back item by item, the Anthropic form says what the messages say: role and text, the text and each id, name and arguments of calls, content and call id of results, and preserved blocks as far as their kinds carry them |
| Transcript.LastSystemWins | internal/ai/anthropic_client.go:44-48 | The system text is that of the last system message, empty without one |
| Transcript.ShapedIsPaired | internal/ai/anthropic_client.go:42-128 | In the Anthropic form of a well-formed transcript each tool-using turn is followed by exactly one message with exactly its results in order |
| Transcript.DecodeResponse | internal/ai/anthropic_client.go:197-227 | Text, calls and blocks of a response; calls and blocks name the same ids |
| Transcript.DecodedReads | internal/ai/anthropic_client.go:197-227 | The text of a reply joins its text blocks, and its calls are its tool_use blocks field by field and in order |
| Transcript.EchoIsExactIff | internal/ai/anthropic_client.go:77-92 | A preserved block goes back unchanged exactly when it fills no field outside its kind; redacted data is lost |
| Transcript.ReplayMessages | internal/ai/handler.go:621-653 | The nested loops compute the specified replay |
| Transcript.ReplayTells | internal/ai/handler.go:621-653 | Stored turns are replayed one behind the other, each with its role and text and, with both calls and results, exactly those |
| Transcript.ReplayIsShapedIff | internal/ai/handler.go:621-653 | A replayed conversation is well-formed exactly when the calls and results of each of its turns are aligned |
| Transcript.ReplayLosesThinking | internal/ai/handler.go:621-653 | However the stored turns were produced, a replayed conversation goes back with text, tool uses and results only: preserved blocks do not survive persistence |
| AgentLoop.RunOneIteration | internal/ai/agent.go:513-547 | Text and calls in order and the blocks of the done event; any error event loses the reply |
| AgentLoop.AnthropicReplySurvives | internal/ai/anthropic_client.go:239-272 | A blocking reply passes through the synthesized stream unchanged |
| AgentLoop.DecodedRepliesAreFaithful | internal/ai/anthropic_client.go:197-272 | Any decoded Anthropic reply reaches the loop with blocks that name its calls |
| AgentLoop.OpenAIReplyIsComplete | internal/ai/openai_client.go:154-306 | An OpenAI stream that ends in done is read by the agent as its whole content, one call per index of each batch, and no blocks; a failed reading is no reply |
| AgentLoop.StreamedRepliesAreFaithful | internal/ai/openai_client.go:154-306 | Any OpenAI reply is one the loop may rely on |
| AgentLoop.EmitWidgets | internal/ai/agent.go:334-344 | The first five widgets of a run are kept, the others dropped |
| AgentLoop.JoinIterationTexts | internal/ai/agent.go:499-507 | Texts are joined in order with the marker between them |
| AgentLoop.JoinConcat | internal/ai/agent.go:499-507 | Joining two lists puts exactly one marker between them |
| AgentLoop.ExecuteCalls | internal/ai/agent.go:429-469 | Calls run in order, one result each; a failing tool yields an error result |
| AgentLoop.Iterate | internal/ai/agent.go:370-470 | One round: failed model, final text, or assistant turn plus all its results |
| AgentLoop.RunStream | internal/ai/agent.go:314-491 | At most eight requests, the first of them prompt and history, each the state after the rounds before; result, failure or partial result as specified, wherever it is cancelled |
| AgentLoop.RunMeans | internal/ai/agent.go:314-491 | In terms of the replies to the requests: every one but the last asked for tools, a reply without calls finishes, a failed one fails, eight are the limit; the result joins the non-blank texts of all replies and has all their calls with results |
| AgentLoop.RunIsAccounted | internal/ai/agent.go:429-469 | After any number of rounds the k-th result reports what the tool made of the k-th call, given the results before it, and the first five widgets are kept |
| AgentLoop.RequestsTell | internal/ai/agent.go:314-470 | Every request starts with prompt and history, and each round adds the reply as it was and, per call in order, the recorded result |
| AgentLoop.TrimSpaceMeans | internal/ai/agent.go:408-409 | Trimming takes white space off both ends, all of it and nothing else |
| AgentLoop.RequestsAreShaped | internal/ai/agent.go:358-470 | From a well-formed history every request is well-formed, in its own form and in the Anthropic form |
| AgentLoop.RoundsInStep | internal/ai/agent.go:429-470 | Executed calls and results stay aligned one to one, are those the replies asked for, and nothing sent is taken back |
| AgentLoop.PersistedRunReplays | internal/ai/handler.go:304-316 | A well-formed stored conversation stays well-formed when a run is persisted, after any number of rounds |
| Drafts.OnlyAdmittedCallsAct | internal/ai/tools.go:180-249 | However many calls come without conversation, incomplete, for another region, as dry runs, or in a missing or archived conversation, they change nothing and run no recommendation |
| Drafts.CallAddsIff | internal/ai/tools.go:180-332 | A draft is added exactly by an admitted call before which neither a generating draft nor a ready one with equal input is newest, so behind failed, superseded and adopted ones too; how it is left, and which other draft changes |
| Drafts.ReplyMeans | internal/ai/tools.go:261-332 | Which reply an admitted call gets, for every newest draft and every outcome |
| Drafts.RefusalMeans | internal/ai/tools.go:180-249 | Which refusal or preview any other call gets: the first requirement it fails |
| Drafts.DraftTool.MarkStatus | internal/volunteerplan/draft_store.go:116-160 | A guarded update, and whether it found its row in an expected state |
| Drafts.DraftTool.InspectNewest | internal/ai/tools.go:261-293 | Only the newest draft decides between waiting, reuse and supersede |
| Drafts.DraftTool.ExecuteGenerateVolunteerPlanDraft | internal/ai/tools.go:180-332 | The exact new table, reply and number of algorithm runs for every outcome of every store call |
| Drafts.DraftTool.Adopt | internal/volunteerplan/draft_store.go:203-209 | Only a ready draft is adopted |
| Drafts.AdoptingFrees | internal/volunteerplan/draft_store.go:203-209 | Adopting changes exactly that draft, and afterwards its input gets a new draft |
| Drafts.StepKeepsNewestIff | internal/ai/tools.go:261-332 | A call that passes the gates leaves two live drafts exactly when it creates one while the list cannot be read and the newest is live, or while the supersede of a drifted ready draft fails |
| Drafts.OnlyNewestIsLive | internal/ai/tools.go:261-332 | In every run whose reads and supersedes succeed only the newest draft is generating or ready |
| Drafts.FailedReadOverlaps | internal/ai/tools.go:261-262 | A concrete run in which an unreadable list leaves two ready drafts |
| Drafts.FailedSupersedeOverlaps | internal/ai/tools.go:284-288 | A concrete run in which a failed supersede leaves two ready drafts |
| Drafts.RepeatReuses | internal/ai/tools.go:274-283 | Equal input gets the same draft id without running the algorithm, whatever refused calls, dry runs and repeats lie between |
| Drafts.CreatedIsReused | internal/ai/tools.go:274-331 | The draft a call created answers later calls with equal input under its id, without another run of the algorithm |
| Drafts.DriftSupersedesFirst | internal/ai/tools.go:284-293 | Drifted input supersedes first, also when nothing new becomes ready |
| Drafts.HistoryStays | internal/volunteerplan/draft_store.go:97-222 | Drafts are never removed, terminal ones never change, and none becomes live again |
| Drafts.StuckDraftIsReached | internal/ai/tools.go:300-318 | A run in which neither final mark can be written and the next call is told to wait |
| Drafts.GeneratingWaitsIff | internal/ai/tools.go:261-273 | Behind a generating draft a call that passes the gates waits exactly when the list can be read; otherwise it creates past it |
| Drafts.GeneratingBlocks | internal/ai/tools.go:261-273 | A draft left generating stops its conversation on every run in which the list can be read: nothing changes |
| RankLookup.FloorRow | internal/lookup/store.go:48-66 | The highest score of the table not above the given one, whatever the order of the rows |
| RankLookup.MinRow | internal/lookup/store.go:68-85 | The lowest score of the table |
| RankLookup.LookupRank | internal/lookup/service.go:60-105 | The year loop with its early returns and error exits computes the specified walk |
| RankLookup.LookupMeans | internal/lookup/service.go:60-105 | Year used and success do not depend on the score; it fails exactly when both years are empty; the source tells the path exactly |
| RankLookup.RankFallsWithScore | internal/lookup/service.go:60-105 | The rank never rises with the score, across exact, floored, below-minimum and previous-year answers |
| RankLookup.AnswerIsConservative | internal/lookup/service.go:60-105 | Every row scoring at least the candidate ranks at least as well as the answer |
| RankLookup.FaultsNeverChangeTheAnswer | internal/lookup/service.go:79-102 | A failed read is reported or makes no difference, never passed over |
| RankLookup.FailsIff | internal/lookup/service.go:79-102 | The lookup fails exactly when a read it needs fails, and names that year |

## Left out

- Fulfilment.PaymentService.PayMock: the exact new state and response are stated only for requests that run alone; among other requests the contract states the invariant, forward movement and what success means. The other payment paths likewise; for a callback that is a duplicate, success means only that the order was read. A failed fulfilment is one error, whatever the plan lookup, the grant or the final mark reported.
- Recommend.WindowsAlwaysMeet: the floating-point bounds are an abstract scaling that is monotone in the ratio; both windows at a bound use the same constant.
- Utf8.HoldIsAligned: stated for well-formed streams only, as the standard says nothing about other bytes; what is held back of those is Utf8.HoldIffIncomplete.
- RankLookup.LookupRank: the plan-size lookup beside it is one default and not modelled.
- Scores: the composite score is opaque; being rounded to four digits it is an integer. Reasons, warnings, probabilities and the filter's notes are not modelled.
- Preview's sample items and the statistics of the plan other than the record count.
- Major names overridden from the latest catalogue, request validation, strategy choice and year resolution.
- Concatenated keys are pairs; this assumes that the separators do not occur in university or group codes. Keywords and search texts are taken as already lower-cased.
- SQL text, row locks and isolation: every transaction is atomic and serial. A commit whose answer is lost is not modelled.
- A day is a fixed number of ticks, UTC; the clock is read once per request. With concurrent requests the membership events need not be in clock order; the replay and uniqueness results do not ask for it, the interval results do.
- Refund requests, review and partial refunds; of refunds only the final step of a full one. The role column of the users table, and last orders cleared by deleting an order.
- Payment attempts are a map from channel and trade number to the order; attempt rows without a trade number, payloads and the processed flag of callbacks are not modelled. An order number stands for its id. Amounts are compared as integers instead of formatted strings. The order statuses created and failed and the payment status paying are never written by the code and are not modelled.
- The plan lookup's answer is an input of each payment request, so it may differ from request to request.
- Cancellation inside a provider's stream, timeouts and panics; cancellation of the agent between calls is modelled, a turn's end is a step that may happen at any time.
- Subscriber channels live in the turn's state under their subscriber number, also after unsubscribing; a read by the subscriber is a step of its own.
- Lines of the event stream that are blank, not data, malformed or without choices are one kind of ignored line; fields of a frame other than content, fragments and finish reason are not modelled.
- JSON encoding and decoding are not modelled: an input object is its text, the object an argument text decodes to is named and not computed, a stored list that does not decode is empty. A string is its bytes. Trimming knows ASCII white space only.
- Tool implementations other than the draft tool: a tool is a function of the results so far and the call; that each answers under its call's id (internal/ai/tools.go:155-173) is part of the model.
- The draft tool of one conversation runs one call at a time, as one turn runs at a time; adoption may come between calls. What adopting does besides the status is not modelled.
- HTTP and SSE handlers, routing, prompts, charts, cards, forms, administration, dictionaries, backup.
