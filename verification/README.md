# Verified model of tunnel2tunnel's branch splitting and SSH server core

This project models the parts of the repository whose correctness is hardest to
see from one function, and proves properties of them with Dafny 4.11. Check it with
`dafny verify dfyconfig.toml`.

**Split and reconstruct.** A branch `ai/UNCLEAN/*` is replayed commit by commit
onto a code-only branch and an AI-only branch (`git_tree.dfy`, `commits.dfy`,
`classify.dfy`, `sync_splits.dfy`), and can be rebuilt from those two
(`sync_unclean.dfy`). `split_invariant.dfy` states what any sequence of forward
runs guarantees. `halves.dfy`, `bucket_order.dfy`, `rebuild.dfy` and
`round_trip.dfy` lead to the round trip. `rewrite.dfy` is about repairing a
diverged commit in the middle of the branch, `stale.dfy` about what that does to the
keys above it. `rerun.dfy`, `rerun_trip.dfy` and `next_run.dfy` are about running the
reverse direction again, on the same and on grown branches, `refusals.dfy` about when it
is refused. `first_forward.dfy`, `replayed_again.dfy` and `second_trip.dfy` are about
splitting a rebuilt branch.

**Tarpit.** Failure tallies, threshold rules and bans (`tarpit.dfy`), whole runs of
them (`tarpit_runs.dfy`), failed logins counted for address and account
(`tarpit_auth.dfy`), and the accept loop and auth callbacks around them
(`tarpit_connections.dfy`).

**Bridges.** The registry protocol of connection handlers, slow tasks and clean-up
tasks as interleaved steps, one lock acquisition each (`bridges.dfy`), its invariant
(`bridge_invariants.dfy`), and what follows for clean-up, slots, authorization
(`bridge_safety.dfy`), for where bytes are forwarded to (`bridge_routes.dfy`) and for
live events (`bridge_events.dfy`).

**History master.** A plan executor that stops on conflicts and is resumed or
aborted (`history_master.dfy`), and the planner with its merge markers
(`history_plan.dfy`).

**Smaller algorithms.** The browse query against the access check, with the
grouping loop (`access.dfy`); the patch merge (`merge_staged.dfy`); the greedy label
parser (`label_parser.dfy`); the memory file sync (`memory_sync.dfy`).

Code that changes things step by step is a class or a method with loops, proved
equal to a function of the old state; the lemmas are about that function.
Concurrent code is a step function over labels, and its theorems quantify over all
label sequences.

## What the proofs found

- Both tree builders have no branch for git's type-change status, so a path that
  turns from a file into a symlink or submodule keeps its old content in the target.
  Replays are exact if and only if no such change occurs on the replayed side
  (`ReplayExactIffNoTypeChange`).
- New buckets are sorted by author date in whole seconds, with code before
  AI-only commits on a tie. Rebuilding restores the source order if and only if the
  dates already have that order (`RoundTrip`, `TieReorders`).
- A forward run stopped by a merge moves the clean branch but not its cursor, so the
  next run replays the same sources again. Trees come out right
  (`ResumeAfterMergeStop`). Clean commits are made again if and only if some source
  before the merge wrote a code path that another one before the merge wrote
  differently (`MergeStopRepeats`, `MergeStopExample`). History commits are made
  again if and only if the history cursor existed; without it the tip's own trailer
  points behind them (`HistoryStopRepeats`).
- Running the reverse direction again moves nothing if and only if it may not rewrite,
  is refused, or finds no divergence (`RerunIff`); after a round trip of originals that
  is always so (`RerunAfterTrip`).
- A commit without a source that still exists is never dropped from a plan, so a later
  run repeats a reconstruction key if and only if such a new commit is named on the line
  already or is itself a source of another new commit (`RunAfterGrowth`).
- The first forward run over a rebuilt branch leaves the clean branch alone if the two
  branches were never split before and history keeps to its side (`FirstRunLeavesClean`).
  In general it does so if and only if the commits above the newest one rebuilt from the
  clean branch wrote only code the clean tip has just so (`FirstRunLeavesCleanIff`): a
  pair whose clean commit is dated later than its successor ends up above it and is
  replayed (`FirstRunMovesClean`).
- One rewriting run may leave another to do. The replay keeps a descendant's own
  changes, but not the content it shares with its pair without changing it: the next
  scan finds nothing if and only if the rewrite changed no path that a pair above sets
  and that no commit from there up to it touches (`RewrittenOnceIff`).
- A rebuilt history-only commit keeps naming the original, one that changes code starts
  afresh, so a second trip mixes both kinds of key (`SecondTrip`).
- Fixing several divergences in one run works if and only if each lies below the one
  before it. Detection lists them the other way round on a branch that has each key
  once, so there a run gets through if and only if it finds at most one, and is
  otherwise refused at the second, with the first one fixed (`RewritingRun`).
- The first branch of the bucket sort key never applies, because keys already on the
  unclean branch are filtered out before sorting (`PlansOnlyNew`).
- A trip sets the ban's expiry without looking at the old one, so it also replaces an
  administrator's indefinite ban. The next refresh restores it if and only if the
  last active rule for the key has no end (`TripReplacesIndefiniteBan`).
- A success marks an address as unfit for banner drip only if it has an entry
  (`SuccessKeepsBans`); otherwise only the log protects it (`KnownGoodNeverDripped`).
- Clean-up of a dropped connection is sure to be complete if and only if, when it
  reads the recorded ids, every opening in flight has noted its own
  (`CleanUpCompleteIff`). From every other such state some run leaves a tunnel in the
  registry for good (`SlowTaskCanLeak`, `LeakStays`), and such states are reached
  (`SlowTaskReachable`).
- Slots are cleaned up by entity, so a dropped connection also takes the slots of a
  live connection of the same entity (`SlotSurvivesIff`).
- When `--continue` resolves its step but cannot finish, every further `--continue` is
  refused if and only if the step that broke left no git operation of the pending kind
  in progress (`FailedFinishNeedsAbort`). If it left one, as a failing
  `git checkout --ours` on a cherry-pick conflict does, the next `--continue` finishes
  that one instead and applies the steps up to it a second time (`BrokenStepRepeats`,
  `StepAppliedTwice`). The ref ends at exactly the planned steps if and only if no such
  continue happened (`RefMovesOnlyAtTheEnd`).

## Model

| member | source | states |
|---|---|---|
| GitTree.TouchedByDiff | scripts/°base/git/°split_lib/tree_ops.py:40-68 | for any change list git may report, the builders act on exactly the changed paths whose object type did not flip |
| GitTree.ApplyAllIsOverride | scripts/°base/git/°split_lib/tree_ops.py:93-114 | the builders' loop overrides the base tree with the blob source exactly on the touched paths that are kept |
| GitTree.BuildFilteredTree | scripts/°base/git/°split_lib/tree_ops.py:71-118 | the in-place index loop computes that override for one side |
| GitTree.ApplyPathChanges | scripts/°base/git/°split_lib/tree_ops.py:121-158 | the same for an overlay without a filter |
| GitTree.BuiltTree | scripts/°base/git/°split_lib/tree_ops.py:71-118 | a rebuilt tree path by path, for a commit's own diff |
| GitTree.ReplayExactIffNoTypeChange | scripts/°base/git/°split_lib/tree_ops.py:93-114 | replaying a delta keeps a target in agreement iff no kept path changes its object type |
| GitTree.SomeDiffExists | scripts/°base/git/°split_lib/tree_ops.py:40-68 | every two trees have a diff, so statements about all diff commands are not empty |
| Commits.ReadWritten | scripts/°base/git/°split_lib/trailers.py:77-103 | a written trailer is read back, behind what the message already answers |
| Commits.RangeIsLinked | scripts/°base/git/°split_lib/sync_splits.py:112-132 | a first-parent range is a linked list of commits from its base tree to the tip |
| Commits.RangeSplits | scripts/°base/git/°split_lib/sync_splits.py:112-132 | a range falls apart at any commit of the line outside its lower bound |
| Classify.IsAiBasePath | scripts/°base/git/°split_lib/classify.py:35-80 | the nested loops return the verdict of the last matching rule, outermost ignore file first |
| Classify.AiOnlyKeepsCode | scripts/°base/git/°split_lib/classify.py:93-114 | an AI-only commit leaves every code path as it was |
| Classify.KindSaysWhatChanged | scripts/°base/git/°split_lib/sync_splits.py:155-160 | which kinds mean which sides are untouched, both directions |
| SyncSplits.CleanPass | scripts/°base/git/°split_lib/sync_splits.py:271-311 | the clean loop computes the specified run over its handled prefix, stopping at the first merge it may not flatten |
| SyncSplits.HistoryPass | scripts/°base/git/°split_lib/sync_splits.py:324-358 | the history loop likewise, one commit a source |
| SyncSplits.SplitRepo.SyncBranch | scripts/°base/git/°split_lib/sync_splits.py:231-373 | refs and cursors after a run, and what it reports, including both merge stops |
| SplitInvariant.SkipLosesNothing | scripts/°base/git/°split_lib/sync_splits.py:291-303 | skipping AI-only and no-op commits leaves the same tree as replaying them |
| SplitInvariant.ReplayAgrees | scripts/°base/git/°split_lib/sync_splits.py:265-363 | a replay ends in agreement with its last source even from a target that is ahead of the range's start |
| SplitInvariant.SyncedAgrees | scripts/°base/git/°split_lib/sync_splits.py:231-373 | one finished run: each tip mirrors the unclean tip on its side and is unchanged on the other |
| SplitInvariant.FinishesIff | scripts/°base/git/°split_lib/sync_splits.py:276-281 | a run finishes iff it flattens merges or meets none in either replay range, whatever lies below, and then leaves what a flattening run does |
| SplitInvariant.BatchesEqualOneRun | scripts/°base/git/°split_lib/sync_splits.py:231-373 | two finished runs, each with its own flag, leave the same refs as one over both batches, and the counts add up |
| SplitInvariant.ManyRunsEqualOne | scripts/°base/git/°split_lib/sync_splits.py:231-373 | any number of finished runs along a growing branch, each with its own flag, amounts to the last alone |
| SplitInvariant.RerunCreatesNothing | scripts/°base/git/°split_lib/sync_splits.py:231-373 | after a finished run a re-run, with either flag, moves no ref and creates nothing |
| SplitInvariant.SplitInvariant | scripts/°base/git/°split_lib/sync_splits.py:265-363 | after any sequence of finished runs the clean tip equals the unclean tip on all code paths and has its first content on all AI paths; history the other way round |
| SplitInvariant.StopKeepsStart | scripts/°base/git/°split_lib/sync_splits.py:83-132 | after a stop the clean replay starts where it did before: with a cursor, with no commit made, or if no reconstruction key of the line lies between the old and the new tip |
| SplitInvariant.ResumeAfterMergeStop | scripts/°base/git/°split_lib/sync_splits.py:276-281 | resuming with flattened merges after a stop still ends in agreement with the unclean tip, AI paths untouched |
| SplitInvariant.MergeStopRepeats | scripts/°base/git/°split_lib/sync_splits.py:276-303 | the resumed run makes more clean commits than the sources from the merge on call for iff a source before the merge wrote a code path that was then written differently |
| SplitInvariant.HistoryStopRepeats | scripts/°base/git/°split_lib/sync_splits.py:324-358 | after a history stop the resumed run commits every handled source again iff there is a history cursor |
| SplitInvariant.MergeStopExample | scripts/°base/git/°split_lib/sync_splits.py:276-281 | a branch on which that resume creates the same two clean commits again |
| SplitInvariant.CountsMean | scripts/°base/git/°split_lib/sync_splits.py:271-311 | the reported counts: every handled source once, AI-only ones as such, one created for each commit the clean tip grew by |
| SplitInvariant.HistoryCommitSays | scripts/°base/git/°split_lib/sync_splits.py:155-160 | what a history commit records: its source's own lines, the kind that says which sides the source changed, its clean commit and that one's tree |
| SplitInvariant.FlattenedMergeSays | scripts/°base/git/°split_lib/sync_splits.py:352-353 | a flattened merge is recorded with all its parents in order |
| FirstForward.CleanReplays | scripts/°base/git/°split_lib/sync_splits.py:83-132 | with no cursor and no trailer on the tip, exactly the commits above the newest one rebuilt from a commit the clean branch contains are replayed, or all above main if there is none |
| FirstForward.HistoryReplays | scripts/°base/git/°split_lib/sync_splits.py:317-322 | the same for the history side |
| FirstForward.LeavesCleanIff | scripts/°base/git/°split_lib/sync_splits.py:271-315 | a run makes no clean commit and leaves the clean tip iff the sources it handles wrote only code that the tip has just so |
| FirstForward.FirstRunLeavesCleanIff | scripts/°base/git/°split_lib/sync_splits.py:265-315 | the same for a first run, about the commits above the newest one rebuilt from the clean branch |
| FirstForward.FirstRunHistory | scripts/°base/git/°split_lib/sync_splits.py:317-363 | a first run makes one history commit for each commit above the newest one rebuilt from the history branch |
| FirstForward.FirstRunLeavesClean | scripts/°base/git/°split_lib/sync_splits.py:83-109 | after a first reconstruction of branches no run has touched, with AI-only history, the first forward run makes no clean commit and leaves the clean branch as it is |
| ReplayedAgain.FirstRunMovesClean | scripts/°base/git/°split_lib/sync_splits.py:83-109 | branches with tips without trailers that are rebuilt without refusal, but over which the first forward run moves the clean branch |
| SyncUnclean.CorrelateCleanInfos | scripts/°base/git/°split_lib/sync_unclean.py:118-145 | the two loops restore sources from the history side or report the first contradiction |
| SyncUnclean.BucketCommits | scripts/°base/git/°split_lib/sync_unclean.py:158-181 | buckets in dict order, or the first duplicate on one side |
| SyncUnclean.OrderBuckets | scripts/°base/git/°split_lib/sync_unclean.py:208-246 | the entries of all keys, stably sorted by the order key |
| SyncUnclean.NoFaultIffOrdered | scripts/°base/git/°split_lib/sync_unclean.py:249-279 | the order check refuses iff some two commits with known sources stand in the wrong order |
| SyncUnclean.CheckOrderConsistency | scripts/°base/git/°split_lib/sync_unclean.py:249-279 | the scan returns the first offending commit |
| SyncUnclean.DetectDivergences | scripts/°base/git/°split_lib/sync_unclean.py:328-364 | the divergences of the given keys in order |
| SyncUnclean.RewriteBranchFrom | scripts/°base/git/°split_lib/sync_unclean.py:462-521 | the replay loop computes the rewritten tip, or refuses a commit that is not on the line |
| SyncUnclean.UncleanRepo.ReconstructUnclean | scripts/°base/git/°split_lib/sync_unclean.py:539-666 | all refs and cursors after a run, and the refusal if any |
| SyncUnclean.UncleanRepo.MoveRefs | scripts/°base/git/°split_lib/sync_unclean.py:626-665 | rewrites, then built commits, then the branch and both cursors |
| NextRun.RunAfterGrowth | scripts/°base/git/°split_lib/sync_unclean.py:524-666 | after a finished run both branches grow and the run is repeated: the unclean line keeps what it had and gets exactly one commit for each source, or unmatched commit, among the added ones that it does not name as a source; no key repeats iff none did and no unmatched one is named otherwise |
| NextRun.UnsplitAdded | scripts/°base/git/°split_lib/sync_unclean.py:149-155 | added commits that no forward run has stamped each go under their own name |
| NextRun.PlanInOrder | scripts/°base/git/°split_lib/sync_unclean.py:208-246 | whatever the lineage, commits are built by the known commit they follow, then by date, then clean before history-only |
| NextRun.RewordedMessage | scripts/°base/git/°split_lib/sync_unclean.py:397-404 | the message of a pair whose subjects differ, and of any other |
| Refusals.RefusedIff | scripts/°base/git/°split_lib/sync_unclean.py:571-593 | a run without rewriting is refused, moving nothing, iff history contradicts itself about a source, two new commits of a side share a key, or unforced known sources step back |
| Refusals.GatheredIff | scripts/°base/git/°split_lib/sync_unclean.py:118-134 | correlation goes through iff no two history commits claim different existing sources for one clean commit, and then holds exactly the claims |
| Refusals.CleanSourceIs | scripts/°base/git/°split_lib/sync_unclean.py:136-145 | a clean commit's source is the one it names itself, else the one history claims for it |
| Refusals.BucketsIff | scripts/°base/git/°split_lib/sync_unclean.py:158-181 | bucketing goes through iff no two commits of one side share a key |
| Refusals.ReadKeys | scripts/°base/git/°split_lib/sync_unclean.py:149-155 | a commit goes under the source it names iff that still exists, else under its own name |
| Refusals.EntryStandsBehind | scripts/°base/git/°split_lib/sync_unclean.py:208-246 | a new bucket goes behind the nearest earlier commit of its own side with a known source |
| Halves.SourcesGathered | scripts/°base/git/°split_lib/sync_unclean.py:123-134 | correlation finds each split commit's source, once |
| Halves.SourcesRestored | scripts/°base/git/°split_lib/sync_unclean.py:136-145 | and restores it onto the trailer-free clean commits |
| Halves.PairedAgain | scripts/°base/git/°split_lib/sync_unclean.py:158-181 | bucketing pairs the two halves of every source, one bucket a source, clean ones first |
| BucketOrder.SortSorts | scripts/°base/git/°split_lib/sync_unclean.py:245 | the sort returns a permutation in nondecreasing key order |
| BucketOrder.OrderRestored | scripts/°base/git/°split_lib/sync_unclean.py:193-246 | new buckets come out in an intended order iff that order never steps back in the sort key |
| BucketOrder.PlansOnlyNew | scripts/°base/git/°split_lib/sync_unclean.py:645-650 | no planned entry is in the known lineage, for all refs |
| Rebuild.BucketRebuilds | scripts/°base/git/°split_lib/sync_unclean.py:424-426 | laying both halves over the parent's tree gives the source's tree |
| Rebuild.MadeIffChangesCode | scripts/°base/git/°split_lib/sync_splits.py:291-311 | a source left a clean commit iff it changes a code path |
| Rebuild.InOrderRestores | scripts/°base/git/°split_lib/sync_unclean.py:652-655 | building in source order restores the whole line |
| Rebuild.RestoredMeansInOrder | scripts/°base/git/°split_lib/sync_unclean.py:652-655 | any other order of the same entries does not |
| RoundTrip.HalvesAreWellSplit | scripts/°base/git/°split_lib/sync_splits.py:181-217 | what a split leaves carries the trailers, texts and trees reconstruction needs, also for sources with trailers of earlier trips that still tell them apart |
| RoundTrip.FreshAreKeyed | scripts/°base/git/°split_lib/sync_splits.py:194-217 | untouched originals are told apart by themselves |
| RoundTrip.RoundTrip | scripts/°base/git/°split_lib/sync_unclean.py:539-666 | splitting and rebuilding from the same start is never refused and gives back one commit a source, in order, with tree, text, author and date, iff the dates keep that order; each names its source, or the older one a history-only source names itself |
| RoundTrip.TieReorders | scripts/°base/git/°split_lib/sync_unclean.py:193-205 | two commits of one second, a note and then code, that can be split and rebuilt without refusal but do not come back as the line they made |
| SecondTrip.SecondTrip | scripts/°base/git/°split_lib/sync_unclean.py:424-455 | splitting the rebuilt branch of originals from scratch and rebuilding it again gives the same count, trees, texts and order; a commit that changes code names the first trip's commit, a history-only one the original |
| Rerun.RerunIff | scripts/°base/git/°split_lib/sync_unclean.py:9-22 | after a finished run another one leaves every ref as it is iff it may not rewrite, is refused, or finds no divergence |
| RerunTrip.RerunAfterTrip | scripts/°base/git/°split_lib/sync_unclean.py:539-666 | after a round trip of originals, in whatever order they came back, another run, even one that may rewrite, changes nothing |
| Rewrite.RewrittenContent | scripts/°base/git/°split_lib/sync_unclean.py:462-521 | the new tip path by path: old content where a later commit touches or the new tree agrees with the amended commit, the new tree elsewhere |
| Rewrite.RewriteKeepsKeys | scripts/°base/git/°split_lib/sync_unclean.py:462-521 | commit count, every message and the order of reconstruction keys are kept |
| Rewrite.RewriteFlattens | scripts/°base/git/°split_lib/sync_unclean.py:475-516 | from the amended commit on every commit keeps only its parent on the line |
| Rewrite.RewriteSettlesKey | scripts/°base/git/°split_lib/sync_unclean.py:328-364 | the rewritten key no longer diverges |
| Rewrite.RewriteReplacesAbove | scripts/°base/git/°split_lib/sync_unclean.py:470-516 | a rewrite that changes a tree leaves on the branch exactly the commits below it |
| Rewrite.RewritesIffDescending | scripts/°base/git/°split_lib/sync_unclean.py:634-643 | rewriting a branch's divergences one after the other gets through iff each lies below the one before |
| Rewrite.DetectedOldestFirst | scripts/°base/git/°split_lib/sync_unclean.py:595-624 | on a branch that has each key once, a run finds its divergences oldest first |
| Rewrite.RewritingRun | scripts/°base/git/°split_lib/sync_unclean.py:595-643 | a whole run with rewriting allowed gets through iff what it finds descends; with distinct keys iff it finds at most one, else it is refused at the second |
| Rewrite.DivergencesExact | scripts/°base/git/°split_lib/sync_unclean.py:328-364 | detection reports exactly the keys whose recorded tree their current pair would not build |
| Stale.DescendantDivergesIff | scripts/°base/git/°split_lib/sync_unclean.py:497-516 | a replayed commit that agreed with its pair diverges after the rewrite iff the rewrite changed a path the pair sets and no commit from there up to it touches |
| Stale.RewriteLeavesNone | scripts/°base/git/°split_lib/sync_unclean.py:328-364 | the rewritten branch shows no divergence iff no key's newest commit above is stale in that way |
| Stale.LatestIsNewest | scripts/°base/git/°split_lib/sync_unclean.py:607-614 | in the scan for divergences a key finds the newest commit that goes under it |
| Stale.RewrittenOnceIff | scripts/°base/git/°split_lib/sync_unclean.py:595-643 | a caught-up run that finds one divergence rewrites it without refusal, and a further run changes nothing iff none above is stale |
| Tarpit.CountInRules | crates/tunnel2tunnel-ssh/src/tarpit/mod.rs:184-213 | the loop over all rules computes tallies, winner and longest window |
| Tarpit.TarpitState.RecordFailure | crates/tunnel2tunnel-ssh/src/tarpit/mod.rs:174-221 | the map after one failure, and whether the key is banned |
| Tarpit.TarpitState.RecordAuthFailure | crates/tunnel2tunnel-ssh/src/tarpit/mod.rs:279-294 | address and, when known, user are recorded under one lock; nothing when enforcement is off |
| Tarpit.TarpitState.RecordAuthSuccess | crates/tunnel2tunnel-ssh/src/tarpit/mod.rs:296-306 | the state after a success |
| Tarpit.TarpitState.MergeAdminBans | crates/tunnel2tunnel-ssh/src/tarpit/mod.rs:475-499 | the refresh loop over active administrator rules |
| Tarpit.ScanAt | crates/tunnel2tunnel-ssh/src/tarpit/mod.rs:186-200 | with distinct ids each rule's tally is bumped once, from its value before the call |
| Tarpit.RuleChoice | crates/tunnel2tunnel-ssh/src/tarpit/mod.rs:180-220 | trigger count up by one iff a rule trips, expiry now plus the longest tripped window, the first rule of the highest rank wins, all other keys and tallies untouched |
| Tarpit.RuleResponsible | crates/tunnel2tunnel-ssh/src/tarpit/mod.rs:205-219 | a trip is laid to a rule that calls for a ban if one that trips does, and to the longest window among those that call for the same |
| Tarpit.WindowAndLimit | crates/tunnel2tunnel-ssh/src/tarpit/mod.rs:187-200 | a rule's window is its seconds and its limit its count, neither below zero |
| Tarpit.OrderOfRulesIrrelevant | crates/tunnel2tunnel-ssh/src/tarpit/mod.rs:180-220 | permuting the rules changes no tally, count or expiry |
| Tarpit.OrderKeepsRank | crates/tunnel2tunnel-ssh/src/tarpit/mod.rs:205-212 | nor the rank of the winner |
| Tarpit.SuccessKeepsBans | crates/tunnel2tunnel-ssh/src/tarpit/mod.rs:229-306 | a success empties tallies and changes no ban, source or trigger count; it rules out drip iff the address has an entry |
| Tarpit.MergeKeepsLast | crates/tunnel2tunnel-ssh/src/tarpit/mod.rs:475-499 | after a refresh a key carries the last applicable rule's ban, or what it had |
| Tarpit.TripReplacesIndefiniteBan | crates/tunnel2tunnel-ssh/src/tarpit/mod.rs:214-218 | a trip turns an indefinite ban into one that runs out, and a refresh makes it indefinite again iff the last active rule for the key has no end |
| Tarpit.AdminBanLasts | crates/tunnel2tunnel-ssh/src/tarpit/mod.rs:475-499 | one administrator rule bans exactly the key its row is for, without end or until its end less a fraction of a second |
| Tarpit.MethodsTakeTurns | crates/tunnel2tunnel-ssh/src/tarpit/mod.rs:45-51 | the trap methods take turns in a fixed order |
| TarpitAuth.FailureTouches | crates/tunnel2tunnel-ssh/src/tarpit/mod.rs:279-294 | a failed login is recorded for its address and, if known, its account, each as if alone; other keys stay, and with enforcement off all do |
| TarpitAuth.GuessingIsCaught | crates/tunnel2tunnel-ssh/src/tarpit/mod.rs:279-294 | any 2n - 1 failed logins of one account from whatever addresses, or from one address for whatever accounts, within a window and with no success in between, trip a rule of limit n and ban that key for its window |
| TarpitRuns.NoFalseTrip | crates/tunnel2tunnel-ssh/src/tarpit/mod.rs:186-200 | over every run, a rule trips only after its limit of failures of that key within its window, give or take how far records are out of clock order |
| TarpitRuns.DetectionBound | crates/tunnel2tunnel-ssh/src/tarpit/mod.rs:174-221 | any 2n - 1 failures within one window trip a rule of limit n, from any state and whatever happens in between to other keys and rules |
| TarpitRuns.TwoLessIsNotEnough | crates/tunnel2tunnel-ssh/src/tarpit/mod.rs:190-196 | for every limit and window, 2n - 2 failures one tick apart that trip nothing |
| TarpitRuns.TripLeavesZero | crates/tunnel2tunnel-ssh/src/tarpit/mod.rs:200-202 | a trip leaves the tally that family starts from |
| TarpitRuns.TallyFits | crates/tunnel2tunnel-ssh/src/tarpit/mod.rs:198-200 | tallies fit the u32 for all i32 limits |
| TarpitConnections.OutcomeFollowsCurrentRule | crates/tunnel2tunnel-ssh/src/tarpit/mod.rs:241-275 | nothing happens without an active ban; a hard ban iff the source row still says so |
| TarpitConnections.InAuthNeverDrips | crates/tunnel2tunnel-ssh/src/tarpit/mod.rs:422-431 | handler decisions are never banner drip and otherwise unchanged |
| TarpitConnections.HandlerActsIff | crates/tunnel2tunnel-ssh/src/tarpit/mod.rs:377-411 | a handler acts iff address or user is banned, by the user's source before the address's and by the larger trigger count |
| TarpitConnections.LookDecides | crates/tunnel2tunnel-ssh/src/lib.rs:446-461 | what a failed login decides depends on its own look and the rules then loaded, whatever other connections do |
| TarpitConnections.FailedLoginCounts | crates/tunnel2tunnel-ssh/src/lib.rs:463-473 | a failed login counts for its address and user under the rules and switch it read, and an undecided connection goes on to look |
| TarpitConnections.LoginTakesEffect | crates/tunnel2tunnel-ssh/src/lib.rs:560-569 | a successful login's row is logged, its tallies are forgotten and its address marked |
| TarpitConnections.AcceptDecides | crates/tunnel2tunnel-ssh/src/tarpit/mod.rs:313-347 | an address banned at the look gets what its ban means under the rules at the resolve, others get through |
| TarpitConnections.RefusedDripIsMarked | crates/tunnel2tunnel-ssh/src/tarpit/mod.rs:348-367 | a drip that the log rules out marks the address and becomes a slow login |
| TarpitConnections.NoHandlerDrips | crates/tunnel2tunnel-ssh/src/lib.rs:291-328 | over all runs no handler ever holds a banner-drip outcome |
| TarpitConnections.OutcomeConstant | crates/tunnel2tunnel-ssh/src/lib.rs:446-461 | a connection's outcome is constant after its first decision |
| TarpitConnections.KnownGoodNeverDripped | crates/tunnel2tunnel-ssh/src/tarpit/mod.rs:348-367 | once a correct login is logged, and while that log is kept and readable when its own address is looked up, drip is never chosen for the address |
| TarpitConnections.FlaggedNeverDripped | crates/tunnel2tunnel-ssh/src/tarpit/mod.rs:348-367 | the in-memory flag is never lost and protects without the log |
| BridgeInvariants.InvHolds | crates/tunnel2tunnel-ssh/src/lib.rs:1434-1625 | over every run each tunnel's id is with its opening, in its connection's ids, or just taken out by a close |
| BridgeSafety.RegistryConsistent | crates/tunnel2tunnel-ssh/src/lib.rs:1467-1480 | a live connection's recorded ids are distinct keys of the active tunnels, each of its own channel |
| BridgeSafety.SweepIsComplete | crates/tunnel2tunnel-ssh/src/lib.rs:1840-1870 | if every opening in flight at the read has noted its id, none of the connection's tunnels remain after the removal, in any continuation |
| BridgeSafety.CleanUpCompleteIff | crates/tunnel2tunnel-ssh/src/lib.rs:1840-1870 | in every reachable state before the read, that is so exactly if every opening in flight has noted its id |
| BridgeSafety.SlowTaskCanLeak | crates/tunnel2tunnel-ssh/src/lib.rs:1540-1625 | from every state before the read in which an opening has not noted its id, some run passes its tunnel by |
| BridgeSafety.SlowTaskReachable | crates/tunnel2tunnel-ssh/src/lib.rs:1540-1625 | such a state is reached from the start |
| BridgeSafety.LeakStays | crates/tunnel2tunnel-ssh/src/lib.rs:1742-1870 | no later step removes such a tunnel |
| BridgeSafety.SlotSafety | crates/tunnel2tunnel-ssh/src/lib.rs:1807-1830 | no slot ever points at a connection whose slot clean-up has run |
| BridgeSafety.SlotSurvivesIff | crates/tunnel2tunnel-ssh/src/lib.rs:1807-1830 | a slot survives a step iff its entity does not register it elsewhere, cancel it, or have any dropped connection cleaned up |
| BridgeSafety.SlotSurvivesRun | crates/tunnel2tunnel-ssh/src/lib.rs:1807-1830 | and a whole run in which none of that happens |
| BridgeRoutes.ConfirmedReachTargets | crates/tunnel2tunnel-ssh/src/lib.rs:1434-1510 | from a fast confirmation until the close, the channel is bridged to the target it asked for |
| BridgeRoutes.BridgesReachTargets | crates/tunnel2tunnel-ssh/src/lib.rs:1434-1465 | over all runs every bridged channel leads to a connection authenticated as the target it was opened for, which held the slot of that target and port when the opening looked; its opening and tunnel are for the same |
| BridgeRoutes.FastOpeningConfirms | crates/tunnel2tunnel-ssh/src/lib.rs:1462-1510 | a fast opening that gets to its end confirms its channel, bridged |
| BridgeRoutes.FailedOpeningEnds | crates/tunnel2tunnel-ssh/src/lib.rs:1328-1460 | a failed check, a refusal by the target or a lapsed wait ends the opening without bridge or confirmation |
| BridgeRoutes.AbsentTargetIsPolled | crates/tunnel2tunnel-ssh/src/lib.rs:1526-1575 | an absent target is waited for by a task of its own, which frees the callback |
| BridgeRoutes.CloseEndsBridge | crates/tunnel2tunnel-ssh/src/lib.rs:1742-1749 | a close first takes the bridge away |
| BridgeRoutes.TunnelsAreAllowed | crates/tunnel2tunnel-ssh/src/lib.rs:1325-1414 | every tunnel belongs to a connection authenticated as its client, for the target and port its channel asked for, after an enabled config, a subscription and a common account or grant were read as holding, in that order |
| BridgeEvents.EachTunnelOnce | crates/tunnel2tunnel-ssh/src/lib.rs:1742-1760 | every tunnel is announced once and stopped once, even when close and drop both handle it |
| BridgeEvents.Conservation | crates/tunnel2tunnel-ssh/src/lib.rs:1462-1486 | for every choice of tunnels, starts sent and owed equal stops sent and owed plus registered tunnels, at every step |
| HistoryMaster.HistoryTool.ExecuteSteps | scripts/°base/git/°split_lib/history_master.py:722-739 | the loop popping steps computes the specified tip, rest and stop |
| HistoryMaster.HistoryTool.UpdateHistory | scripts/°base/git/°split_lib/history_master.py:963-1077 | ref and state file after a run |
| HistoryMaster.HistoryTool.ContinueRun | scripts/°base/git/°split_lib/history_master.py:887-960 | ref and state file after a resume, all error paths included |
| HistoryMaster.HistoryTool.AbortRun | scripts/°base/git/°split_lib/history_master.py:861-884 | ref and state file after an abort |
| HistoryMaster.EveryStateResumable | scripts/°base/git/°split_lib/history_master.py:722-739 | in every reachable state the saved tip is what was applied, the pending step conflicts there, and applied and remaining steps are the plan or more of them |
| HistoryMaster.IntactUnlessAstray | scripts/°base/git/°split_lib/history_master.py:887-942 | they are exactly the plan iff no continue finished an operation other than the pending one |
| HistoryMaster.RefMovesOnlyAtTheEnd | scripts/°base/git/°split_lib/history_master.py:952-960 | the tool moves the ref only when finishing, to the tip of all applied steps, which are the planned ones iff the run never went astray |
| HistoryMaster.DirtyMovesNothing | scripts/°base/git/°split_lib/history_master.py:952-955 | with a dirty checkout no command moves an existing ref or forgets the run |
| HistoryMaster.OperationBlocksUpdate | scripts/°base/git/°split_lib/history_master.py:132-157 | with an operation of git's in progress no plan that needs a checkout gets to its end, nor moves the ref |
| HistoryMaster.UninterruptedRun | scripts/°base/git/°split_lib/history_master.py:1018-1077 | where nothing conflicts one run reaches that tip |
| HistoryMaster.ContinuesFinish | scripts/°base/git/°split_lib/history_master.py:887-960 | resolving each conflict and continuing finishes there within one continue a step and one for base |
| HistoryMaster.AbortRestores | scripts/°base/git/°split_lib/history_master.py:861-884 | abort leaves the ref and forgets the run, unless unmerged paths of a foreign operation block it |
| HistoryMaster.FailedFinishNeedsAbort | scripts/°base/git/°split_lib/history_master.py:897-906 | after a continue that resolved but failed, every further continue is refused iff no operation of the pending kind was left |
| HistoryMaster.BrokenStepRepeats | scripts/°base/git/°split_lib/history_master.py:908-942 | otherwise resolving what was left applies every step between the pending and the broken one a second time |
| HistoryMaster.StepAppliedTwice | scripts/°base/git/°split_lib/history_master.py:382-385 | a run from scratch in which that happens and the ref ends off the planned tip |
| HistoryPlan.PlanMerges | scripts/°base/git/°split_lib/history_master.py:817-842 | the loop with its set of planned shas yields each unmarked candidate's commits and marker |
| HistoryPlan.CompletedLine | scripts/°base/git/°split_lib/history_master.py:742-844 | the line after a completed run: the earlier own commits in order, then for each newly marked sha in master order its branch's commits and one marking commit, then the base fold |
| HistoryPlan.PlanCarriesOver | scripts/°base/git/°split_lib/history_master.py:771-790 | when master moved, own commits are carried over one step each, base merges recreated and all others picked; no other step recreates one |
| HistoryPlan.CandidateIs | scripts/°base/git/°split_lib/history_master.py:792-811 | which branch a sha is merged for: its last registration, else its trailer, if new to history or forced |
| HistoryPlan.PlanRefusedIff | scripts/°base/git/°split_lib/history_master.py:803-810 | planning is refused iff a registered merge is not on master, naming the first |
| HistoryPlan.BranchesReplayed | scripts/°base/git/°split_lib/history_master.py:826-842 | the commits of every branch that some run newly marks are on history ever after, in order and in one piece, with the marker behind |
| HistoryPlan.OrderedLists | scripts/°base/git/°split_lib/history_master.py:813-815 | the candidates listed are exactly those on master |
| HistoryPlan.RunMarks | scripts/°base/git/°split_lib/history_master.py:742-844 | one run keeps markers unique and marks exactly the candidates besides |
| HistoryPlan.MarkersUnique | scripts/°base/git/°split_lib/history_master.py:678-683 | over any sequence of completed runs each clean merge has at most one marker |
| HistoryPlan.ReplanIsEmpty | scripts/°base/git/°split_lib/history_master.py:742-844 | planning again right after a completed run yields no steps |
| Access.BrowseIffAuthorized | crates/tunnel2tunnel-core/src/models/port_subscription.rs:258-325 | a service is in the answer iff it is enabled, its owner is neither deleted nor the subscriber, and the access check holds; then once, with the subscriber's own subscription |
| Access.VisibleMeansAllowed | crates/tunnel2tunnel-core/src/models/entity_access.rs:101-134 | every visible service passes the access check |
| Access.GroupByOwner | crates/tunnel2tunnel-core/src/models/port_subscription.rs:327-346 | the grouping loop lists each owner once, by first appearance, with exactly its rows in order |
| Access.GroupingKeepsAnswer | crates/tunnel2tunnel-core/src/models/port_subscription.rs:327-346 | laid end to end the groups carry each row's config and subscription in order, each service under its own row's owner |
| Access.GroupsInOrder | crates/tunnel2tunnel-core/src/models/port_subscription.rs:317-346 | owners come by id, each one's services by sort order, then by age |
| MergeStaged.Merge | scripts/°base/ai/hooks/merge_staged.py:27-57 | the loop with its running offset computes the specified patch |
| MergeStaged.MergeIs | scripts/°base/ai/hooks/merge_staged.py:27-57 | for every head: head's lines where the diff says equal, as far as it has them, head's surplus, then what is inserted at the end of base |
| MergeStaged.MergeAppended | scripts/°base/ai/hooks/merge_staged.py:27-57 | on a head that only appended: staged up to its insertion at the end of base, the appended lines, that insertion |
| MergeStaged.MergeOntoBase | scripts/°base/ai/hooks/merge_staged.py:27-57 | a head equal to base becomes staged |
| MergeStaged.MergeKeepsAppendLast | scripts/°base/ai/hooks/merge_staged.py:27-57 | with nothing inserted at the end of base the appended lines stay last |
| LabelParser.GreedyMatch | scripts/°base/ai/hooks/save-decision/hook.py:74-98 | the nested loops terminate and compute the greedy parse |
| LabelParser.Recomposes | scripts/°base/ai/hooks/save-decision/hook.py:74-98 | the consumed labels and the leftover recompose the answer |
| LabelParser.UsesEachOnce | scripts/°base/ai/hooks/save-decision/hook.py:84-97 | no label is used more often than offered, and parsing stops only when none matches |
| LabelParser.RoundTrip | scripts/°base/ai/hooks/save-decision/hook.py:74-98 | joining any selection of distinct labels and parsing gives it back, if no label starts with another and the separator |
| LabelParser.SingleIff | scripts/°base/ai/hooks/save-decision/hook.py:84-97 | a single label is read back iff no label listed before it claims its start |
| MemorySync.MemoryStores.LinkFile | scripts/°base/ai/hooks/°memory_lib/links.py:21-52 | one link, the other names untouched, and whether it changed anything |
| MemorySync.MemoryStores.SyncAll | scripts/°base/ai/hooks/record-memory/hook.py:147-180 | both loops synchronize every name on its own; the changed list is the names whose repository entry changed |
| MemorySync.Converges | scripts/°base/ai/hooks/record-memory/hook.py:147-180 | what one synchronization does to a healthy name, and that a second does nothing |
| MemorySync.NewEntryKind | scripts/°base/ai/hooks/°memory_lib/links.py:41-52 | an entry that a synchronization makes is a file iff a hardlink can be made, else a symlink, to the other store's file |
| MemorySync.InStepIff | scripts/°base/ai/hooks/record-memory/hook.py:147-180 | a name is brought into step iff no link dangled, or only a dangling copy was dropped |
| MemorySync.StoresConverge | scripts/°base/ai/hooks/record-memory/hook.py:147-180 | same names and files on both sides, no repository file lost or replaced, copies removed only when unlisted and marked, a second run changes nothing |

## Left out

- Git itself: subprocess calls, scratch index files on disk, working trees and conflict text. A sha is modelled by the commit's content; committer name and date are not part of it.
- Non-linear branches in the reverse direction: `git rev-list` over a branch is its first-parent line, and a range has one merge base.
- Path quoting: git prints paths with non-ASCII characters quoted unless `core.quotePath` is off, and the diff calls do not set it. On a default configuration such paths (those under `°base`, say) reach the filters and the tree look-up quoted and are skipped; the "if and only if" about type changes is for paths git prints as they are.
- Directory/file clashes inside a tree: a tree is a map from full paths to entries, and an entry's content stands for blob and permission bit.
- SyncUnclean.BuildMergedCommit: which history text is worth keeping in a merged message is a parameter, because it is a heuristic over lines.
- Dry runs, logging and the branch that builds real merge commits in `sync_splits.py`.
- Tarpit.RuleChoice: trigger counts are unbounded where the source has 64 bits; rule ids are distinct, as the table's primary key makes them.
- BridgeRoutes.ConfirmedReachTargets: callbacks of one connection run to completion before its handler is dropped, and channel numbers are not reused within a connection, as the SSH library guarantees.
- BridgeEvents.EachTunnelOnce: sending on a live-event channel always succeeds; lagging receivers are not modelled.
- Bridges are a step function and not a class: their point is the interleaving, which a class with atomic methods would hide.
- Payload forwarding, chat and welcome text, fail2ban lines, host keys: plumbing around the shared maps.
- HistoryMaster.UpdateRefines: a git operation in progress is taken to leave the working tree dirty, so that steps that need a checkout refuse it.
- HistoryMaster.ContinuesFinish: the fetched base tip does not change between the commands of one run.
- HistoryPlan.RunMarks: master is linear, and replaying keeps one commit a step with its message, as cherry-picking does.
- Access.BrowseIffAuthorized: tables are sets of rows with their keys; database errors are not part of it.
- MemorySync.StoresConverge: a symlink points at the same name in the other store; links to other places, and the order of directory listings, are not modelled.
- `crypto.ts` and `pubkey.rs`: their key encoding and parsing would only add short round trips.
- Web routes, user interface, IP whitelist matching, password hashing and key generation.
