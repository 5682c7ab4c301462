/**
 history_master.py: planning what to replay and which clean merges to mark.

 Master is linear here and only advances.  The history line is a number of
 master commits it was last based on, followed by commits of its own.
 */
module HistoryPlan {
  import opened Options

  type Sha = nat
  type Branch = string

  /** A master commit and the clean branch its trailer names, if any. */
  datatype MasterCommit = MasterCommit(sha: Sha, branch: Option<Branch>)

  /** One commit of history's own: a recreated base merge or not, and the clean merge it marks, if any. */
  datatype Own = Own(baseMerge: bool, marks: Option<Sha>)

  /** The history line: literal master commits up to `base`, then its own. */
  datatype Line = Line(base: nat, own: seq<Own>)

  /** Replay steps carry what the commit's message says. */
  datatype PlanStep = Replay(commit: Own) | RecreateMerge(commit: Own) | Mark(cleanSha: Sha, branch: Branch)

  datatype PlanError = NotReachable(cleanSha: Sha)

  /** A branch's own history commits since its fork point; empty when it has none. */
  type BranchCommits = Branch -> seq<Own>

  datatype Flags = Flags(forceMerge: set<Branch>, registered: seq<(Branch, Sha)>)

  predicate OnMaster(master: seq<MasterCommit>, sha: Sha) {
    exists i :: 0 <= i < |master| && master[i].sha == sha
  }

  predicate DistinctShas(master: seq<MasterCommit>) {
    forall i, j :: 0 <= i < j < |master| ==> master[i].sha != master[j].sha
  }

  // ------------------------------------------------------------- detection

  /** `{sha: branch}` of master commits from `from` on whose trailer names a branch, all or the wanted ones. */
  function Detected(master: seq<MasterCommit>, from: nat, wanted: Option<set<Branch>>): map<Sha, Branch> {
    if |master| <= from then map[] else
      var n := |master| - 1;
      var rest := Detected(master[..n], from, wanted);
      if master[n].branch.Some? && (wanted.None? || master[n].branch.value in wanted.value)
      then rest[master[n].sha := master[n].branch.value]
      else rest
  }

  function WithRegistered(combined: map<Sha, Branch>, registered: seq<(Branch, Sha)>): map<Sha, Branch> {
    if registered == [] then combined else
      var n := |registered| - 1;
      WithRegistered(combined, registered[..n])[registered[n].1 := registered[n].0]
  }

  /** All candidate clean merges of a run, by sha. */
  function Combined(master: seq<MasterCommit>, from: nat, flags: Flags): map<Sha, Branch> {
    var detected := Detected(master, from, None);
    var forced := if flags.forceMerge == {} then detected else detected + Detected(master, 0, Some(flags.forceMerge));
    WithRegistered(forced, flags.registered)
  }

  /** Candidates in master order: the sort by position on master. */
  function Ordered(master: seq<MasterCommit>, combined: map<Sha, Branch>): seq<(Sha, Branch)> {
    if master == [] then [] else
      var n := |master| - 1;
      if master[n].sha in combined then Ordered(master[..n], combined) + [(master[n].sha, combined[master[n].sha])]
      else Ordered(master[..n], combined)
  }

  function Marks(own: seq<Own>): seq<Sha> {
    if own == [] then [] else
      var n := |own| - 1;
      if own[n].marks.Some? then Marks(own[..n]) + [own[n].marks.value] else Marks(own[..n])
  }

  predicate HasMarker(prior: Option<Line>, sha: Sha) {
    prior.Some? && sha in Marks(prior.value.own)
  }

  function Replays(commits: seq<Own>): seq<PlanStep> {
    if commits == [] then [] else Replays(commits[..|commits| - 1]) + [Replay(commits[|commits| - 1])]
  }

  /** History's own commits, to be replayed because master moved. */
  function Rebase(own: seq<Own>): seq<PlanStep> {
    if own == [] then [] else
      var n := |own| - 1;
      Rebase(own[..n]) + [if own[n].baseMerge then RecreateMerge(own[n]) else Replay(own[n])]
  }

  function Merges(candidates: seq<(Sha, Branch)>, prior: Option<Line>, commits: BranchCommits): seq<PlanStep> {
    if candidates == [] then [] else
      var n := |candidates| - 1;
      var rest := Merges(candidates[..n], prior, commits);
      var (sha, branch) := candidates[n];
      if HasMarker(prior, sha) then rest else rest + Replays(commits(branch)) + [Mark(sha, branch)]
  }

  function FromOf(prior: Option<Line>): nat {
    if prior.None? then 0 else prior.value.base
  }

  function FirstUnreachable(master: seq<MasterCommit>, registered: seq<(Branch, Sha)>): Option<Sha> {
    if registered == [] then None
    else if !OnMaster(master, registered[0].1) then Some(registered[0].1)
    else FirstUnreachable(master, registered[1..])
  }

  /** The steps of a run: history's own commits if master moved, then each unmarked candidate's commits and marker. */
  function BuildPlan(
      master: seq<MasterCommit>, prior: Option<Line>, flags: Flags,
      commits: BranchCommits): Result<seq<PlanStep>, PlanError>
  {
    var bad := FirstUnreachable(master, flags.registered);
    if bad.Some? then Err(NotReachable(bad.value))
    else
      var rebase := if prior.Some? && prior.value.base != |master| then Rebase(prior.value.own) else [];
      Ok(rebase + Merges(Ordered(master, Combined(master, FromOf(prior), flags)), prior, commits))
  }

  /** The planner's loop over merged branches, with its set of shas already planned. */
  method PlanMerges(
      candidates: seq<(Sha, Branch)>, prior: Option<Line>, commits: BranchCommits) returns (steps: seq<PlanStep>)
    requires forall i, j :: 0 <= i < j < |candidates| ==> candidates[i].0 != candidates[j].0
    ensures steps == Merges(candidates, prior, commits)
  {
    steps := [];
    var planned: set<Sha> := {};
    for i := 0 to |candidates|
      invariant steps == Merges(candidates[..i], prior, commits)
      invariant forall sha :: sha in planned ==> exists j :: 0 <= j < i && candidates[j].0 == sha
    {
      assert candidates[..i + 1][..i] == candidates[..i];
      var (sha, branch) := candidates[i];
      if sha in planned || HasMarker(prior, sha) { continue; }
      steps := steps + Replays(commits(branch)) + [Mark(sha, branch)];
      planned := planned + {sha};
    }
    assert candidates[..|candidates|] == candidates;
  }

  // --------------------------------------------------------------- execution

  /** What a completed run turns each step into: replaying keeps the message, and so the marker. */
  function Landed(step: PlanStep): Own {
    match step
    case Replay(c) => c
    case RecreateMerge(c) => c
    case Mark(sha, _) => Own(false, Some(sha))
  }

  function LandAll(steps: seq<PlanStep>): seq<Own> {
    if steps == [] then [] else LandAll(steps[..|steps| - 1]) + [Landed(steps[|steps| - 1])]
  }

  /** The history line after a completed run; `folded` when base was folded in at the end. */
  function Completed(master: seq<MasterCommit>, prior: Option<Line>, steps: seq<PlanStep>, folded: bool): Line {
    var kept := if prior.Some? && prior.value.base == |master| then prior.value.own else [];
    Line(|master|, kept + LandAll(steps) + if folded then [Own(true, None)] else [])
  }

  // ---------------------------------------------------------------- markers

  lemma {:induction false} MarksAppend(a: seq<Own>, b: seq<Own>)
    ensures Marks(a + b) == Marks(a) + Marks(b)
  {
    if b == [] {
      assert a + b == a;
    } else {
      assert (a + b)[..|a + b| - 1] == a + b[..|b| - 1];
      MarksAppend(a, b[..|b| - 1]);
    }
  }

  lemma {:induction false} LandAppend(a: seq<PlanStep>, b: seq<PlanStep>)
    ensures LandAll(a + b) == LandAll(a) + LandAll(b)
  {
    if b == [] {
      assert a + b == a;
    } else {
      assert (a + b)[..|a + b| - 1] == a + b[..|b| - 1];
      LandAppend(a, b[..|b| - 1]);
    }
  }

  lemma {:induction false} RebaseLandsOwn(own: seq<Own>)
    ensures LandAll(Rebase(own)) == own
  {
    if own != [] {
      RebaseLandsOwn(own[..|own| - 1]);
      assert own == own[..|own| - 1] + [own[|own| - 1]];
    }
  }

  /** Branch histories hold no markers of their own. */
  ghost predicate Unmarked(commits: BranchCommits) {
    forall b, i :: 0 <= i < |commits(b)| ==> commits(b)[i].marks == None
  }

  lemma {:induction false} ReplaysLand(cs: seq<Own>)
    ensures LandAll(Replays(cs)) == cs
  {
    if cs != [] {
      ReplaysLand(cs[..|cs| - 1]);
      assert cs == cs[..|cs| - 1] + [cs[|cs| - 1]];
    }
  }

  lemma {:induction false} NoMarks(cs: seq<Own>)
    requires forall i :: 0 <= i < |cs| ==> cs[i].marks == None
    ensures Marks(cs) == []
  {
    if cs != [] { NoMarks(cs[..|cs| - 1]); }
  }

  /** The candidates that get a marker, in order. */
  function ToMark(candidates: seq<(Sha, Branch)>, prior: Option<Line>): seq<Sha> {
    if candidates == [] then [] else
      var n := |candidates| - 1;
      if HasMarker(prior, candidates[n].0) then ToMark(candidates[..n], prior)
        else ToMark(candidates[..n], prior) + [candidates[n].0]
  }

  /** A merged branch's steps land as its commits and one that marks. */
  lemma MergeLands(rest: seq<PlanStep>, cs: seq<Own>, sha: Sha, branch: Branch)
    ensures LandAll(rest + Replays(cs) + [Mark(sha, branch)]) == LandAll(rest) + (cs + [Own(false, Some(sha))])
  {
    LandAppend(rest + Replays(cs), [Mark(sha, branch)]);
    LandAppend(rest, Replays(cs));
    ReplaysLand(cs);
    LandOne(Mark(sha, branch));
  }

  /** A merged branch's commits and its marker add exactly that marker. */
  lemma OneMergeMarks(rest: seq<PlanStep>, cs: seq<Own>, sha: Sha, branch: Branch)
    requires forall i :: 0 <= i < |cs| ==> cs[i].marks == None
    ensures Marks(LandAll(rest + Replays(cs) + [Mark(sha, branch)])) == Marks(LandAll(rest)) + [sha]
  {
    MergeLands(rest, cs, sha, branch);
    assert LandAll(rest) + (cs + [Own(false, Some(sha))]) == LandAll(rest) + cs + [Own(false, Some(sha))];
    MarksAppend(LandAll(rest) + cs, [Own(false, Some(sha))]);
    MarksAppend(LandAll(rest), cs);
    NoMarks(cs);
    assert Marks([Own(false, Some(sha))]) == [sha] by { assert [Own(false, Some(sha))][..0] == []; }
    assert Marks(LandAll(rest)) + [] == Marks(LandAll(rest));
  }

  lemma {:induction false} MergesMark(candidates: seq<(Sha, Branch)>, prior: Option<Line>, commits: BranchCommits)
    requires Unmarked(commits)
    ensures Marks(LandAll(Merges(candidates, prior, commits))) == ToMark(candidates, prior)
  {
    if candidates != [] {
      var n := |candidates| - 1;
      MergesMark(candidates[..n], prior, commits);
      OneMergeMarks(Merges(candidates[..n], prior, commits), commits(candidates[n].1), candidates[n].0,
        candidates[n].1);
    }
  }

  lemma LandOne(step: PlanStep)
    ensures LandAll([step]) == [Landed(step)]
  {
    assert [step][..0] == [];
  }

  /** Markers after a completed run: those there were, then one for each unmarked candidate. */
  lemma CompletedMarks(
      master: seq<MasterCommit>, prior: Option<Line>, flags: Flags, commits: BranchCommits, folded: bool)
    requires Unmarked(commits) && BuildPlan(master, prior, flags, commits).Ok?
    ensures var steps := BuildPlan(master, prior, flags, commits).value;
            Marks(Completed(master, prior, steps, folded).own)
            == (if prior.Some? then Marks(prior.value.own) else [])
              + ToMark(Ordered(master, Combined(master, FromOf(prior), flags)), prior)
  {
    var merges := Merges(Ordered(master, Combined(master, FromOf(prior), flags)), prior, commits);
    MergesMark(Ordered(master, Combined(master, FromOf(prior), flags)), prior, commits);
    var own := if prior.Some? then prior.value.own else [];
    MarksOfRun(own, merges, folded);
    if prior.Some? && prior.value.base == |master| {
      NothingBefore(merges);
    } else {
      RebasedLine(own, merges);
    }
  }

  lemma NothingBefore(merges: seq<PlanStep>)
    ensures [] + merges == merges
  {
  }

  lemma RebasedLine(own: seq<Own>, merges: seq<PlanStep>)
    ensures [] + LandAll(Rebase(own) + merges) == own + LandAll(merges)
  {
    RebaseLandsOwn(own);
    LandAppend(Rebase(own), merges);
  }

  /** Markers of a line's own commits, then those of its merges; a base fold adds none. */
  lemma MarksOfRun(own: seq<Own>, merges: seq<PlanStep>, folded: bool)
    ensures Marks(own + LandAll(merges) + if folded then [Own(true, None)] else [])
          == Marks(own) + Marks(LandAll(merges))
  {
    var tail := if folded then [Own(true, None)] else [];
    MarksAppend(own, LandAll(merges));
    MarksAppend(own + LandAll(merges), tail);
    NoMarks(tail);
    assert Marks(own) + Marks(LandAll(merges)) + [] == Marks(own) + Marks(LandAll(merges));
  }

  // ------------------------------------------------------ what a run writes

  /** The sha is a candidate that the line before the run does not mark. */
  predicate NewlyMarked(prior: Option<Line>, combined: map<Sha, Branch>, sha: Sha) {
    sha in combined && !HasMarker(prior, sha)
  }

  /** A merged branch on the history line: its own commits, then its marker. */
  function Section(sha: Sha, branch: Branch, commits: BranchCommits): seq<Own> {
    commits(branch) + [Own(false, Some(sha))]
  }

  /** The sections of the newly marked shas, in master order. */
  function Sections(
      master: seq<MasterCommit>, prior: Option<Line>, combined: map<Sha, Branch>, commits: BranchCommits): seq<Own>
  {
    if master == [] then [] else
      var n := |master| - 1;
      Sections(master[..n], prior, combined, commits)
      + if NewlyMarked(prior, combined, master[n].sha)
        then Section(master[n].sha, combined[master[n].sha], commits) else []
  }

  lemma MergesSnoc(
      candidates: seq<(Sha, Branch)>, sha: Sha, branch: Branch, prior: Option<Line>, commits: BranchCommits)
    ensures LandAll(Merges(candidates + [(sha, branch)], prior, commits))
         == LandAll(Merges(candidates, prior, commits))
            + if HasMarker(prior, sha) then [] else Section(sha, branch, commits)
  {
    assert (candidates + [(sha, branch)])[..|candidates|] == candidates;
    if !HasMarker(prior, sha) {
      MergeLands(Merges(candidates, prior, commits), commits(branch), sha, branch);
    } else {
      assert LandAll(Merges(candidates, prior, commits)) + [] == LandAll(Merges(candidates, prior, commits));
    }
  }

  lemma {:induction false} MergesLand(
      master: seq<MasterCommit>, prior: Option<Line>, combined: map<Sha, Branch>, commits: BranchCommits)
    ensures LandAll(Merges(Ordered(master, combined), prior, commits)) == Sections(master, prior, combined, commits)
  {
    if master != [] {
      var n := |master| - 1;
      MergesLand(master[..n], prior, combined, commits);
      if master[n].sha in combined {
        MergesSnoc(Ordered(master[..n], combined), master[n].sha, combined[master[n].sha], prior, commits);
      }
    }
  }

  function OwnOf(line: Option<Line>): seq<Own> {
    if line.Some? then line.value.own else []
  }

  function Fold(folded: bool): seq<Own> {
    if folded then [Own(true, None)] else []
  }

  /**
   The line after a completed run: history's own commits as they were, in order,
   then, for each newly marked sha in master order, the branch's commits and one
   commit marking it, then the base fold if there was one.
   */
  lemma CompletedLine(
      master: seq<MasterCommit>, prior: Option<Line>, flags: Flags, commits: BranchCommits, folded: bool)
    requires BuildPlan(master, prior, flags, commits).Ok?
    ensures var line := Completed(master, prior, BuildPlan(master, prior, flags, commits).value, folded);
      && line.base == |master|
      && line.own == OwnOf(prior) + Sections(master, prior, Combined(master, FromOf(prior), flags), commits)
           + Fold(folded)
  {
    var combined := Combined(master, FromOf(prior), flags);
    var merges := Merges(Ordered(master, combined), prior, commits);
    MergesLand(master, prior, combined, commits);
    if prior.Some? && prior.value.base == |master| {
      NothingBefore(merges);
    } else {
      RebasedLine(OwnOf(prior), merges);
    }
  }

  /**
   How history's own commits are carried over when master moved: one step each, in
   order, base merges recreated and all others picked.  If it did not move none is.
   */
  lemma {:induction false} RebaseSteps(own: seq<Own>, i: nat)
    requires i < |own|
    ensures |Rebase(own)| == |own|
    ensures own[i].baseMerge ==> Rebase(own)[i] == RecreateMerge(own[i])
    ensures !own[i].baseMerge ==> Rebase(own)[i] == Replay(own[i])
  {
    var n := |own| - 1;
    if n > 0 { RebaseSteps(own[..n], if i < n then i else 0); }
  }

  /** The plan's first steps carry history's own commits over, the rest are no base merges. */
  lemma PlanCarriesOver(
      master: seq<MasterCommit>, prior: Option<Line>, flags: Flags, commits: BranchCommits, i: nat)
    requires BuildPlan(master, prior, flags, commits).Ok?
    requires i < |BuildPlan(master, prior, flags, commits).value|
    ensures var plan := BuildPlan(master, prior, flags, commits).value;
            var own := if prior.Some? && prior.value.base != |master| then prior.value.own else [];
      && |plan| >= |own|
      && (i < |own| ==> plan[i] == if own[i].baseMerge then RecreateMerge(own[i]) else Replay(own[i]))
      && (i >= |own| ==> !plan[i].RecreateMerge?)
  {
    var own := if prior.Some? && prior.value.base != |master| then prior.value.own else [];
    var candidates := Ordered(master, Combined(master, FromOf(prior), flags));
    RebaseLength(own);
    if i < |own| { RebaseSteps(own, i); } else { MergesPick(candidates, prior, commits, i - |own|); }
  }

  lemma {:induction false} RebaseLength(own: seq<Own>)
    ensures |Rebase(own)| == |own|
  {
    if own != [] { RebaseSteps(own, 0); }
  }

  lemma {:induction false} ReplaysPick(cs: seq<Own>, i: nat)
    requires i < |Replays(cs)|
    ensures Replays(cs)[i].Replay?
  {
    if i < |Replays(cs)| - 1 { ReplaysPick(cs[..|cs| - 1], i); }
  }

  lemma {:induction false} MergesPick(
      candidates: seq<(Sha, Branch)>, prior: Option<Line>, commits: BranchCommits, i: nat)
    requires i < |Merges(candidates, prior, commits)|
    ensures !Merges(candidates, prior, commits)[i].RecreateMerge?
  {
    var n := |candidates| - 1;
    var rest, picked := Merges(candidates[..n], prior, commits), Replays(commits(candidates[n].1));
    if i < |rest| {
      MergesPick(candidates[..n], prior, commits, i);
    } else if i < |rest| + |picked| {
      ReplaysPick(commits(candidates[n].1), i - |rest|);
    }
  }

  // -------------------------------------------------------- which candidates

  /** The last registration of the sha, if any. */
  ghost predicate RegisteredAs(registered: seq<(Branch, Sha)>, sha: Sha, branch: Branch) {
    exists i :: LastRegistered(registered, sha, i) && registered[i].0 == branch
  }

  predicate LastRegistered(registered: seq<(Branch, Sha)>, sha: Sha, i: int) {
    0 <= i < |registered| && registered[i].1 == sha && forall j :: i < j < |registered| ==> registered[j].1 != sha
  }

  /** Master names the branch in the sha's trailer, in the part looked at. */
  predicate TrailerNames(master: seq<MasterCommit>, from: nat, forced: set<Branch>, sha: Sha, branch: Branch) {
    exists i :: 0 <= i < |master| && master[i] == MasterCommit(sha, Some(branch)) && (from <= i || branch in forced)
  }

  lemma {:induction false} DetectedIs(
      master: seq<MasterCommit>, from: nat, wanted: Option<set<Branch>>, sha: Sha, branch: Branch)
    requires DistinctShas(master)
    ensures sha in Detected(master, from, wanted) && Detected(master, from, wanted)[sha] == branch
       <==> (wanted.None? || branch in wanted.value)
            && exists i :: from <= i < |master| && master[i] == MasterCommit(sha, Some(branch))
  {
    if |master| > from {
      var n := |master| - 1;
      DetectedIs(master[..n], from, wanted, sha, branch);
      if i :| from <= i < |master| && master[i] == MasterCommit(sha, Some(branch)) {
        if i < n { assert master[..n][i] == master[i]; }
      }
      if i :| from <= i < n && master[..n][i] == MasterCommit(sha, Some(branch)) { assert master[i].sha == sha; }
    }
  }

  lemma {:induction false} RegisteredIs(
      combined: map<Sha, Branch>, registered: seq<(Branch, Sha)>, sha: Sha, branch: Branch)
    ensures sha in WithRegistered(combined, registered) && WithRegistered(combined, registered)[sha] == branch
       <==> RegisteredAs(registered, sha, branch)
            || ((forall i :: 0 <= i < |registered| ==> registered[i].1 != sha)
                && sha in combined && combined[sha] == branch)
  {
    if registered != [] {
      var n := |registered| - 1;
      if registered[n].1 == sha {
        assert LastRegistered(registered, sha, n);
      } else {
        RegisteredIs(combined, registered[..n], sha, branch);
        RegisteredSnoc(registered, sha, branch);
      }
    }
  }

  lemma LastRegisteredSnoc(registered: seq<(Branch, Sha)>, sha: Sha, i: int)
    requires registered != [] && registered[|registered| - 1].1 != sha
    ensures LastRegistered(registered, sha, i) <==> LastRegistered(registered[..|registered| - 1], sha, i)
  {
    var init := registered[..|registered| - 1];
    assert forall j :: 0 <= j < |init| ==> init[j] == registered[j];
  }

  lemma RegisteredSnoc(registered: seq<(Branch, Sha)>, sha: Sha, branch: Branch)
    requires registered != [] && registered[|registered| - 1].1 != sha
    ensures RegisteredAs(registered, sha, branch) <==> RegisteredAs(registered[..|registered| - 1], sha, branch)
  {
    forall i { LastRegisteredSnoc(registered, sha, i); }
  }

  /**
   Which branch a candidate is merged for: its last registration, else the one its
   trailer names if the commit is new to history or the branch is forced.
   */
  lemma CandidateIs(master: seq<MasterCommit>, from: nat, flags: Flags, sha: Sha, branch: Branch)
    requires DistinctShas(master)
    ensures sha in Combined(master, from, flags) && Combined(master, from, flags)[sha] == branch
       <==> RegisteredAs(flags.registered, sha, branch)
            || ((forall i :: 0 <= i < |flags.registered| ==> flags.registered[i].1 != sha)
                && TrailerNames(master, from, flags.forceMerge, sha, branch))
  {
    var detected := Detected(master, from, None);
    var forced := if flags.forceMerge == {} then detected else detected + Detected(master, 0, Some(flags.forceMerge));
    RegisteredIs(forced, flags.registered, sha, branch);
    ForcedIs(master, from, flags.forceMerge, sha, branch);
  }

  lemma ForcedIs(master: seq<MasterCommit>, from: nat, wanted: set<Branch>, sha: Sha, branch: Branch)
    requires DistinctShas(master)
    ensures var detected := Detected(master, from, None);
            var forced := if wanted == {} then detected else detected + Detected(master, 0, Some(wanted));
      sha in forced && forced[sha] == branch <==> TrailerNames(master, from, wanted, sha, branch)
  {
    var detected, all := Detected(master, from, None), Detected(master, 0, Some(wanted));
    DetectedIs(master, from, None, sha, branch);
    DetectedIs(master, 0, Some(wanted), sha, branch);
    if sha in all {
      DetectedIs(master, 0, Some(wanted), sha, all[sha]);
    }
    if sha in detected {
      DetectedIs(master, from, None, sha, detected[sha]);
    }
  }

  /** A plan is refused exactly if a registered merge is not on master; the first such one is named. */
  lemma PlanRefusedIff(
      master: seq<MasterCommit>, prior: Option<Line>, flags: Flags, commits: BranchCommits)
    ensures BuildPlan(master, prior, flags, commits).Ok?
       <==> forall i :: 0 <= i < |flags.registered| ==> OnMaster(master, flags.registered[i].1)
    ensures BuildPlan(master, prior, flags, commits).Err? ==>
      exists i :: (
        && 0 <= i < |flags.registered| && !OnMaster(master, flags.registered[i].1)
        && BuildPlan(master, prior, flags, commits).error == NotReachable(flags.registered[i].1)
        && forall j :: 0 <= j < i ==> OnMaster(master, flags.registered[j].1))
  {
    UnreachableIs(master, flags.registered);
  }

  lemma {:induction false} UnreachableIs(master: seq<MasterCommit>, registered: seq<(Branch, Sha)>)
    ensures FirstUnreachable(master, registered) == None
       <==> forall i :: 0 <= i < |registered| ==> OnMaster(master, registered[i].1)
    ensures FirstUnreachable(master, registered).Some? ==>
      exists i :: (
        && 0 <= i < |registered| && !OnMaster(master, registered[i].1)
        && FirstUnreachable(master, registered) == Some(registered[i].1)
        && forall j :: 0 <= j < i ==> OnMaster(master, registered[j].1))
  {
    if registered != [] && OnMaster(master, registered[0].1) {
      var rest := registered[1..];
      UnreachableIs(master, rest);
      assert forall i :: 0 < i < |registered| ==> registered[i] == rest[i - 1];
      if FirstUnreachable(master, rest).Some? {
        var i :| 0 <= i < |rest| && !OnMaster(master, rest[i].1)
          && FirstUnreachable(master, rest) == Some(rest[i].1)
          && forall j :: 0 <= j < i ==> OnMaster(master, rest[j].1);
        assert registered[i + 1] == rest[i];
      }
    }
  }

  // ------------------------------------------------------------ nothing lost

  /** The sections of a run within the line it completes. */
  lemma {:induction false} SectionAt(
      master: seq<MasterCommit>, prior: Option<Line>, combined: map<Sha, Branch>, commits: BranchCommits, i: nat)
    returns (before: seq<Own>, after: seq<Own>)
    requires i < |master| && NewlyMarked(prior, combined, master[i].sha)
    ensures Sections(master, prior, combined, commits)
         == before + Section(master[i].sha, combined[master[i].sha], commits) + after
  {
    var n := |master| - 1;
    if i == n {
      before, after := Sections(master[..n], prior, combined, commits), [];
    } else {
      before, after := SectionAt(master[..n], prior, combined, commits, i);
      after := after + if NewlyMarked(prior, combined, master[n].sha)
                       then Section(master[n].sha, combined[master[n].sha], commits) else [];
    }
  }

  /** The list occurs in one piece. */
  ghost predicate Within(part: seq<Own>, own: seq<Own>) {
    exists k :: StandsAt(part, own, k)
  }

  predicate StandsAt(part: seq<Own>, own: seq<Own>, k: int) {
    0 <= k <= |own| - |part| && own[k..k + |part|] == part
  }

  lemma WithinParts(before: seq<Own>, part: seq<Own>, after: seq<Own>)
    ensures Within(part, before + part + after)
  {
    assert StandsAt(part, before + part + after, |before|);
  }

  lemma WithinLonger(part: seq<Own>, own: seq<Own>, longer: seq<Own>)
    requires Within(part, own) && own <= longer
    ensures Within(part, longer)
  {
    var k :| StandsAt(part, own, k);
    assert StandsAt(part, longer, k);
  }

  // --------------------------------------------------------------- uniqueness

  predicate Unique(shas: seq<Sha>) {
    forall i, j :: 0 <= i < j < |shas| ==> shas[i] != shas[j]
  }

  predicate Listed(candidates: seq<(Sha, Branch)>, sha: Sha) {
    exists i :: 0 <= i < |candidates| && candidates[i].0 == sha
  }

  lemma OnMasterSnoc(master: seq<MasterCommit>, sha: Sha)
    requires master != []
    ensures OnMaster(master, sha) <==> OnMaster(master[..|master| - 1], sha) || master[|master| - 1].sha == sha
  {
    var n := |master| - 1;
    if OnMaster(master, sha) {
      var k :| 0 <= k < |master| && master[k].sha == sha;
      if k < n { assert master[..n][k].sha == sha; }
    }
    if OnMaster(master[..n], sha) {
      var k :| 0 <= k < n && master[..n][k].sha == sha;
      assert master[k].sha == sha;
    }
  }

  lemma ListedSnoc(candidates: seq<(Sha, Branch)>, c: (Sha, Branch), sha: Sha)
    ensures Listed(candidates + [c], sha) <==> Listed(candidates, sha) || c.0 == sha
  {
    var all := candidates + [c];
    if Listed(candidates, sha) {
      var i :| 0 <= i < |candidates| && candidates[i].0 == sha;
      assert all[i].0 == sha;
    }
    if c.0 == sha { assert all[|candidates|].0 == sha; }
    if Listed(all, sha) {
      var i :| 0 <= i < |all| && all[i].0 == sha;
      if i < |candidates| { assert candidates[i].0 == sha; }
    }
  }

  /** Sorting by master position lists exactly the candidates that are on master. */
  lemma {:induction false} OrderedLists(master: seq<MasterCommit>, combined: map<Sha, Branch>, sha: Sha)
    ensures Listed(Ordered(master, combined), sha) <==> sha in combined && OnMaster(master, sha)
  {
    if master != [] {
      var n := |master| - 1;
      OrderedLists(master[..n], combined, sha);
      OnMasterSnoc(master, sha);
      if master[n].sha in combined {
        ListedSnoc(Ordered(master[..n], combined), (master[n].sha, combined[master[n].sha]), sha);
      }
    }
  }

  predicate DistinctFirsts(candidates: seq<(Sha, Branch)>) {
    forall i, j :: 0 <= i < j < |candidates| ==> candidates[i].0 != candidates[j].0
  }

  lemma {:induction false} OrderedDistinct(master: seq<MasterCommit>, combined: map<Sha, Branch>)
    requires DistinctShas(master)
    ensures DistinctFirsts(Ordered(master, combined))
  {
    if master != [] {
      var n := |master| - 1;
      OrderedDistinct(master[..n], combined);
      OrderedLists(master[..n], combined, master[n].sha);
      assert !OnMaster(master[..n], master[n].sha);
      assert !Listed(Ordered(master[..n], combined), master[n].sha);
    }
  }

  lemma {:induction false} ToMarkIs(candidates: seq<(Sha, Branch)>, prior: Option<Line>, sha: Sha)
    ensures sha in ToMark(candidates, prior) <==> !HasMarker(prior, sha) && Listed(candidates, sha)
  {
    if candidates != [] {
      var n := |candidates| - 1;
      ToMarkIs(candidates[..n], prior, sha);
      assert candidates == candidates[..n] + [candidates[n]];
      ListedSnoc(candidates[..n], candidates[n], sha);
    }
  }

  lemma {:induction false} ToMarkUnique(candidates: seq<(Sha, Branch)>, prior: Option<Line>)
    requires DistinctFirsts(candidates)
    ensures Unique(ToMark(candidates, prior))
  {
    if candidates != [] {
      var n := |candidates| - 1;
      ToMarkUnique(candidates[..n], prior);
      ToMarkIs(candidates[..n], prior, candidates[n].0);
      assert !Listed(candidates[..n], candidates[n].0);
    }
  }

  /** One completed run keeps markers unique and marks exactly the candidates besides. */
  lemma RunMarks(master: seq<MasterCommit>, prior: Option<Line>, flags: Flags, commits: BranchCommits, folded: bool)
    requires DistinctShas(master) && Unmarked(commits) && BuildPlan(master, prior, flags, commits).Ok?
    requires prior.Some? ==> Unique(Marks(prior.value.own))
    ensures var steps := BuildPlan(master, prior, flags, commits).value;
            var line := Completed(master, prior, steps, folded);
            var combined := Combined(master, FromOf(prior), flags);
      && Unique(Marks(line.own))
      && forall sha :: sha in Marks(line.own) <==> HasMarker(prior, sha) || (sha in combined && OnMaster(master, sha))
  {
    var combined := Combined(master, FromOf(prior), flags);
    var candidates := Ordered(master, combined);
    CompletedMarks(master, prior, flags, commits, folded);
    OrderedDistinct(master, combined);
    ToMarkUnique(candidates, prior);
    var before, added := if prior.Some? then Marks(prior.value.own) else [], ToMark(candidates, prior);
    forall sha ensures sha in added <==> !HasMarker(prior, sha) && sha in combined && OnMaster(master, sha) {
      ToMarkIs(candidates, prior, sha);
      OrderedLists(master, combined, sha);
    }
    UniqueAppend(before, added);
  }

  lemma UniqueAppend(a: seq<Sha>, b: seq<Sha>)
    requires Unique(a) && Unique(b) && forall x :: x in b ==> x !in a
    ensures Unique(a + b)
  {
    forall i, j | 0 <= i < j < |a + b| ensures (a + b)[i] != (a + b)[j] {
      if i < |a| <= j { assert b[j - |a|] in b && a[i] in a; }
    }
  }

  // --------------------------------------------------------------- whole lives

  /** One completed run: master's state then, the flags given, the branch histories, and whether base was folded. */
  datatype Session = Session(master: seq<MasterCommit>, flags: Flags, commits: BranchCommits, folded: bool)

  /** Master only advances, with distinct shas; no registered merge is unreachable; branch histories are unmarked. */
  ghost predicate Orderly(ss: seq<Session>) {
    && (forall i :: 0 < i < |ss| ==> ss[i - 1].master <= ss[i].master)
    && (forall i :: 0 <= i < |ss| ==>
      DistinctShas(ss[i].master) && Unmarked(ss[i].commits)
      && FirstUnreachable(ss[i].master, ss[i].flags.registered) == None)
  }

  function LineAfter(ss: seq<Session>): Option<Line> {
    if ss == [] then None else
      var n := |ss| - 1;
      var s, prior := ss[n], LineAfter(ss[..n]);
      match BuildPlan(s.master, prior, s.flags, s.commits)
      case Err(_) => prior
      case Ok(steps) => Some(Completed(s.master, prior, steps, s.folded))
  }

  /** Over any sequence of completed runs, every clean merge has at most one marker. */
  lemma {:induction false} MarkersUnique(ss: seq<Session>)
    requires Orderly(ss)
    ensures ss != [] ==>
          LineAfter(ss).Some? && LineAfter(ss).value.base == |ss[|ss| - 1].master|
          && Unique(Marks(LineAfter(ss).value.own))
    ensures ss == [] ==> LineAfter(ss) == None
  {
    if ss != [] {
      var n := |ss| - 1;
      assert Orderly(ss[..n]);
      MarkersUnique(ss[..n]);
      var s := ss[n];
      assert FirstUnreachable(s.master, s.flags.registered) == None;
      RunMarks(s.master, LineAfter(ss[..n]), s.flags, s.commits, s.folded);
    }
  }

  /** The line after one more run. */
  lemma OneMoreRun(ss: seq<Session>, before: seq<Session>)
    requires Orderly(ss) && ss != [] && before == ss[..|ss| - 1]
    ensures var s, prior := ss[|ss| - 1], LineAfter(before);
      LineAfter(ss).Some? && LineAfter(ss).value.own
        == OwnOf(prior) + Sections(s.master, prior, Combined(s.master, FromOf(prior), s.flags), s.commits)
           + Fold(s.folded)
  {
    var s := ss[|ss| - 1];
    assert FirstUnreachable(s.master, s.flags.registered) == None;
    CompletedLine(s.master, LineAfter(before), s.flags, s.commits, s.folded);
  }

  lemma GrowsOnce(ss: seq<Session>, before: seq<Session>)
    requires Orderly(ss) && ss != [] && before == ss[..|ss| - 1]
    ensures OwnOf(LineAfter(before)) <= OwnOf(LineAfter(ss))
  {
    OneMoreRun(ss, before);
  }

  /** Lists that each continue the one before all continue the earlier ones. */
  lemma {:induction false} ChainGrows(gs: seq<seq<Own>>, i: nat, j: nat)
    requires i <= j < |gs| && forall k :: 0 < k < |gs| ==> gs[k - 1] <= gs[k]
    ensures gs[i] <= gs[j]
  {
    if i < j { ChainGrows(gs, i, j - 1); }
  }

  lemma GrowsAt(ss: seq<Session>, k: nat)
    requires Orderly(ss) && 0 < k <= |ss|
    ensures OwnOf(LineAfter(ss[..k - 1])) <= OwnOf(LineAfter(ss[..k]))
  {
    GrowsOnce(ss[..k], ss[..k - 1]);
  }

  /** History's own commits are only ever added to, however often they are carried over. */
  lemma OwnGrows(ss: seq<Session>, i: nat)
    requires Orderly(ss) && i <= |ss|
    ensures OwnOf(LineAfter(ss[..i])) <= OwnOf(LineAfter(ss))
  {
    var gs := seq(|ss| + 1, k requires 0 <= k <= |ss| => OwnOf(LineAfter(ss[..k])));
    forall k | 0 < k < |gs| ensures gs[k - 1] <= gs[k] { GrowsAt(ss, k); }
    ChainGrows(gs, i, |ss|);
    assert ss[..|ss|] == ss;
  }

  /** The run newly marks the master commit at j, and part is its branch's commits with the marker. */
  predicate Adds(s: Session, prior: Option<Line>, j: nat, part: seq<Own>) {
    var combined := Combined(s.master, FromOf(prior), s.flags);
    && j < |s.master| && NewlyMarked(prior, combined, s.master[j].sha)
    && part == Section(s.master[j].sha, combined[s.master[j].sha], s.commits)
  }

  lemma SectionLands(ss: seq<Session>, before: seq<Session>, s: Session, prior: Option<Line>, j: nat, part: seq<Own>)
    requires Orderly(ss) && ss != [] && before == ss[..|ss| - 1] && prior == LineAfter(before) && s == ss[|ss| - 1]
    requires Adds(s, prior, j, part)
    ensures Within(part, OwnOf(LineAfter(ss)))
  {
    OneMoreRun(ss, before);
    var front, back := SectionAt(s.master, prior, Combined(s.master, FromOf(prior), s.flags), s.commits, j);
    SectionOnLine(OwnOf(prior), front, part, back, Fold(s.folded));
  }

  lemma FrontOf(ss: seq<Session>, i: nat)
    requires Orderly(ss) && i < |ss|
    ensures var upTo := ss[..i + 1];
      Orderly(upTo) && upTo != [] && upTo[..|upTo| - 1] == ss[..i] && upTo[|upTo| - 1] == ss[i]
  {
  }

  lemma LandsAt(ss: seq<Session>, i: nat, prior: Option<Line>, j: nat, part: seq<Own>)
    requires Orderly(ss) && i < |ss| && prior == LineAfter(ss[..i]) && Adds(ss[i], prior, j, part)
    ensures Within(part, OwnOf(LineAfter(ss[..i + 1])))
  {
    FrontOf(ss, i);
    SectionLands(ss[..i + 1], ss[..i], ss[i], prior, j, part);
  }

  /**
   Nothing is lost: the commits of every branch that some run newly marks are on
   the history line ever after, in order and in one piece, with its marker behind.
   */
  lemma BranchesReplayed(ss: seq<Session>, i: nat, j: nat, part: seq<Own>)
    requires Orderly(ss) && i < |ss| && Adds(ss[i], LineAfter(ss[..i]), j, part)
    ensures Within(part, OwnOf(LineAfter(ss)))
  {
    LandsAt(ss, i, LineAfter(ss[..i]), j, part);
    OwnGrows(ss, i + 1);
    WithinLonger(part, OwnOf(LineAfter(ss[..i + 1])), OwnOf(LineAfter(ss)));
  }

  lemma SectionOnLine(own: seq<Own>, before: seq<Own>, part: seq<Own>, after: seq<Own>, fold: seq<Own>)
    ensures Within(part, own + (before + part + after) + fold)
  {
    WithinParts(own + before, part, after + fold);
    assert own + before + part + (after + fold) == own + (before + part + after) + fold;
  }

  lemma {:induction false} DetectedLate(master: seq<MasterCommit>, wanted: Option<set<Branch>>)
    ensures Detected(master, |master|, wanted) == map[]
  {
  }

  lemma {:induction false} NothingToMerge(candidates: seq<(Sha, Branch)>, prior: Option<Line>, commits: BranchCommits)
    requires forall i :: 0 <= i < |candidates| ==> HasMarker(prior, candidates[i].0)
    ensures Merges(candidates, prior, commits) == []
  {
    if candidates != [] { NothingToMerge(candidates[..|candidates| - 1], prior, commits); }
  }

  lemma {:induction false} RegisteredKeys(combined: map<Sha, Branch>, registered: seq<(Branch, Sha)>, sha: Sha)
    ensures sha in WithRegistered(combined, registered) <==>
      sha in combined || exists i :: 0 <= i < |registered| && registered[i].1 == sha
  {
    if registered != [] {
      var n := |registered| - 1;
      RegisteredKeys(combined, registered[..n], sha);
      if i :| 0 <= i < |registered| && registered[i].1 == sha {
        if i < n { assert registered[..n][i].1 == sha; }
      }
      if i :| 0 <= i < n && registered[..n][i].1 == sha { assert registered[i].1 == sha; }
    }
  }

  /** Candidates of a later plan against the same master are among the earlier ones. */
  lemma LaterCandidates(master: seq<MasterCommit>, from: nat, flags: Flags, sha: Sha)
    requires sha in Combined(master, |master|, flags)
    ensures sha in Combined(master, from, flags)
  {
    DetectedLate(master, None);
    var forced := if flags.forceMerge == {} then map[] else Detected(master, 0, Some(flags.forceMerge));
    var a := if flags.forceMerge == {} then Detected(master, |master|, None)
      else Detected(master, |master|, None) + forced;
    var b := if flags.forceMerge == {} then Detected(master, from, None) else Detected(master, from, None) + forced;
    RegisteredKeys(a, flags.registered, sha);
    RegisteredKeys(b, flags.registered, sha);
  }

  /** Planning again right after a completed run, with the same flags, yields no steps, whatever branches hold now. */
  lemma ReplanIsEmpty(ss: seq<Session>, commits: BranchCommits)
    requires Orderly(ss) && ss != []
    ensures var s := ss[|ss| - 1]; BuildPlan(s.master, LineAfter(ss), s.flags, commits) == Ok([])
  {
    var n := |ss| - 1;
    var s, prior, line := ss[n], LineAfter(ss[..n]), LineAfter(ss);
    MarkersUnique(ss);
    assert Orderly(ss[..n]);
    MarkersUnique(ss[..n]);
    assert FirstUnreachable(s.master, s.flags.registered) == None;
    RunMarks(s.master, prior, s.flags, s.commits, s.folded);
    AllMarked(s.master, prior, line, s.flags, commits);
  }

  lemma AllMarked(
      master: seq<MasterCommit>, prior: Option<Line>, line: Option<Line>, flags: Flags, commits: BranchCommits)
    requires line.Some? && line.value.base == |master| && FirstUnreachable(master, flags.registered) == None
    requires forall sha :: sha in Combined(master, FromOf(prior), flags) && OnMaster(master, sha) ==>
          sha in Marks(line.value.own)
    ensures BuildPlan(master, line, flags, commits) == Ok([])
  {
    var again := Combined(master, |master|, flags);
    var candidates := Ordered(master, again);
    forall i | 0 <= i < |candidates| ensures HasMarker(line, candidates[i].0) {
      OrderedLists(master, again, candidates[i].0);
      assert Listed(candidates, candidates[i].0);
      LaterCandidates(master, FromOf(prior), flags, candidates[i].0);
    }
    NothingToMerge(candidates, line, commits);
    var none: seq<PlanStep> := [];
    assert none + none == none;
  }
}
