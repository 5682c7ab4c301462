/**
 history_master.py: running a plan that can stop on conflicts, be resumed or
 aborted, and that moves the history ref once, at the very end.

 Replaying a commit or folding base is abstract: a `World` says how each step
 goes on a given tip and where a person's resolution of its conflict ends.
 */
module HistoryMaster {
  import opened Options

  type Sha = nat
  type Branch = string

  datatype Step =
    | CommitStep(sha: Sha) | BaseMergeStep(sha: Sha) | MarkerStep(cleanSha: Sha, branch: Branch) | BaseFold(sha: Sha)

  datatype OpKind = CherryPick | Merge

  /** A step can also raise some other error half way, leaving git's operation of some kind in progress, or none. */
  datatype Attempt = Clean(tip: Sha) | Conflict(kind: OpKind) | Broken(left: Option<OpKind>)

  /**
   `attempt`: a step tried on a tip; `resolved`: the tip once the operation it
   left is finished by hand; `contains`: ancestry; `base`: the fetched base tip.
   */
  datatype World = World(
    attempt: (Step, Sha) -> Attempt, resolved: (Step, Sha) -> Sha, contains: (Sha, Sha) -> bool, base: Option<Sha>)

  /**
   Only a base fold stops in a merge, since recreated base merges resolve themselves;
   a resolved fold contains base.
   */
  ghost predicate Plausible(w: World) {
    && (forall step: Step, tip: Sha :: w.attempt(step, tip) == Conflict(Merge) ==> step.BaseFold?)
    && (forall base: Sha, tip: Sha :: w.contains(w.resolved(BaseFold(base), tip), base))
  }

  datatype Pending = Pending(kind: OpKind, step: Step)

  /**
   What git has in progress: a step on a tip. The steps `applied` below that tip are
   history; git does not know them.
   */
  datatype GitOp = GitOp(kind: OpKind, step: Step, tip: Sha, applied: seq<Step>)

  /** The state file; `plan`, `start` and `applied` are history, not in the file. */
  datatype Saved = Saved(
    remaining: seq<Step>, tip: Sha, originalSha: Option<Sha>, pending: Pending,
    plan: seq<Step>, start: Sha, applied: seq<Step>)

  /** The history ref, the state file, and the operation git itself has in progress. */
  datatype Repo = Repo(history: Option<Sha>, saved: Option<Saved>, gitOp: Option<GitOp>)

  datatype Problem =
    | MidConflict | NothingToContinue | StalePending | StepBroken | DirtyCheckout | RefMoved | UnexpectedMerge

  datatype Outcome =
    | Finished(tip: Sha) | Stopped(pending: Pending) | Failed(problem: Problem) | Aborted | NothingToAbort

  /** How finishing git's operation goes: not yet possible, raising an error, or done. */
  datatype Resolution = Unresolved | Stuck | Resolved

  // ------------------------------------------------------------- the plan

  datatype Ran = Ran(tip: Sha, remaining: seq<Step>, stop: Option<Attempt>)

  /** `_run_steps`: on with the plan until it is done or a step does not go cleanly. */
  function RunSteps(w: World, steps: seq<Step>, tip: Sha): (r: Ran)
    ensures |r.remaining| <= |steps|
    ensures r.stop.Some? ==> r.remaining != [] && !r.stop.value.Clean?
    decreases |steps|
  {
    if steps == [] then Ran(tip, [], None) else
      match w.attempt(steps[0], tip)
      case Clean(tip') => RunSteps(w, steps[1..], tip')
      case other => Ran(tip, steps, Some(other))
  }

  /** The last part of a leg: fold base unless the tip has it already. */
  function FoldBase(w: World, tip: Sha): Attempt {
    if w.base.None? || w.contains(tip, w.base.value) then Clean(tip) else w.attempt(BaseFold(w.base.value), tip)
  }

  /** Where a leg of the run stands after its steps and its base fold. */
  datatype Leg =
    | Done(tip: Sha)
    | Stop(remaining: seq<Step>, tip: Sha, pending: Pending, applied: seq<Step>)
    | Break(left: Option<GitOp>)

  function LeftBy(left: Option<OpKind>, step: Step, tip: Sha, applied: seq<Step>): Option<GitOp> {
    if left.None? then None else Some(GitOp(left.value, step, tip, applied))
  }

  /** The steps of a list that a run over it got done. */
  function Front(steps: seq<Step>, r: Ran): seq<Step>
    requires |r.remaining| <= |steps|
  {
    steps[..|steps| - |r.remaining|]
  }

  function RunLeg(w: World, steps: seq<Step>, tip: Sha, applied: seq<Step>): Leg {
    var r := RunSteps(w, steps, tip);
    var now := applied + Front(steps, r);
    if r.stop.Some? then
      if r.stop.value.Broken? then Break(LeftBy(r.stop.value.left, r.remaining[0], r.tip, now))
      else Stop(r.remaining, r.tip, Pending(r.stop.value.kind, r.remaining[0]), now)
    else
      match FoldBase(w, r.tip)
      case Clean(tip') => Done(tip')
      case Conflict(kind) => Stop([], r.tip, Pending(kind, BaseFold(w.base.value)), now)
      case Broken(left) => Break(LeftBy(left, BaseFold(w.base.value), r.tip, now))
  }

  /** While git has an operation in progress, every step but a marker refuses the dirty checkout. */
  function Blocked(w: World): World {
    w.(attempt := (step: Step, tip: Sha) => if step.MarkerStep? then w.attempt(step, tip) else Broken(None))
  }

  // --------------------------------------------------------------- commands

  function Update(r: Repo, w: World, plan: seq<Step>, start: Sha, dirty: bool): (Repo, Outcome) {
    if r.saved.Some? then (r, Failed(MidConflict)) else
      match RunLeg(if r.gitOp.Some? then Blocked(w) else w, plan, start, [])
      case Break(left) => (if left.Some? then r.(gitOp := left) else r, Failed(StepBroken))
      case Stop(remaining, tip, pending, applied) =>
        (Stopping(r, Saved(remaining, tip, r.history, pending, plan, start, applied)), Stopped(pending))
      case Done(tip) =>
        if r.history.Some? && dirty then (r, Failed(DirtyCheckout)) else (r.(history := Some(tip)), Finished(tip))
  }

  /** The operation a stopped run waits for. */
  function PendingOp(s: Saved): GitOp {
    GitOp(s.pending.kind, s.pending.step, s.tip, s.applied)
  }

  function Stopping(r: Repo, s: Saved): Repo {
    Repo(r.history, Some(s), Some(PendingOp(s)))
  }

  /** `git update-ref ref tip original`: without a recorded original there is nothing to compare with. */
  function Swap(r: Repo, tip: Sha, original: Option<Sha>, dirty: bool): (Repo, Outcome) {
    if dirty then (r, Failed(DirtyCheckout))
    else if original.Some? && r.history != original then (r, Failed(RefMoved))
    else (Repo(Some(tip), None, r.gitOp), Finished(tip))
  }

  function Drop(steps: seq<Step>): seq<Step> {
    if steps == [] then [] else steps[1..]
  }

  /** Whether git has an operation of the kind the state file names; its marker file is all that is looked at. */
  predicate InProgress(r: Repo) {
    r.saved.Some? && r.gitOp.Some? && r.gitOp.value.kind == r.saved.value.pending.kind
  }

  /** `_do_continue`: finishes whatever operation is in progress, then goes on behind the first remaining step. */
  function Continue(r: Repo, w: World, res: Resolution, dirty: bool): (Repo, Outcome) {
    if r.saved.None? then (r, Failed(NothingToContinue)) else
      var s := r.saved.value;
      if !InProgress(r) then (r, Failed(StalePending))
      else if res.Unresolved? then (r, Stopped(s.pending))
      else if s.pending.kind == Merge && !s.pending.step.BaseFold? then (r, Failed(UnexpectedMerge))
      else if res.Stuck? then (r, Failed(StepBroken))
      else
        var op := r.gitOp.value;
        match RunLeg(w, Drop(s.remaining), w.resolved(op.step, op.tip), op.applied + [op.step])
        case Break(left) => (r.(gitOp := left), Failed(StepBroken))
        case Stop(remaining, tip, pending, applied) =>
          var s' := s.(remaining := remaining, tip := tip, pending := pending, applied := applied);
          (Stopping(r, s'), Stopped(pending))
        case Done(tip) => Swap(r.(gitOp := None), tip, s.originalSha, dirty)
  }

  /**
   `_do_abort`: an operation of another kind than the pending one stays, and blocks
   the clean-up if it has unmerged paths.
   */
  function Abort(r: Repo, unmerged: bool): (Repo, Outcome) {
    if r.saved.None? then (r, NothingToAbort)
    else if r.gitOp.Some? && !InProgress(r) && unmerged then (r, Failed(DirtyCheckout))
    else (Repo(r.history, None, None), Aborted)
  }

  /** The tool's working state, changed in place by its three commands. */
  class HistoryTool {
    var history: Option<Sha>
    var saved: Option<Saved>
    var gitOp: Option<GitOp>

    constructor (history: Option<Sha>)
      ensures View() == Repo(history, None, None)
    {
      this.history, saved, gitOp := history, None, None;
    }

    function View(): Repo
      reads this
    {
      Repo(history, saved, gitOp)
    }

    method ExecuteSteps(w: World, steps: seq<Step>, start: Sha)
      returns (tip: Sha, remaining: seq<Step>, stop: Option<Attempt>)
      ensures Ran(tip, remaining, stop) == RunSteps(w, steps, start)
    {
      tip, remaining := start, steps;
      while remaining != []
        invariant RunSteps(w, remaining, tip) == RunSteps(w, steps, start)
        decreases |remaining|
      {
        var step := remaining[0];
        match w.attempt(step, tip) {
          case Clean(next) => tip := next;
          case other => return tip, remaining, Some(other);
        }
        remaining := remaining[1..];
      }
      stop := None;
    }

    /** Steps, then the base fold. */
    method ExecuteLeg(w: World, steps: seq<Step>, start: Sha, applied: seq<Step>) returns (leg: Leg)
      ensures leg == RunLeg(w, steps, start, applied)
    {
      var tip, remaining, stop := ExecuteSteps(w, steps, start);
      var now := applied + Front(steps, Ran(tip, remaining, stop));
      if stop.Some? {
        if stop.value.Broken? { return Break(LeftBy(stop.value.left, remaining[0], tip, now)); }
        return Stop(remaining, tip, Pending(stop.value.kind, remaining[0]), now);
      }
      if w.base.Some? && !w.contains(tip, w.base.value) {
        match w.attempt(BaseFold(w.base.value), tip) {
          case Clean(folded) => tip := folded;
          case Conflict(kind) => return Stop([], tip, Pending(kind, BaseFold(w.base.value)), now);
          case Broken(left) => return Break(LeftBy(left, BaseFold(w.base.value), tip, now));
        }
      }
      return Done(tip);
    }

    method UpdateHistory(w: World, plan: seq<Step>, start: Sha, dirty: bool) returns (outcome: Outcome)
      modifies this
      ensures (View(), outcome) == Update(old(View()), w, plan, start, dirty)
    {
      if saved.Some? { return Failed(MidConflict); }
      var leg := ExecuteLeg(if gitOp.Some? then Blocked(w) else w, plan, start, []);
      match leg {
        case Break(left) =>
          if left.Some? { gitOp := left; }
          return Failed(StepBroken);
        case Stop(remaining, tip, pending, applied) =>
          saved := Some(Saved(remaining, tip, history, pending, plan, start, applied));
          gitOp := Some(PendingOp(saved.value));
          return Stopped(pending);
        case Done(tip) =>
          if history.Some? && dirty { return Failed(DirtyCheckout); }
          history := Some(tip);
          return Finished(tip);
      }
    }

    method ContinueRun(w: World, res: Resolution, dirty: bool) returns (outcome: Outcome)
      modifies this
      ensures (View(), outcome) == Continue(old(View()), w, res, dirty)
    {
      if saved.None? { return Failed(NothingToContinue); }
      var s := saved.value;
      if gitOp.None? || gitOp.value.kind != s.pending.kind { return Failed(StalePending); }
      if res.Unresolved? { return Stopped(s.pending); }
      if s.pending.kind == Merge && !s.pending.step.BaseFold? { return Failed(UnexpectedMerge); }
      if res.Stuck? { return Failed(StepBroken); }
      var op := gitOp.value;
      gitOp := None;
      var leg := ExecuteLeg(w, Drop(s.remaining), w.resolved(op.step, op.tip), op.applied + [op.step]);
      match leg {
        case Break(left) =>
          gitOp := left;
          return Failed(StepBroken);
        case Stop(remaining, tip, pending, applied) =>
          saved := Some(s.(remaining := remaining, tip := tip, pending := pending, applied := applied));
          gitOp := Some(PendingOp(saved.value));
          return Stopped(pending);
        case Done(tip) =>
          if dirty { return Failed(DirtyCheckout); }
          if s.originalSha.Some? && history != s.originalSha { return Failed(RefMoved); }
          history, saved := Some(tip), None;
          return Finished(tip);
      }
    }

    method AbortRun(unmerged: bool) returns (outcome: Outcome)
      modifies this
      ensures (View(), outcome) == Abort(old(View()), unmerged)
    {
      if saved.None? { return NothingToAbort; }
      if gitOp.Some? && gitOp.value.kind != saved.value.pending.kind && unmerged { return Failed(DirtyCheckout); }
      saved, gitOp := None, None;
      return Aborted;
    }
  }

  // ------------------------------------------------------------ the meaning

  /** What a step amounts to, however often it stops. */
  function Effect(w: World, step: Step, tip: Sha): Sha {
    match w.attempt(step, tip)
    case Clean(tip') => tip'
    case _ => w.resolved(step, tip)
  }

  /** Every step applied once, in order. */
  function ApplyPlan(w: World, steps: seq<Step>, tip: Sha): Sha {
    if steps == [] then tip else Effect(w, steps[|steps| - 1], ApplyPlan(w, steps[..|steps| - 1], tip))
  }

  function FoldedTip(w: World, tip: Sha): Sha {
    if w.base.None? || w.contains(tip, w.base.value) then tip else Effect(w, BaseFold(w.base.value), tip)
  }

  /** The tip of a run nothing interrupts. */
  function PlannedTip(w: World, plan: seq<Step>, start: Sha): Sha {
    FoldedTip(w, ApplyPlan(w, plan, start))
  }

  /** The same world with every conflict resolved on the spot. */
  function Smooth(w: World): World {
    w.(attempt := (step: Step, tip: Sha) => Clean(Effect(w, step, tip)))
  }

  lemma {:induction false} ApplyAppend(w: World, a: seq<Step>, b: seq<Step>, tip: Sha)
    ensures ApplyPlan(w, a + b, tip) == ApplyPlan(w, b, ApplyPlan(w, a, tip))
  {
    if b == [] {
      assert a + b == a;
    } else {
      assert (a + b)[..|a + b| - 1] == a + b[..|b| - 1];
      ApplyAppend(w, a, b[..|b| - 1], tip);
    }
  }

  lemma ApplyOne(w: World, step: Step, tip: Sha)
    ensures ApplyPlan(w, [step], tip) == Effect(w, step, tip)
  {
    assert [step][..0] == [];
  }

  /** What `_run_steps` did is the front of its list, what it returns is the rest. */
  lemma {:induction false} RunStepsSplits(w: World, steps: seq<Step>, tip: Sha)
    ensures var r := RunSteps(w, steps, tip);
      && Front(steps, r) + r.remaining == steps
      && r.tip == ApplyPlan(w, Front(steps, r), tip)
      && (r.stop.None? <==> r.remaining == [])
      && (r.stop.Some? ==> r.stop.value == w.attempt(r.remaining[0], r.tip))
    decreases |steps|
  {
    if steps != [] && w.attempt(steps[0], tip).Clean? {
      var tip' := w.attempt(steps[0], tip).tip;
      var r := RunSteps(w, steps[1..], tip');
      RunStepsSplits(w, steps[1..], tip');
      FrontGrows(steps, r);
      ApplyOne(w, steps[0], tip);
      ApplyAppend(w, [steps[0]], Front(steps[1..], r), tip);
    }
  }

  lemma FrontGrows(steps: seq<Step>, r: Ran)
    requires steps != [] && |r.remaining| <= |steps[1..]| && Front(steps[1..], r) + r.remaining == steps[1..]
    ensures Front(steps, r) == [steps[0]] + Front(steps[1..], r)
    ensures Front(steps, r) + r.remaining == steps
  {
    assert steps == [steps[0]] + steps[1..];
  }

  // ------------------------------------------------------------- invariants

  /** The step a stopped run waits for: the next of the plan, or the base fold once the plan is through. */
  predicate WaitsFor(w: World, s: Saved) {
    if s.remaining != [] then s.pending.step == s.remaining[0]
    else w.base.Some? && s.pending.step == BaseFold(w.base.value) && !w.contains(s.tip, w.base.value)
  }

  /** The tip is what `applied` makes of the start, and the pending step conflicts there. */
  predicate Sound(w: World, s: Saved) {
    && s.tip == ApplyPlan(w, s.applied, s.start)
    && WaitsFor(w, s)
    && w.attempt(s.pending.step, s.tip) == Conflict(s.pending.kind)
  }

  /** Every step of the plan was applied once, in order, or is still to come. */
  predicate Intact(s: Saved) {
    s.applied + s.remaining == s.plan
  }

  /** Some step was applied twice. */
  predicate Repeats(s: Saved) {
    |s.applied| + |s.remaining| > |s.plan|
  }

  /** Git has an operation of the pending kind in progress, but of another step or on another tip. */
  predicate Stray(r: Repo) {
    InProgress(r) && r.gitOp.value != PendingOp(r.saved.value)
  }

  /** A stray operation lies further on in the run than the pending step. */
  predicate OpSound(w: World, s: Saved, op: GitOp) {
    op != PendingOp(s) ==> (
      && s.remaining != [] && |op.applied| > |s.applied|
      && op.tip == ApplyPlan(w, op.applied, s.start) && !w.attempt(op.step, op.tip).Clean?)
  }

  /** What holds of a saved run at any time. */
  predicate RepoOk(w: World, r: Repo) {
    r.saved.Some? ==> (
      && Sound(w, r.saved.value)
      && (Intact(r.saved.value) || Repeats(r.saved.value))
      && (InProgress(r) ==> OpSound(w, r.saved.value, r.gitOp.value)))
  }

  /** All steps a run has applied once git's operation and everything remaining is through. */
  function Total(s: Saved, op: GitOp): seq<Step> {
    if s.remaining == [] then s.applied else op.applied + [op.step] + Drop(s.remaining)
  }

  /** An operation that finishes as its step amounts to makes its tip the next of the applied steps. */
  lemma OpFinishes(w: World, s: Saved, op: GitOp)
    requires Sound(w, s) && OpSound(w, s, op) && s.remaining != []
    ensures w.resolved(op.step, op.tip) == ApplyPlan(w, op.applied + [op.step], s.start)
  {
    ApplyOne(w, op.step, op.tip);
    ApplyAppend(w, op.applied, [op.step], s.start);
  }

  /** The sequence of all steps is the plan exactly for an intact run whose own pending step is in progress. */
  lemma TotalIsPlan(w: World, s: Saved, op: GitOp)
    requires Sound(w, s) && OpSound(w, s, op) && (Intact(s) || Repeats(s))
    ensures Total(s, op) == s.plan <==> Intact(s) && op == PendingOp(s)
    ensures Total(s, op) == s.plan || |Total(s, op)| > |s.plan|
  {
    if s.remaining != [] && op == PendingOp(s) {
      assert s.applied + [s.remaining[0]] + Drop(s.remaining) == s.applied + s.remaining;
    }
  }

  /**
   A leg from behind `applied`: done, it is at the tip of all steps; stopped or
   broken, it keeps them in two parts.
   */
  predicate LegOk(w: World, leg: Leg, applied: seq<Step>, steps: seq<Step>, start: Sha) {
    match leg
    case Done(tip) => tip == PlannedTip(w, applied + steps, start)
    case Stop(remaining, tip, pending, now) =>
      && now + remaining == applied + steps
      && Sound(w, Saved(remaining, tip, None, pending, [], start, now))
    case Break(left) =>
      left.Some? ==>
        && |left.value.applied| >= |applied|
        && left.value.tip == ApplyPlan(w, left.value.applied, start)
        && !w.attempt(left.value.step, left.value.tip).Clean?
  }

  lemma LegKeepsSteps(w: World, applied: seq<Step>, steps: seq<Step>, start: Sha, tip: Sha)
    requires tip == ApplyPlan(w, applied, start)
    ensures LegOk(w, RunLeg(w, steps, tip, applied), applied, steps, start)
  {
    var r := RunSteps(w, steps, tip);
    RunStepsSplits(w, steps, tip);
    ApplyAppend(w, applied, Front(steps, r), start);
    assert applied + Front(steps, r) + r.remaining == applied + steps;
    assert r.stop.None? ==> applied + Front(steps, r) == applied + steps;
  }

  /** A blocked leg does what an unblocked one does, or changes nothing. */
  lemma {:induction false} BlockedStepsAgree(w: World, steps: seq<Step>, tip: Sha)
    ensures var r := RunSteps(Blocked(w), steps, tip);
      r == RunSteps(w, steps, tip) || r.stop == Some(Broken(None))
    decreases |steps|
  {
    if steps != [] && steps[0].MarkerStep? && w.attempt(steps[0], tip).Clean? {
      BlockedStepsAgree(w, steps[1..], w.attempt(steps[0], tip).tip);
    }
  }

  lemma BlockedAgrees(w: World, steps: seq<Step>, tip: Sha)
    ensures var leg := RunLeg(Blocked(w), steps, tip, []);
      leg == RunLeg(w, steps, tip, []) || leg == Break(None)
  {
    BlockedStepsAgree(w, steps, tip);
  }

  /** A fold that is already in is not repeated. */
  lemma FoldedOnce(w: World, s: Saved, applied: seq<Step>)
    requires Plausible(w) && Sound(w, s) && s.remaining == []
    ensures var tip := w.resolved(s.pending.step, s.tip);
      RunLeg(w, [], tip, applied) == Done(tip) && tip == PlannedTip(w, s.applied, s.start)
  {
    assert w.contains(w.resolved(BaseFold(w.base.value), s.tip), w.base.value);
  }

  /** An update that stops leaves an intact run; one that finishes puts the ref at the planned tip. */
  lemma UpdateRefines(r: Repo, w: World, plan: seq<Step>, start: Sha, dirty: bool)
    requires RepoOk(w, r)
    ensures var (r', o) := Update(r, w, plan, start, dirty);
      && RepoOk(w, r')
      && (o.Finished? ==> o.tip == PlannedTip(w, plan, start) && r' == r.(history := Some(o.tip)))
      && (!o.Finished? ==> r'.history == r.history)
      && (o.Stopped? ==>
            && r'.saved.Some? && r'.saved.value.originalSha == r.history
            && r'.saved.value.plan == plan && r'.saved.value.start == start && Intact(r'.saved.value))
      && (!o.Stopped? ==> r'.saved == r.saved)
  {
    LegKeepsSteps(w, [], plan, start, start);
    BlockedAgrees(w, plan, start);
    assert [] + plan == plan;
  }

  /**
   What a continue promises: one that finishes puts the ref at the tip of
   everything applied, and one that stops leaves the same steps in two parts.
   */
  predicate ContinuesWell(w: World, r: Repo, r': Repo, o: Outcome)
    requires r.saved.Some? && r.gitOp.Some?
  {
    var s, total := r.saved.value, Total(r.saved.value, r.gitOp.value);
    && (o.Finished? ==>
          && o.tip == PlannedTip(w, total, s.start) && r'.history == Some(o.tip) && r'.saved == None
          && (s.originalSha.Some? ==> r.history == s.originalSha))
    && (!o.Finished? ==> r'.history == r.history && r'.saved.Some?)
    && (o.Stopped? ==>
          && InProgress(r') && !Stray(r')
          && r'.saved.value.applied + r'.saved.value.remaining == total
          && Sound(w, r'.saved.value)
          && r'.saved.value.plan == s.plan && r'.saved.value.start == s.start
          && r'.saved.value.originalSha == s.originalSha)
    && (o.Failed? ==> r'.saved == r.saved && (InProgress(r') ==> OpSound(w, s, r'.gitOp.value)))
  }

  lemma ContinuesLast(r: Repo, w: World, dirty: bool)
    requires Plausible(w) && RepoOk(w, r) && InProgress(r) && r.saved.value.remaining == []
    ensures ContinuesWell(w, r, Continue(r, w, Resolved, dirty).0, Continue(r, w, Resolved, dirty).1)
  {
    FoldedOnce(w, r.saved.value, r.gitOp.value.applied + [r.gitOp.value.step]);
  }

  lemma ContinuesOn(r: Repo, w: World, dirty: bool)
    requires Plausible(w) && RepoOk(w, r) && InProgress(r) && r.saved.value.remaining != []
    ensures ContinuesWell(w, r, Continue(r, w, Resolved, dirty).0, Continue(r, w, Resolved, dirty).1)
  {
    var s, op := r.saved.value, r.gitOp.value;
    OpFinishes(w, s, op);
    LegKeepsSteps(w, op.applied + [op.step], Drop(s.remaining), s.start, w.resolved(op.step, op.tip));
  }

  lemma ContinueRefines(r: Repo, w: World, res: Resolution, dirty: bool)
    requires Plausible(w) && RepoOk(w, r) && InProgress(r) && res.Resolved?
    ensures RepoOk(w, Continue(r, w, res, dirty).0)
    ensures ContinuesWell(w, r, Continue(r, w, res, dirty).0, Continue(r, w, res, dirty).1)
  {
    TotalIsPlan(w, r.saved.value, r.gitOp.value);
    if r.saved.value.remaining == [] { ContinuesLast(r, w, dirty); } else { ContinuesOn(r, w, dirty); }
  }

  /** A continue that cannot resolve, or has nothing to resolve, changes nothing. */
  lemma ContinueRefuses(r: Repo, w: World, res: Resolution, dirty: bool)
    requires !InProgress(r) || !res.Resolved?
    ensures Continue(r, w, res, dirty).0 == r && !Continue(r, w, res, dirty).1.Finished?
  {
  }

  /**
   Aborting forgets the run, and leaves the ref where it is; it fails exactly on
   unmerged paths of a foreign operation.
   */
  lemma AbortRestores(r: Repo, unmerged: bool)
    ensures var (r', o) := Abort(r, unmerged);
      && r'.history == r.history
      && (o == Aborted <==> r.saved.Some? && !(r.gitOp.Some? && !InProgress(r) && unmerged))
      && (o == Aborted ==> r'.saved == None && r'.gitOp == None)
      && (o != Aborted ==> r' == r)
  {
  }

  predicate FailedAfterResolving(o: Outcome) {
    o == Failed(StepBroken) || o == Failed(DirtyCheckout) || o == Failed(RefMoved)
  }

  /**
   After a continue that resolved its step but then failed, all further continues
   are refused exactly if the step that broke left no operation of the pending kind.
   */
  lemma FailedFinishNeedsAbort(r: Repo, w: World, dirty: bool)
    requires FailedAfterResolving(Continue(r, w, Resolved, dirty).1)
    ensures var r' := Continue(r, w, Resolved, dirty).0;
      && r'.saved == r.saved
      && ((forall w', res, dirty' :: Continue(r', w', res, dirty') == (r', Failed(StalePending))) <==> !InProgress(r'))
  {
    var r' := Continue(r, w, Resolved, dirty).0;
    assert Continue(r', w, Unresolved, dirty).1 == if InProgress(r') then Stopped(r'.saved.value.pending)
      else Failed(StalePending);
  }

  /**
   If it did leave one, resolving that and continuing applies a second time
   every step between the pending one and the one that broke, and that one too.
   */
  lemma BrokenStepRepeats(r: Repo, w: World, dirty: bool) returns (k: nat)
    requires Plausible(w) && RepoOk(w, r) && InProgress(r) && !Stray(r)
    requires Continue(r, w, Resolved, dirty).1 == Failed(StepBroken)
    requires InProgress(Continue(r, w, Resolved, dirty).0)
    ensures var s, op := r.saved.value, Continue(r, w, Resolved, dirty).0.gitOp.value;
      && 1 <= k <= |s.remaining| && op.applied == s.applied + s.remaining[..k]
      && op.step == (if k < |s.remaining| then s.remaining[k] else BaseFold(w.base.value))
      && Total(s, op) == s.applied + s.remaining[..k] + [op.step] + s.remaining[1..]
  {
    var s := r.saved.value;
    if s.remaining == [] {
      FoldedOnce(w, s, s.applied + [s.pending.step]);
    } else {
      var rest := Drop(s.remaining);
      var tip := w.resolved(s.pending.step, s.tip);
      var ran := RunSteps(w, rest, tip);
      RunStepsSplits(w, rest, tip);
      k := 1 + |Front(rest, ran)|;
      assert s.remaining[..k] == [s.remaining[0]] + Front(rest, ran);
      assert s.applied + s.remaining[..k] == s.applied + [s.remaining[0]] + Front(rest, ran);
    }
  }

  // --------------------------------------------------------------- whole runs

  /**
   A person's doings between the tool's commands: further commands, a raw abort of
   git's operation, a push to the ref.
   */
  datatype Command =
    | DoContinue(res: Resolution, dirty: bool)
    | DoUpdate(plan: seq<Step>, start: Sha, dirty: bool)
    | DoAbort(unmerged: bool)
    | RawAbort
    | MoveRef(to: Option<Sha>)

  function Do(r: Repo, w: World, cmd: Command): (Repo, Outcome) {
    match cmd
    case DoContinue(res, dirty) => Continue(r, w, res, dirty)
    case DoUpdate(plan, start, dirty) => Update(r, w, plan, start, dirty)
    case DoAbort(unmerged) => Abort(r, unmerged)
    case RawAbort => (r.(gitOp := None), NothingToAbort)
    case MoveRef(to) => (r.(history := to), NothingToAbort)
  }

  function DoAll(r: Repo, w: World, cmds: seq<Command>): Repo {
    if cmds == [] then r else Do(DoAll(r, w, cmds[..|cmds| - 1]), w, cmds[|cmds| - 1]).0
  }

  lemma DoKeeps(r: Repo, w: World, cmd: Command)
    requires Plausible(w) && RepoOk(w, r)
    ensures RepoOk(w, Do(r, w, cmd).0)
  {
    match cmd
    case DoContinue(res, dirty) =>
      if InProgress(r) && res.Resolved? {
        ContinueRefines(r, w, res, dirty);
      } else {
        ContinueRefuses(r, w, res, dirty);
      }
    case DoUpdate(plan, start, dirty) => UpdateRefines(r, w, plan, start, dirty);
    case _ =>
  }

  /**
   In every reachable state a saved run can go on from its tip, and has applied its
   steps once or some of them twice.
   */
  lemma {:induction false} EveryStateResumable(history: Option<Sha>, w: World, cmds: seq<Command>)
    requires Plausible(w)
    ensures RepoOk(w, DoAll(Repo(history, None, None), w, cmds))
  {
    if cmds != [] {
      var n := |cmds| - 1;
      EveryStateResumable(history, w, cmds[..n]);
      DoKeeps(DoAll(Repo(history, None, None), w, cmds[..n]), w, cmds[n]);
    }
  }

  /** Since its update, the saved run was continued over a stray operation. */
  predicate WentAstray(history: Option<Sha>, w: World, cmds: seq<Command>) {
    cmds != [] &&
    var n := |cmds| - 1;
    var r := DoAll(Repo(history, None, None), w, cmds[..n]);
    && r.saved.Some?
    && (WentAstray(history, w, cmds[..n]) || (Stray(r) && cmds[n].DoContinue? && cmds[n].res.Resolved?
      && Do(r, w, cmds[n]).1.Stopped?))
  }

  /**
   In every reachable state the applied and the remaining steps of a saved run are its
   plan exactly if it never went astray.
   */
  lemma {:induction false} IntactUnlessAstray(history: Option<Sha>, w: World, cmds: seq<Command>)
    requires Plausible(w)
    ensures var r := DoAll(Repo(history, None, None), w, cmds);
      r.saved.Some? ==> (Intact(r.saved.value) <==> !WentAstray(history, w, cmds))
  {
    if cmds != [] {
      var n := |cmds| - 1;
      var r := DoAll(Repo(history, None, None), w, cmds[..n]);
      EveryStateResumable(history, w, cmds[..n]);
      IntactUnlessAstray(history, w, cmds[..n]);
      match cmds[n]
      case DoContinue(res, dirty) =>
        if InProgress(r) && res.Resolved? {
          ContinueRefines(r, w, res, dirty);
          TotalIsPlan(w, r.saved.value, r.gitOp.value);
        } else {
          ContinueRefuses(r, w, res, dirty);
        }
      case DoUpdate(plan, start, dirty) => UpdateRefines(r, w, plan, start, dirty);
      case _ =>
    }
  }

  /**
   Only a finishing command moves the ref.  An update moves it to the planned
   tip; a continue moves it to the tip of all applied steps, and these are the
   planned ones exactly if the run never went astray and is not astray now.
   */
  lemma RefMovesOnlyAtTheEnd(history: Option<Sha>, w: World, cmds: seq<Command>, cmd: Command)
    requires Plausible(w) && !cmd.MoveRef?
    ensures var r := DoAll(Repo(history, None, None), w, cmds); var (r', o) := Do(r, w, cmd);
      && (r'.history != r.history ==> o.Finished?)
      && (o.Finished? && cmd.DoUpdate? ==> r'.history == Some(PlannedTip(w, cmd.plan, cmd.start)))
      && (o.Finished? && cmd.DoContinue? ==>
            && InProgress(r) && r'.history == Some(PlannedTip(w, Total(r.saved.value, r.gitOp.value),
              r.saved.value.start))
            && (Total(r.saved.value, r.gitOp.value) == r.saved.value.plan
              <==> !WentAstray(history, w, cmds) && !Stray(r)))
  {
    EveryStateResumable(history, w, cmds);
    IntactUnlessAstray(history, w, cmds);
    var r := DoAll(Repo(history, None, None), w, cmds);
    match cmd
    case DoContinue(res, dirty) =>
      if InProgress(r) && res.Resolved? {
        ContinueRefines(r, w, res, dirty);
        TotalIsPlan(w, r.saved.value, r.gitOp.value);
      } else {
        ContinueRefuses(r, w, res, dirty);
      }
    case DoUpdate(plan, start, dirty) => UpdateRefines(r, w, plan, start, dirty);
    case _ =>
  }

  lemma {:induction false} BlockedStops(w: World, steps: seq<Step>, tip: Sha, i: nat)
    requires i < |steps| && !steps[i].MarkerStep?
    ensures RunSteps(Blocked(w), steps, tip).stop.Some?
    decreases |steps|
  {
    if i > 0 && w.attempt(steps[0], tip).Clean? && steps[0].MarkerStep? {
      BlockedStops(w, steps[1..], w.attempt(steps[0], tip).tip, i - 1);
    }
  }

  /** With some operation of git's in progress, no plan that needs a checkout gets to its end. */
  lemma OperationBlocksUpdate(r: Repo, w: World, plan: seq<Step>, start: Sha, dirty: bool, i: nat)
    requires r.gitOp.Some? && i < |plan| && !plan[i].MarkerStep?
    ensures var (r', o) := Update(r, w, plan, start, dirty); r'.history == r.history && !o.Finished?
  {
    BlockedStops(w, plan, start, i);
  }

  /** With a dirty checkout no command moves a ref that is there, nor forgets a run but by aborting it. */
  lemma DirtyMovesNothing(r: Repo, w: World, plan: seq<Step>, start: Sha, res: Resolution)
    ensures r.saved.Some? ==>
      Continue(r, w, res, true).0.history == r.history && Continue(r, w, res, true).0.saved.Some?
    ensures r.history.Some? ==> Update(r, w, plan, start, true).0.history == r.history
    ensures !Continue(r, w, res, true).1.Finished? && (r.history.Some? ==> !Update(r, w, plan, start, true).1.Finished?)
  {
  }

  /** A world whose tips count the steps applied: the first conflicts, the second breaks where it is first tried. */
  const COUNTING := World(
    (step: Step, tip: Sha) =>
      if step == CommitStep(1) then Conflict(CherryPick)
      else if tip == 1 then Broken(Some(CherryPick))
      else Clean(tip + 1),
    (step: Step, tip: Sha) => tip + 1, (tip: Sha, base: Sha) => true, None)

  /** A run that goes astray: of two planned steps the second is applied twice, and the ref ends off the planned tip. */
  lemma StepAppliedTwice()
    ensures var plan := [CommitStep(1), CommitStep(2)];
      var cmds := [DoUpdate(plan, 0, false), DoContinue(Resolved, false)];
      var r := DoAll(Repo(None, None, None), COUNTING, cmds);
      && Plausible(COUNTING) && Stray(r)
      && Total(r.saved.value, r.gitOp.value) == [CommitStep(1), CommitStep(2), CommitStep(2)]
      && Continue(r, COUNTING, Resolved, false).1 == Finished(3)
      && PlannedTip(COUNTING, plan, 0) == 2
  {
    var w, one, two := COUNTING, CommitStep(1), CommitStep(2);
    var r0 := Repo(None, None, None);
    var cmds := [DoUpdate([one, two], 0, false), DoContinue(Resolved, false)];
    var s := Saved([one, two], 0, None, Pending(CherryPick, one), [one, two], 0, []);
    assert cmds[..1] == [cmds[0]] && DoAll(r0, w, cmds[..1][..0]) == r0;
    assert RunSteps(w, [one, two], 0) == Ran(0, [one, two], Some(Conflict(CherryPick)));
    assert [] + [one, two][..0] == [];
    assert Do(r0, w, cmds[0]).0 == Stopping(r0, s);
    assert DoAll(r0, w, cmds[..1]) == Stopping(r0, s);
    assert RunSteps(w, [two], 1) == Ran(1, [two], Some(Broken(Some(CherryPick))));
    assert [] + [one] + [] == [one];
    var op := GitOp(CherryPick, two, 1, [one]);
    assert Drop([one, two]) == [two];
    assert DoAll(r0, w, cmds) == Stopping(r0, s).(gitOp := Some(op));
    assert RunSteps(w, [two], 2) == Ran(3, [], None);
    assert [one, two][..1] == [one];
    ApplyOne(w, one, 0);
    ApplyAppend(w, [one], [two], 0);
    ApplyOne(w, two, 1);
    assert [one] + [two] == [one, two];
  }

  // ---------------------------------------------------- the uninterrupted run

  lemma {:induction false} SmoothSteps(w: World, steps: seq<Step>, tip: Sha)
    ensures RunSteps(Smooth(w), steps, tip) == Ran(ApplyPlan(w, steps, tip), [], None)
    decreases |steps|
  {
    if steps != [] {
      SmoothSteps(w, steps[1..], Effect(w, steps[0], tip));
      ApplyOne(w, steps[0], tip);
      ApplyAppend(w, [steps[0]], steps[1..], tip);
      assert [steps[0]] + steps[1..] == steps;
    }
  }

  /** Where nothing conflicts, one update goes straight to the planned tip. */
  lemma UninterruptedRun(r: Repo, w: World, plan: seq<Step>, start: Sha)
    requires r.saved == None && r.gitOp == None
    ensures Update(r, Smooth(w), plan, start, false) == (r.(history := Some(PlannedTip(w, plan, start))),
          Finished(PlannedTip(w, plan, start)))
  {
    SmoothSteps(w, plan, start);
  }

  // -------------------------------------------------------------- completion

  /** Resolving every conflict and continuing, `n` times. */
  function ContinueTimes(r: Repo, w: World, n: nat): Repo {
    if n == 0 then r else Continue(ContinueTimes(r, w, n - 1), w, Resolved, false).0
  }

  ghost predicate NeverBroken(w: World) {
    forall step: Step, tip: Sha :: !w.attempt(step, tip).Broken?
  }

  /** A continue with its conflict resolved finishes the run or leaves a shorter rest. */
  lemma ContinueProgresses(r: Repo, w: World)
    requires Plausible(w) && NeverBroken(w) && RepoOk(w, r) && InProgress(r) && !Stray(r) && Intact(r.saved.value)
    requires r.saved.value.originalSha.Some? ==> r.history == r.saved.value.originalSha
    ensures var (r', o) := Continue(r, w, Resolved, false); var s := r.saved.value;
      || (o.Finished? && r'.saved == None && r'.history == Some(PlannedTip(w, s.plan, s.start)))
      || (o.Stopped? && r'.saved.Some? && |r'.saved.value.remaining| < |s.remaining|
          && InProgress(r') && !Stray(r') && Intact(r'.saved.value) && r'.history == r.history)
  {
    var s := r.saved.value;
    ContinueRefines(r, w, Resolved, false);
    TotalIsPlan(w, s, r.gitOp.value);
    if s.remaining == [] {
      FoldedOnce(w, s, s.applied + [s.pending.step]);
    } else {
      RunStepsSplits(w, Drop(s.remaining), w.resolved(s.pending.step, s.tip));
    }
  }

  /**
   Resume refinement: whatever the pattern of conflicts, resolving each and
   continuing finishes within one continue per planned step plus one for base,
   at the uninterrupted run's tip.
   */
  lemma {:induction false} ContinuesFinish(r: Repo, w: World, n: nat) returns (k: nat)
    requires Plausible(w) && NeverBroken(w) && RepoOk(w, r) && InProgress(r) && !Stray(r)
    requires Intact(r.saved.value) && |r.saved.value.remaining| <= n
    requires r.saved.value.originalSha.Some? ==> r.history == r.saved.value.originalSha
    ensures k <= n + 1
    ensures ContinueTimes(r, w, k).saved == None
    ensures ContinueTimes(r, w, k).history == Some(PlannedTip(w, r.saved.value.plan, r.saved.value.start))
    decreases n
  {
    ContinueProgresses(r, w);
    ContinueRefines(r, w, Resolved, false);
    var (r', o) := Continue(r, w, Resolved, false);
    if o.Finished? {
      k := 1;
      assert ContinueTimes(r, w, 0) == r;
    } else {
      var j := ContinuesFinish(r', w, n - 1);
      ContinueFirst(r, w, j);
      k := j + 1;
    }
  }

  lemma {:induction false} ContinueFirst(r: Repo, w: World, n: nat)
    ensures ContinueTimes(Continue(r, w, Resolved, false).0, w, n) == ContinueTimes(r, w, n + 1)
  {
    if n == 0 {
      assert ContinueTimes(r, w, 0) == r;
    } else {
      ContinueFirst(r, w, n - 1);
    }
  }
}
