/**
 merge_staged.py: applying the diff from base to staged onto a new head.

 `difflib` is not modelled: any opcode list that tiles both texts is a possible
 diff.  List slices clamp the way Python's do.
 */
module MergeStaged {

  type Lines = seq<string>

  datatype Tag = Equal | Insert | Delete | Replace

  datatype Opcode = Opcode(tag: Tag, i1: nat, i2: nat, j1: nat, j2: nat)

  predicate OpOk(op: Opcode, base: Lines, staged: Lines) {
    && op.i1 <= op.i2 <= |base| && op.j1 <= op.j2 <= |staged|
    && match op.tag
       case Equal => op.i1 < op.i2 && base[op.i1..op.i2] == staged[op.j1..op.j2]
       case Insert => op.i1 == op.i2 && op.j1 < op.j2
       case Delete => op.i1 < op.i2 && op.j1 == op.j2
       case Replace => op.i1 < op.i2 && op.j1 < op.j2
  }

  function EndI(ops: seq<Opcode>): nat {
    if ops == [] then 0 else ops[|ops| - 1].i2
  }

  function EndJ(ops: seq<Opcode>): nat {
    if ops == [] then 0 else ops[|ops| - 1].j2
  }

  /** The opcodes tile both texts from their starts. */
  predicate Tiles(ops: seq<Opcode>, base: Lines, staged: Lines) {
    ops == [] ||
      var n := |ops| - 1;
      && Tiles(ops[..n], base, staged)
      && OpOk(ops[n], base, staged)
      && ops[n].i1 == EndI(ops[..n]) && ops[n].j1 == EndJ(ops[..n])
  }

  /** A whole diff from base to staged. */
  predicate IsDiff(ops: seq<Opcode>, base: Lines, staged: Lines) {
    Tiles(ops, base, staged) && EndI(ops) == |base| && EndJ(ops) == |staged|
  }

  // ------------------------------------------------------------- the loop

  /** A Python slice bound on a list of length `n`. */
  function Bound(k: int, n: nat): (r: nat)
    ensures r <= n
  {
    if k < 0 then (if k + n < 0 then 0 else k + n) else if k > n then n else k
  }

  /** `xs[from:to] = ys`; an inverted slice is empty at its start. */
  function Splice(xs: Lines, from: int, to: int, ys: Lines): Lines {
    var a, b := Bound(from, |xs|), Bound(to, |xs|);
    var b := if b < a then a else b;
    xs[..a] + ys + xs[b..]
  }

  datatype Patch = Patch(result: Lines, offset: int)

  function ApplyOp(p: Patch, op: Opcode, base: Lines, staged: Lines): Patch
    requires op.j1 <= op.j2 <= |staged|
  {
    if op.tag == Equal then p else
      var atEnd := op.i1 >= |base|;
      var pos := if atEnd then |p.result| else op.i1 + p.offset;
      var endPos := if atEnd then |p.result| else op.i2 + p.offset;
      if op.tag == Insert then Patch(Splice(p.result, pos, pos, staged[op.j1..op.j2]), p.offset + op.j2 - op.j1)
      else if op.tag == Delete then Patch(Splice(p.result, pos, endPos, []), p.offset - (op.i2 - op.i1))
      else Patch(Splice(p.result, pos, endPos, staged[op.j1..op.j2]), p.offset + (op.j2 - op.j1) - (op.i2 - op.i1))
  }

  predicate InRange(ops: seq<Opcode>, staged: Lines) {
    forall i :: 0 <= i < |ops| ==> ops[i].j1 <= ops[i].j2 <= |staged|
  }

  function ApplyOps(ops: seq<Opcode>, base: Lines, staged: Lines, newHead: Lines): Patch
    requires InRange(ops, staged)
  {
    if ops == [] then Patch(newHead, 0)
    else ApplyOp(ApplyOps(ops[..|ops| - 1], base, staged, newHead), ops[|ops| - 1], base, staged)
  }

  method Merge(base: Lines, staged: Lines, newHead: Lines, ops: seq<Opcode>) returns (result: Lines)
    requires InRange(ops, staged)
    ensures result == ApplyOps(ops, base, staged, newHead).result
  {
    result := newHead;
    var offset := 0;
    for i := 0 to |ops|
      invariant Patch(result, offset) == ApplyOps(ops[..i], base, staged, newHead)
    {
      NextOp(ops, i, base, staged, newHead);
      if ops[i].tag == Equal { continue; }
      result, offset := ApplyChange(result, offset, ops[i], base, staged);
    }
    assert ops[..|ops|] == ops;
  }

  /** The loop's body for an opcode that changes something. */
  method ApplyChange(lines: Lines, shift: int, op: Opcode, base: Lines, staged: Lines)
    returns (result: Lines, offset: int)
    requires op.tag != Equal && op.j1 <= op.j2 <= |staged|
    ensures Patch(result, offset) == ApplyOp(Patch(lines, shift), op, base, staged)
  {
    var pos, endPos := op.i1 + shift, op.i2 + shift;
    if op.i1 >= |base| {
      pos, endPos := |lines|, |lines|;
    }
    if op.tag == Insert {
      result := Splice(lines, pos, pos, staged[op.j1..op.j2]);
      offset := shift + op.j2 - op.j1;
    } else if op.tag == Delete {
      result := Splice(lines, pos, endPos, []);
      offset := shift - (op.i2 - op.i1);
    } else {
      result := Splice(lines, pos, endPos, staged[op.j1..op.j2]);
      offset := shift + (op.j2 - op.j1) - (op.i2 - op.i1);
    }
  }

  lemma NextOp(ops: seq<Opcode>, i: nat, base: Lines, staged: Lines, newHead: Lines)
    requires InRange(ops, staged) && i < |ops|
    ensures ApplyOps(ops[..i + 1], base, staged, newHead)
          == ApplyOp(ApplyOps(ops[..i], base, staged, newHead), ops[i], base, staged)
  {
    assert ops[..i + 1][..i] == ops[..i];
  }

  // -------------------------------------------------------- what it amounts to

  /** A Python slice: what of the range the list has. */
  function Part(xs: Lines, from: nat, to: nat): Lines
    requires from <= to
  {
    xs[Bound(from, |xs|)..Bound(to, |xs|)]
  }

  /** Equal ranges taken from the head as far as it has them, all other ranges before the end of base from staged. */
  function Woven(ops: seq<Opcode>, base: Lines, staged: Lines, head: Lines): Lines
    requires Tiles(ops, base, staged)
  {
    if ops == [] then [] else
      var n := |ops| - 1;
      var rest := Woven(ops[..n], base, staged, head);
      if ops[n].i1 >= |base| then rest
      else rest + if ops[n].tag == Equal then Part(head, ops[n].i1, ops[n].i2) else staged[ops[n].j1..ops[n].j2]
  }

  /** The lines inserted at the end of base. */
  function Trailing(ops: seq<Opcode>, base: Lines, staged: Lines): Lines
    requires Tiles(ops, base, staged)
  {
    if ops == [] then [] else
      var n := |ops| - 1;
      var rest := Trailing(ops[..n], base, staged);
      if ops[n].i1 >= |base| then rest + staged[ops[n].j1..ops[n].j2] else rest
  }

  lemma {:induction false} TilesInRange(ops: seq<Opcode>, base: Lines, staged: Lines)
    requires Tiles(ops, base, staged)
    ensures InRange(ops, staged)
  {
    if ops != [] { TilesInRange(ops[..|ops| - 1], base, staged); }
  }

  /**
   Before the end of base is reached, nothing trails, and the woven part is as
   long as staged's, or shorter once head has come to an end.
   */
  lemma {:induction false} WovenLength(ops: seq<Opcode>, base: Lines, staged: Lines, head: Lines)
    requires Tiles(ops, base, staged)
    ensures EndI(ops) <= |base| && EndJ(ops) <= |staged|
    ensures EndI(ops) < |base| ==> Trailing(ops, base, staged) == []
    ensures |Woven(ops, base, staged, head)| + |Trailing(ops, base, staged)| <= EndJ(ops)
    ensures EndI(ops) <= |head| ==> |Woven(ops, base, staged, head)| + |Trailing(ops, base, staged)| == EndJ(ops)
  {
    if ops != [] { WovenLength(ops[..|ops| - 1], base, staged, head); }
  }

  /** Splicing behind a prefix replaces the start of what follows it, all of it if the slice reaches further. */
  lemma SpliceBehind(w: Lines, x: Lines, y: Lines, to: nat, new_: Lines)
    requires to == |w| + |x| || (to > |w| + |x| && y == [])
    ensures Splice(w + x + y, |w|, to, new_) == w + new_ + y
  {
    var all := w + x + y;
    assert all[..|w|] == w;
    assert all[|w| + |x|..] == y;
  }

  /** Splicing from behind the end appends. */
  lemma SplicePast(w: Lines, from: nat, to: nat, new_: Lines)
    requires |w| <= from <= to
    ensures Splice(w, from, to, new_) == w + new_
  {
    assert w[..|w|] == w && w[|w|..] == [];
    assert w + new_ + [] == w + new_;
  }

  /** What an opcode before the end of base puts in. */
  function Put(op: Opcode, staged: Lines, head: Lines): Lines
    requires op.i1 <= op.i2 && op.j1 <= op.j2 <= |staged|
  {
    if op.tag == Equal then Part(head, op.i1, op.i2) else staged[op.j1..op.j2]
  }

  /** One opcode before the end of base, starting where head still has lines or just ends. */
  lemma InnerOp(p: Patch, w: Lines, head: Lines, op: Opcode, base: Lines, staged: Lines)
    requires OpOk(op, base, staged) && op.i1 < |base| && op.i1 <= |head|
    requires p == Patch(w + head[op.i1..], op.j1 - op.i1) && |w| == op.j1
    ensures ApplyOp(p, op, base, staged)
         == Patch(w + Put(op, staged, head) + head[Bound(op.i2, |head|)..], op.j2 - op.i2)
  {
    var x, y := Part(head, op.i1, op.i2), head[Bound(op.i2, |head|)..];
    var to := op.i2 + p.offset;
    assert head[op.i1..] == x + y;
    assert w + (x + y) == w + x + y;
    match op.tag
    case Equal =>
    case Insert =>
      assert x == [];
      SpliceBehind(w, x, y, to, staged[op.j1..op.j2]);
    case Delete =>
      SpliceBehind(w, x, y, to, []);
      assert staged[op.j1..op.j2] == [];
    case Replace => SpliceBehind(w, x, y, to, staged[op.j1..op.j2]);
  }

  /** One opcode before the end of base, but past the end of head: it can only append. */
  lemma OuterOp(w: Lines, head: Lines, op: Opcode, base: Lines, staged: Lines)
    requires OpOk(op, base, staged) && |head| < op.i1 < |base| && |w| <= op.j1
    ensures ApplyOp(Patch(w, op.j1 - op.i1), op, base, staged) == Patch(w + Put(op, staged, head), op.j2 - op.i2)
  {
    var p := Patch(w, op.j1 - op.i1);
    match op.tag
    case Equal => assert w + [] == w;
    case Insert => SplicePast(w, op.j1, op.j1, staged[op.j1..op.j2]);
    case Delete =>
      SplicePast(w, op.j1, op.i2 + p.offset, []);
      assert staged[op.j1..op.j2] == [];
    case Replace => SplicePast(w, op.j1, op.i2 + p.offset, staged[op.j1..op.j2]);
  }

  /** Either way it puts its lines behind what is woven so far. */
  lemma InsideOp(p: Patch, w: Lines, head: Lines, op: Opcode, base: Lines, staged: Lines)
    requires OpOk(op, base, staged) && op.i1 < |base|
    requires p == Patch(w + head[Bound(op.i1, |head|)..], op.j1 - op.i1)
    requires |w| <= op.j1 && (op.i1 <= |head| ==> |w| == op.j1)
    ensures ApplyOp(p, op, base, staged)
         == Patch(w + Put(op, staged, head) + head[Bound(op.i2, |head|)..], op.j2 - op.i2)
  {
    if op.i1 <= |head| {
      InnerOp(p, w, head, op, base, staged);
    } else {
      assert w + [] == w;
      OuterOp(w, head, op, base, staged);
      assert w + Put(op, staged, head) + [] == w + Put(op, staged, head);
    }
  }

  lemma EndOp(p: Patch, op: Opcode, base: Lines, staged: Lines)
    requires OpOk(op, base, staged) && op.i1 >= |base|
    ensures ApplyOp(p, op, base, staged).result == p.result + staged[op.j1..op.j2]
  {
    assert p.result[..|p.result|] == p.result;
    assert p.result[|p.result|..] == [];
    assert p.result + staged[op.j1..op.j2] + [] == p.result + staged[op.j1..op.j2];
  }

  /**
   The merge, for every head: head's own lines where the diff says equal, then
   all that head has beyond base, then what the diff inserts at the end of base.
   */
  lemma {:induction false} MergeIs(ops: seq<Opcode>, base: Lines, staged: Lines, head: Lines)
    requires Tiles(ops, base, staged)
    ensures InRange(ops, staged) && EndI(ops) <= |base|
    ensures var p := ApplyOps(ops, base, staged, head);
      && p.result == Woven(ops, base, staged, head) + head[Bound(EndI(ops), |head|)..] + Trailing(ops, base, staged)
      && (EndI(ops) < |base| ==> p.offset == EndJ(ops) - EndI(ops))
  {
    TilesInRange(ops, base, staged);
    WovenLength(ops, base, staged, head);
    if ops != [] {
      var n := |ops| - 1;
      var init, op := ops[..n], ops[n];
      MergeIs(init, base, staged, head);
      WovenLength(init, base, staged, head);
      var w, p := Woven(init, base, staged, head), ApplyOps(init, base, staged, head);
      if op.i1 < |base| {
        assert w + head[Bound(op.i1, |head|)..] + [] == w + head[Bound(op.i1, |head|)..];
        InsideOp(p, w, head, op, base, staged);
        assert p.result + [] == p.result;
      } else {
        EndOp(p, op, base, staged);
        MergeEnds(w, head[Bound(op.i1, |head|)..], Trailing(init, base, staged), staged[op.j1..op.j2]);
      }
    }
  }

  lemma MergeEnds(w: Lines, rest: Lines, tail: Lines, more: Lines)
    ensures w + rest + tail + more == w + rest + (tail + more)
  {
  }

  // --------------------------------------------------------------- corollaries

  /** Where the diff's insertion at the end of base starts in staged; its length if there is none. */
  function TailStart(ops: seq<Opcode>, base: Lines, staged: Lines): (k: nat)
    requires Tiles(ops, base, staged)
  {
    if ops == [] then 0 else
      var n := |ops| - 1;
      if ops[n].i1 < |base| then ops[n].j2 else TailStart(ops[..n], base, staged)
  }

  lemma SliceOfPrefix(xs: Lines, n: nat, i: nat, j: nat)
    requires i <= j <= n <= |xs|
    ensures xs[i..j] == xs[..n][i..j]
  {
  }

  /** One more opcode before the end of base continues staged. */
  lemma WovenOnward(op: Opcode, base: Lines, staged: Lines, head: Lines)
    requires OpOk(op, base, staged) && |head| >= |base| && head[..|base|] == base
    ensures staged[..op.j1] + Put(op, staged, head) == staged[..op.j2]
  {
    if op.tag == Equal { SliceOfPrefix(head, |base|, op.i1, op.i2); }
    assert staged[..op.j1] + staged[op.j1..op.j2] == staged[..op.j2];
  }

  lemma SliceOnward(xs: Lines, k: nat, i: nat, j: nat)
    requires k <= i <= j <= |xs|
    ensures xs[k..i] + xs[i..j] == xs[k..j]
  {
  }

  /** Over base itself, the diff weaves staged. */
  lemma {:induction false} WovenBase(ops: seq<Opcode>, base: Lines, staged: Lines, head: Lines)
    requires Tiles(ops, base, staged) && |head| >= |base| && head[..|base|] == base
    ensures var k := TailStart(ops, base, staged);
      && k <= EndJ(ops) <= |staged|
      && Woven(ops, base, staged, head) == staged[..k]
      && Trailing(ops, base, staged) == staged[k..EndJ(ops)]
  {
    WovenLength(ops, base, staged, head);
    if ops != [] {
      var n := |ops| - 1;
      var init, op := ops[..n], ops[n];
      WovenBase(init, base, staged, head);
      if op.i1 < |base| {
        WovenLength(init, base, staged, head);
        WovenOnward(op, base, staged, head);
      } else {
        SliceOnward(staged, TailStart(init, base, staged), op.j1, op.j2);
      }
    }
  }

  /**
   On a head that only appended to base, nothing is lost and nothing moves:
   staged up to its insertion at the end of base, what the head appended, then
   that insertion.
   */
  lemma MergeAppended(ops: seq<Opcode>, base: Lines, staged: Lines, app: Lines)
    requires IsDiff(ops, base, staged)
    ensures InRange(ops, staged)
    ensures var k := TailStart(ops, base, staged);
      k <= |staged| && ApplyOps(ops, base, staged, base + app).result == staged[..k] + app + staged[k..]
  {
    var head := base + app;
    assert head[..|base|] == base && head[|base|..] == app;
    MergeIs(ops, base, staged, head);
    WovenBase(ops, base, staged, head);
  }

  /** The insertion at the end of base is empty exactly when no opcode starts there. */
  lemma {:induction false} TailEmptyIff(ops: seq<Opcode>, base: Lines, staged: Lines)
    requires Tiles(ops, base, staged)
    ensures TailStart(ops, base, staged) <= EndJ(ops)
    ensures TailStart(ops, base, staged) == EndJ(ops) <==> forall i :: 0 <= i < |ops| ==> ops[i].i1 < |base|
  {
    if ops != [] {
      var n := |ops| - 1;
      TailEmptyIff(ops[..n], base, staged);
      forall i | 0 <= i < n ensures ops[..n][i] == ops[i] {}
      if ops[n].i1 < |base| { BeforeEnd(ops, base, staged); }
    }
  }

  lemma {:induction false} BeforeEnd(ops: seq<Opcode>, base: Lines, staged: Lines)
    requires Tiles(ops, base, staged) && ops != [] && ops[|ops| - 1].i1 < |base|
    ensures forall i :: 0 <= i < |ops| ==> ops[i].i1 < |base|
  {
    var n := |ops| - 1;
    if n > 0 {
      assert ops[n - 1].i2 == ops[n].i1;
      assert OpOk(ops[..n][n - 1], base, staged);
      BeforeEnd(ops[..n], base, staged);
      forall i | 0 <= i < n ensures ops[i].i1 < |base| { assert ops[..n][i] == ops[i]; }
    }
  }

  /** A head equal to base becomes staged. */
  lemma MergeOntoBase(ops: seq<Opcode>, base: Lines, staged: Lines)
    requires IsDiff(ops, base, staged)
    ensures InRange(ops, staged) && ApplyOps(ops, base, staged, base).result == staged
  {
    MergeAppended(ops, base, staged, []);
    var k := TailStart(ops, base, staged);
    assert base + [] == base;
    assert staged[..k] + [] + staged[k..] == staged;
  }

  lemma WholeThenRest(xs: Lines, ys: Lines)
    ensures xs[..|xs|] + ys + xs[|xs|..] == xs + ys
  {
    assert xs[..|xs|] == xs && xs[|xs|..] == [];
    assert xs + ys + [] == xs + ys;
  }

  /** A diff that inserts nothing at the end of base leaves the appended lines last. */
  lemma MergeKeepsAppendLast(ops: seq<Opcode>, base: Lines, staged: Lines, app: Lines)
    requires IsDiff(ops, base, staged) && forall i :: 0 <= i < |ops| ==> ops[i].i1 < |base|
    ensures InRange(ops, staged) && ApplyOps(ops, base, staged, base + app).result == staged + app
  {
    MergeAppended(ops, base, staged, app);
    TailEmptyIff(ops, base, staged);
    WholeThenRest(staged, app);
  }
}
