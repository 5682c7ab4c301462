/**
 save-decision/hook.py: reading a multi-select answer back into its labels.
 */
module LabelParser {
  import opened Options

  const SEPARATOR := ", "

  predicate StartsWith(s: string, prefix: string) {
    prefix <= s
  }

  /** A label the loop would consume now; empty labels are skipped. */
  predicate Matches(item: string, remaining: string) {
    item != "" && (remaining == item || StartsWith(remaining, item + SEPARATOR))
  }

  /** The first matching label's position, or the length if none matches. */
  function FirstMatch(available: seq<string>, remaining: string): (i: nat)
    ensures i <= |available|
    ensures i < |available| ==> Matches(available[i], remaining)
    ensures forall j :: 0 <= j < i ==> !Matches(available[j], remaining)
  {
    if available == [] then 0
    else if Matches(available[0], remaining) then 0
    else 1 + FirstMatch(available[1..], remaining)
  }

  function After(remaining: string, item: string): string
    requires |item| <= |remaining|
  {
    var rest := remaining[|item|..];
    if StartsWith(rest, SEPARATOR) then rest[|SEPARATOR|..] else rest
  }

  function Remove(xs: seq<string>, i: nat): seq<string>
    requires i < |xs|
  {
    xs[..i] + xs[i + 1..]
  }

  datatype Parsed = Parsed(clicks: seq<string>, leftover: string)

  /** One pass of the outer loop after the other. */
  function Greedy(available: seq<string>, remaining: string): Parsed
    decreases |available|
  {
    var i := FirstMatch(available, remaining);
    if remaining == "" || i == |available| then Parsed([], remaining)
    else
      var rest := Greedy(Remove(available, i), After(remaining, available[i]));
      Parsed([available[i]] + rest.clicks, rest.leftover)
  }

  /** `list.remove`: drops the first equal element. */
  method RemoveFirst(xs: seq<string>, x: string, ghost at: nat) returns (r: seq<string>)
    requires at < |xs| && xs[at] == x && forall j :: 0 <= j < at ==> xs[j] != x
    ensures r == Remove(xs, at)
  {
    var i := 0;
    while xs[i] != x
      invariant i <= at
      decreases at - i
    {
      i := i + 1;
    }
    r := xs[..i] + xs[i + 1..];
  }

  /** The labels clicked so far and what is still to be parsed make up the whole result. */
  predicate Continues(
      labels: seq<string>, answer: string, clicks: seq<string>, available: seq<string>, remaining: string)
  {
    var rest := Greedy(available, remaining);
    Greedy(labels, answer) == Parsed(clicks + rest.clicks, rest.leftover)
  }

  method GreedyMatch(answer: string, labels: seq<string>) returns (clickOrder: seq<string>, remaining: string)
    ensures Parsed(clickOrder, remaining) == Greedy(labels, answer)
  {
    var available := labels;
    clickOrder, remaining := [], answer;
    while remaining != ""
      invariant Continues(labels, answer, clickOrder, available, remaining)
      decreases |available|
    {
      var matched := false;
      ghost var i := FirstMatch(available, remaining);
      ghost var before, text := available, remaining;
      var j := 0;
      while j < |available| && !matched
        invariant j <= |available|
        invariant !matched ==> available == before && remaining == text && j <= i
        invariant matched ==> i < |before| && available == Remove(before, i) && remaining == After(text, before[i])
        invariant Continues(labels, answer, clickOrder, available, remaining)
        decreases |before| - j, if matched then 0 else 1
      {
        var item := available[j];
        if Matches(item, remaining) {
          assert i == j;
          NoEqualBefore(available, i, remaining);
          GreedyUnfolds(available, remaining, clickOrder);
          clickOrder := clickOrder + [item];
          available := RemoveFirst(available, item, i);
          remaining := remaining[|item|..];
          if StartsWith(remaining, SEPARATOR) {
            remaining := remaining[|SEPARATOR|..];
          }
          matched := true;
        } else {
          j := j + 1;
        }
      }
      if !matched { break; }
    }
    assert clickOrder + Greedy(available, remaining).clicks == clickOrder by {
      assert Greedy(available, remaining).clicks == [];
    }
  }

  lemma NoEqualBefore(available: seq<string>, i: nat, remaining: string)
    requires i == FirstMatch(available, remaining) && i < |available|
    ensures forall j :: 0 <= j < i ==> available[j] != available[i]
  {
  }

  lemma GreedyUnfolds(available: seq<string>, remaining: string, clicks: seq<string>)
    requires remaining != "" && FirstMatch(available, remaining) < |available|
    ensures var i := FirstMatch(available, remaining); var rest := Greedy(Remove(available, i),
          After(remaining, available[i]));
      && Greedy(available, remaining).leftover == rest.leftover
      && clicks + Greedy(available, remaining).clicks == clicks + [available[i]] + rest.clicks
  {
    var i := FirstMatch(available, remaining);
    ClicksAppend(clicks, available[i], Greedy(Remove(available, i), After(remaining, available[i])).clicks);
  }

  lemma ClicksAppend(a: seq<string>, x: string, b: seq<string>)
    ensures a + ([x] + b) == a + [x] + b
  {
  }

  // ------------------------------------------------------------ what it keeps

  /** Each label followed by the separator. */
  function Terminated(labels: seq<string>): string {
    if labels == [] then "" else labels[0] + SEPARATOR + Terminated(labels[1..])
  }

  /** `", ".join(labels)`. */
  function Join(labels: seq<string>): string {
    if labels == [] then "" else if |labels| == 1 then labels[0] else labels[0] + SEPARATOR + Join(labels[1..])
  }

  /** A matched label was the whole rest, or is followed by a separator that is consumed with it. */
  lemma AfterMatch(remaining: string, item: string)
    requires Matches(item, remaining)
    ensures remaining == item ==> After(remaining, item) == ""
    ensures remaining != item ==> remaining == item + SEPARATOR + After(remaining, item)
  {
    if remaining == item {
      assert remaining[|item|..] == "";
    } else {
      assert remaining[|item|..][..2] == SEPARATOR by {
        assert (item + SEPARATOR)[|item|..] == SEPARATOR;
        assert remaining[..|item| + 2] == item + SEPARATOR;
        assert remaining[..|item| + 2][|item|..] == remaining[|item|..][..2];
      }
      assert remaining == remaining[..|item|] + remaining[|item|..][..2] + remaining[|item|..][2..];
      assert remaining[..|item|] == (item + SEPARATOR)[..|item|] == item;
    }
  }

  lemma OneMoreLabel(item: string, clicks: seq<string>, leftover: string)
    ensures Terminated([item] + clicks) + leftover == item + SEPARATOR + (Terminated(clicks) + leftover)
    ensures clicks != [] ==> Join([item] + clicks) == item + SEPARATOR + Join(clicks)
  {
    assert ([item] + clicks)[1..] == clicks;
    assert item + SEPARATOR + (Terminated(clicks) + leftover) == item + SEPARATOR + Terminated(clicks) + leftover;
  }

  /** The labels and the leftover recompose the answer; no character is lost. */
  lemma {:induction false} Recomposes(available: seq<string>, answer: string)
    ensures var p := Greedy(available, answer);
      || answer == Terminated(p.clicks) + p.leftover
      || (p.clicks != [] && p.leftover == "" && answer == Join(p.clicks))
    decreases |available|
  {
    var i := FirstMatch(available, answer);
    if answer != "" && i < |available| {
      var item, rest := available[i], After(answer, available[i]);
      var p := Greedy(Remove(available, i), rest);
      AfterMatch(answer, item);
      Recomposes(Remove(available, i), rest);
      if answer == item {
        assert p == Parsed([], "");
        assert [item] + p.clicks == [item];
      } else {
        OneMoreLabel(item, p.clicks, p.leftover);
      }
    }
  }

  /** No label is used more often than it was offered, and parsing stops only when nothing matches. */
  lemma {:induction false} UsesEachOnce(available: seq<string>, answer: string)
    ensures var p := Greedy(available, answer);
      && multiset(p.clicks) <= multiset(available)
      && (p.leftover != "" ==> forall l :: l in multiset(available) - multiset(p.clicks) ==> !Matches(l, p.leftover))
    decreases |available|
  {
    var i := FirstMatch(available, answer);
    if answer == "" || i == |available| {
      forall l | l in multiset(available) ensures i == |available| ==> !Matches(l, answer) { assert l in available; }
      assert multiset(available) - multiset([]) == multiset(available);
    } else {
      var rest := Remove(available, i);
      UsesEachOnce(rest, After(answer, available[i]));
      var p := Greedy(rest, After(answer, available[i]));
      TakenOut(available, i, p.clicks);
    }
  }

  /** Clicking one label and removing it from the offered ones leaves the same labels over. */
  lemma TakenOut(available: seq<string>, i: nat, clicks: seq<string>)
    requires i < |available| && multiset(clicks) <= multiset(Remove(available, i))
    ensures multiset([available[i]] + clicks) <= multiset(available)
    ensures multiset(available) - multiset([available[i]] + clicks) == multiset(Remove(available, i)) - multiset(clicks)
  {
    var x, a, b := available[i], available[..i], available[i + 1..];
    assert available == a + [x] + b;
    assert multiset(available) == multiset(Remove(available, i)) + multiset{x};
    assert multiset([x] + clicks) == multiset{x} + multiset(clicks);
  }

  // --------------------------------------------------------------- round trip

  predicate Distinct(xs: seq<string>) {
    forall i, j :: 0 <= i < j < |xs| ==> xs[i] != xs[j]
  }

  /** No label is another one followed by a separator and more. */
  predicate Separable(labels: seq<string>) {
    forall i, j :: 0 <= i < |labels| && 0 <= j < |labels| && i != j ==> !StartsWith(labels[i], labels[j] + SEPARATOR)
  }

  /** What stands behind the first label of a joined selection. */
  lemma JoinedHead(sel: seq<string>)
    requires sel != []
    ensures |sel| == 1 ==> Join(sel) == sel[0]
    ensures |sel| > 1 ==> Join(sel) == sel[0] + SEPARATOR + Join(sel[1..])
    ensures |sel| > 1 ==> StartsWith(Join(sel), sel[0] + SEPARATOR)
    ensures sel[0] != "" ==> Matches(sel[0], Join(sel))
  {
  }

  /** Only the head of a joined selection matches it, if labels are separable from it. */
  lemma OnlyHeadMatches(sel: seq<string>, item: string)
    requires sel != [] && Matches(item, Join(sel)) && sel[0] != ""
    requires !StartsWith(item, sel[0] + SEPARATOR) && !StartsWith(sel[0], item + SEPARATOR)
    ensures item == sel[0]
  {
    var text, head := Join(sel), sel[0];
    JoinedHead(sel);
    assert text[..|head|] == head;
    assert |sel| > 1 ==> text[|head|] == ',' && text[|head| + 1] == ' ';
    if text != item {
      assert text[..|item| + 2] == item + SEPARATOR;
      assert text[|item|] == ',' && text[|item| + 1] == ' ';
      if |item| < |head| {
        LongerStartsWith(text, head, item);
      } else if |item| > |head| {
        LongerStartsWith(text, item, head);
      }
    }
  }

  /** Of two prefixes of a text, one followed there by the separator, the longer starts with the shorter and it. */
  lemma LongerStartsWith(text: string, long: string, short: string)
    requires StartsWith(text, long) && StartsWith(text, short) && |short| < |long|
    requires |short| + 1 < |text| && text[|short|] == ',' && text[|short| + 1] == ' '
    requires |long| < |text| ==> text[|long|] == ','
    ensures StartsWith(long, short + SEPARATOR)
  {
    assert text[..|long|] == long && text[..|short|] == short;
    assert |long| != |short| + 1;
    assert forall k :: 0 <= k < |short| ==> long[k] == text[k] && short[k] == text[k];
  }

  lemma JoinTail(sel: seq<string>)
    requires sel != [] && sel[0] != ""
    ensures After(Join(sel), sel[0]) == Join(sel[1..])
  {
    JoinedHead(sel);
    AfterMatch(Join(sel), sel[0]);
    if |sel| > 1 {
      var rest := Join(sel)[|sel[0]|..];
      assert rest == SEPARATOR + Join(sel[1..]);
      assert StartsWith(rest, SEPARATOR) by { assert rest[..2] == SEPARATOR; }
      assert rest[2..] == Join(sel[1..]);
    } else {
      assert Join(sel[1..]) == "";
    }
  }

  lemma RemoveKeeps(xs: seq<string>, i: nat)
    requires i < |xs|
    ensures Distinct(xs) ==> Distinct(Remove(xs, i))
    ensures Separable(xs) ==> Separable(Remove(xs, i))
    ensures forall x :: x in Remove(xs, i) ==> x in xs
    ensures forall x :: x in xs && x != xs[i] ==> x in Remove(xs, i)
  {
    var r := Remove(xs, i);
    forall k | 0 <= k < |r| ensures r[k] == xs[if k < i then k else k + 1] {}
    forall x | x in xs && x != xs[i] ensures x in r {
      var k :| 0 <= k < |xs| && xs[k] == x;
      assert r[if k < i then k else k - 1] == x;
    }
  }

  /**
   Print, then parse: joining any ordered selection of distinct non-empty
   labels and matching greedily gives that selection back with no leftover,
   when no label starts with another one followed by the separator.
   */
  lemma {:induction false} RoundTrip(labels: seq<string>, sel: seq<string>)
    requires Distinct(labels) && Separable(labels) && Distinct(sel)
    requires forall l :: l in sel ==> l in labels && l != ""
    ensures Greedy(labels, Join(sel)) == Parsed(sel, "")
    decreases |sel|
  {
    if sel != [] {
      var text, head := Join(sel), sel[0];
      assert head in sel;
      JoinedHead(sel);
      var at :| 0 <= at < |labels| && labels[at] == head;
      var i := FirstMatch(labels, text);
      assert i <= at;
      if i != at {
        assert !StartsWith(labels[i], labels[at] + SEPARATOR) && !StartsWith(labels[at], labels[i] + SEPARATOR);
        OnlyHeadMatches(sel, labels[i]);
      }
      RemoveKeeps(labels, i);
      RestSelects(labels, sel, i);
      RoundTrip(Remove(labels, i), sel[1..]);
      JoinTail(sel);
      assert [head] + sel[1..] == sel;
    }
  }

  /** The rest of a selection selects from the labels that are left. */
  lemma RestSelects(labels: seq<string>, sel: seq<string>, i: nat)
    requires sel != [] && i < |labels| && labels[i] == sel[0] && Distinct(sel)
    requires forall l :: l in sel ==> l in labels && l != ""
    ensures Distinct(sel[1..]) && forall l :: l in sel[1..] ==> l in Remove(labels, i) && l != ""
  {
    RemoveKeeps(labels, i);
    forall l | l in sel[1..] ensures l in Remove(labels, i) && l != "" {
      var k :| 0 <= k < |sel[1..]| && sel[1..][k] == l;
      assert sel[k + 1] == l && l in sel;
    }
  }

  /** For a single label the condition is exact: it is read back iff no label listed before it claims its start. */
  lemma SingleIff(labels: seq<string>, at: nat)
    requires at < |labels| && Distinct(labels) && labels[at] != ""
    ensures Greedy(labels, labels[at]) == Parsed([labels[at]], "")
       <==> forall j :: 0 <= j < at && labels[j] != "" ==> !StartsWith(labels[at], labels[j] + SEPARATOR)
  {
    var item := labels[at];
    var i := FirstMatch(labels, item);
    assert Matches(item, item);
    assert i <= at;
    if i == at {
      AfterMatch(item, item);
      assert Greedy(Remove(labels, i), "") == Parsed([], "");
      assert [item] + [] == [item];
      forall j | 0 <= j < at && labels[j] != "" ensures !StartsWith(item, labels[j] + SEPARATOR) {
        assert !Matches(labels[j], item);
      }
    } else {
      assert Greedy(labels, item).clicks[0] == labels[i] != item;
      assert StartsWith(item, labels[i] + SEPARATOR);
    }
  }
}
