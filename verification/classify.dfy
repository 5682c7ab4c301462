/**
 classify.py: which paths are AI content and how a commit is classified.

 Reading `.ai-ignore` files and `PurePosixPath.full_match` are parameters.
 */
module Classify {
  import opened GitTree
  import opened Commits

  type Parts = seq<string>
  /** The usable lines of the `.ai-ignore` file in one directory; empty when there is none. */
  type IgnoreRules = Parts -> seq<string>
  type FullMatch = (Parts, string) -> bool

  predicate StartsWith(s: string, prefix: string) {
    prefix <= s
  }

  predicate IsNegation(rule: string) {
    StartsWith(rule, "!")
  }

  function PatternOf(rule: string): string {
    if IsNegation(rule) then rule[1..] else rule
  }

  predicate HasAny(s: string, chars: set<char>) {
    exists i :: 0 <= i < |s| && s[i] in chars
  }

  predicate PathMatchesGlob(path: Parts, pattern: string, fullMatch: FullMatch) {
    var p := if StartsWith(pattern, "/") then pattern[1..] else pattern;
    var p := if p != "" && p[|p| - 1] == '/' then p + "**" else p;
    fullMatch(path, p) || (!HasAny(p, {'/'}) && HasAny(p, {'*', '?', '['}) && fullMatch(path, "**/" + p))
  }

  /** The directories whose ignore file is consulted, outermost first, as prefix lengths. */
  function Depths(path: Parts): nat {
    if path == [] then 1 else |path|
  }

  /** Rule `r` of the ignore file at depth `d` matches the path as seen from that directory. */
  predicate RuleMatches(path: Parts, rules: IgnoreRules, fullMatch: FullMatch, d: nat, r: nat)
    requires d <= |path| && r < |rules(path[..d])|
  {
    PathMatchesGlob(path[d..], PatternOf(rules(path[..d])[r]), fullMatch)
  }

  predicate Consulted(path: Parts, rules: IgnoreRules, d: int, r: int) {
    0 <= d < Depths(path) && d <= |path| && 0 <= r < |rules(path[..d])|
  }

  /** Positions in the order the loops visit them. */
  predicate Later(d: int, r: int, d': int, r': int) {
    d' > d || (d' == d && r' > r)
  }

  /** The verdict the last matching rule gives; without a match a path is code. */
  ghost predicate AiByLastMatch(path: Parts, rules: IgnoreRules, fullMatch: FullMatch) {
    exists d, r ::
      && Consulted(path, rules, d, r)
      && RuleMatches(path, rules, fullMatch, d, r)
      && !IsNegation(rules(path[..d])[r])
      && forall d', r' :: Consulted(path, rules, d', r') && Later(d, r, d', r') ==>
        !RuleMatches(path, rules, fullMatch, d', r')
  }

  /** Restriction of the above to the rules visited before position (d, r). */
  ghost predicate AiSoFar(path: Parts, rules: IgnoreRules, fullMatch: FullMatch, dEnd: int, rEnd: int) {
    exists d, r ::
      && Consulted(path, rules, d, r) && Later(d, r, dEnd, rEnd)
      && RuleMatches(path, rules, fullMatch, d, r)
      && !IsNegation(rules(path[..d])[r])
      && forall d', r' :: Consulted(path, rules, d', r') && Later(d, r, d', r') && Later(d', r', dEnd, rEnd)
                   ==> !RuleMatches(path, rules, fullMatch, d', r')
  }

  lemma AiSoFarStep(path: Parts, rules: IgnoreRules, fullMatch: FullMatch, d: int, r: int)
    requires Consulted(path, rules, d, r)
    ensures AiSoFar(path, rules, fullMatch, d, r + 1) <==>
            if RuleMatches(path, rules, fullMatch, d, r) then !IsNegation(rules(path[..d])[r])
              else AiSoFar(path, rules, fullMatch, d, r)
  {
    var m := RuleMatches(path, rules, fullMatch, d, r);
    forall d', r' | Consulted(path, rules, d', r')
      ensures Later(d', r', d, r + 1) <==> Later(d', r', d, r) || (d' == d && r' == r) {}
    if AiSoFar(path, rules, fullMatch, d, r + 1) {
      var d0, r0 :|
        && Consulted(path, rules, d0, r0) && Later(d0, r0, d, r + 1)
        && RuleMatches(path, rules, fullMatch, d0, r0)
        && !IsNegation(rules(path[..d0])[r0])
        && forall d', r' :: Consulted(path, rules, d', r') && Later(d0, r0, d', r') && Later(d', r', d, r + 1)
                     ==> !RuleMatches(path, rules, fullMatch, d', r');
      if Later(d0, r0, d, r) {
        assert Consulted(path, rules, d, r) && Later(d0, r0, d, r) && Later(d, r, d, r + 1);
      }
    }
    if m && !IsNegation(rules(path[..d])[r]) {
      assert Consulted(path, rules, d, r) && Later(d, r, d, r + 1);
    }
  }

  method IsAiBasePath(path: Parts, rules: IgnoreRules, fullMatch: FullMatch) returns (isAiPath: bool)
    ensures isAiPath <==> AiByLastMatch(path, rules, fullMatch)
  {
    isAiPath := false;
    for d := 0 to Depths(path)
      invariant isAiPath <==> AiSoFar(path, rules, fullMatch, d, 0)
    {
      var lines := rules(path[..d]);
      for r := 0 to |lines|
        invariant isAiPath <==> AiSoFar(path, rules, fullMatch, d, r)
      {
        AiSoFarStep(path, rules, fullMatch, d, r);
        if PathMatchesGlob(path[d..], PatternOf(lines[r]), fullMatch) {
          isAiPath := !IsNegation(lines[r]);
        }
      }
      assert AiSoFar(path, rules, fullMatch, d, |lines|) <==> AiSoFar(path, rules, fullMatch, d + 1, 0) by {
        forall d', r' | Consulted(path, rules, d', r')
          ensures Later(d', r', d, |lines|) <==> Later(d', r', d + 1, 0) {}
      }
    }
    var n := Depths(path);
    forall d', r' | Consulted(path, rules, d', r') ensures Later(d', r', n, 0) {}
  }

  // ------------------------------------------------------- commit classes

  datatype Classification = Classification(isAiOnly: bool, isAiTainted: bool, isCodeContaining: bool)

  /**
   `git diff-tree --no-commit-id --name-only -r sha`: prints nothing for a merge
   or a root commit.
   */
  function ChangedPaths(c: Commit): set<Path> {
    if c.Child? && c.others == [] then DiffPaths(c.first.tree, c.tree) else {}
  }

  predicate IsAiOnly(c: Commit, ai: Path -> bool) {
    ChangedPaths(c) != {} && forall p :: p in ChangedPaths(c) ==> ai(p)
  }

  function ClassifyCommit(c: Commit, ai: Path -> bool, aiSubject: string -> bool): Classification {
    var paths := ChangedPaths(c);
    var only := IsAiOnly(c, ai);
    Classification(
      only,
      only || (exists p :: p in paths && ai(p)) || aiSubject(c.msg.subject),
      exists p :: p in paths && !ai(p))
  }

  function KindFor(cls: Classification): SplitKind {
    if cls.isAiOnly then HistoryKind else if !cls.isAiTainted then CodeKind else MixedKind
  }

  /** An AI-only commit changes no code path, whatever its diff looks like. */
  lemma AiOnlyKeepsCode(c: Commit, ai: Path -> bool)
    requires IsAiOnly(c, ai)
    ensures Agree(CleanSide, ai, ParentTree(c), c.tree)
  {
    forall p | Keeps(CleanSide, ai, p) ensures SameAt(ParentTree(c), c.tree, p) {
      assert c.Child?;
      if !SameAt(c.first.tree, c.tree, p) { assert p in ChangedPaths(c); }
    }
  }

  /** An unmerged commit is "code" exactly when it touches no AI path and has no AI subject. */
  lemma KindSaysWhatChanged(c: Commit, ai: Path -> bool, aiSubject: string -> bool)
    requires c.Child? && !IsMerge(c)
    ensures var k := KindFor(ClassifyCommit(c, ai, aiSubject));
      && (k == HistoryKind <==> Agree(CleanSide, ai, c.first.tree, c.tree) && c.first.tree != c.tree)
      && (k == CodeKind <==> Agree(HistorySide, ai, c.first.tree, c.tree) && !aiSubject(c.msg.subject))
  {
    var a, b := c.first.tree, c.tree;
    if forall p :: SameAt(a, b, p) { SameEverywhere(a, b); }
    if Agree(CleanSide, ai, a, b) && a != b {
      forall p | p in ChangedPaths(c) ensures ai(p) { assert Keeps(CleanSide, ai, p) ==> SameAt(a, b, p); }
    }
    if IsAiOnly(c, ai) { AiOnlyKeepsCode(c, ai); }
    if Agree(HistorySide, ai, a, b) {
      forall p | p in ChangedPaths(c) ensures !ai(p) { assert Keeps(HistorySide, ai, p) ==> SameAt(a, b, p); }
    } else {
      var p :| Keeps(HistorySide, ai, p) && !SameAt(a, b, p);
      assert p in ChangedPaths(c) && ai(p);
    }
  }
}
