/** What the lint tool's tracker makes of a whole file: which #else text it depends on, and
    what its stack holds. */
module LintRegions {
  import opened LintBlocks
  import opened LintNesting
  import Ahead = LintTemplates

  // ----- The file without its #else regions -----

  /** The lines that count among the first m, when these conditionals are open before. */
  function KeptFrom(open: seq<bool>, lines: seq<Line>, m: nat): seq<Line>
    requires m <= |lines|
  {
    if m == 0 then []
    else KeptFrom(open, lines, m - 1) + if true in OpenFrom(open, lines, m) then [] else [lines[m - 1]]
  }

  /** A file with every #else region taken out. */
  function Kept(lines: seq<Line>): seq<Line> { KeptFrom([], lines, |lines|) }

  /** The first line from i on that is skipped, or the end of the file. */
  function NextSkipped(lines: seq<Line>, i: nat): (j: nat)
    requires i <= |lines|
    ensures i <= j <= |lines| && (j < |lines| ==> !IsKept(lines, j))
    ensures forall k :: i <= k < j ==> IsKept(lines, k)
    decreases |lines| - i
  {
    if i < |lines| && IsKept(lines, i) then NextSkipped(lines, i + 1) else i
  }

  /** The look-ahead from a class declared on line i is decided before the next skipped
      line, or there is none. */
  predicate Settled(lines: seq<Line>, i: nat)
    requires i < |lines| && lines[i].classDecl.Some?
  {
    var j := NextSkipped(lines, i);
    j == |lines| || !Ahead.LookAhead(Texts(lines[i..j]), lines[i].classDecl.value.end).Undecided?
  }

  ghost predicate AllSettled(lines: seq<Line>) {
    forall i :: 0 <= i < |lines| && IsKept(lines, i) && lines[i].classDecl.Some? ==> Settled(lines, i)
  }

  lemma {:induction false} KeptGrows(open: seq<bool>, lines: seq<Line>, i: nat, m: nat)
    requires i <= m <= |lines|
    ensures KeptFrom(open, lines, i) <= KeptFrom(open, lines, m)
  {
    hide OpenFrom;
    if i < m { KeptGrows(open, lines, i, m - 1); }
  }

  lemma {:induction false} KeptRun(lines: seq<Line>, i: nat, j: nat)
    requires i <= j <= |lines| && forall k :: i <= k < j ==> IsKept(lines, k)
    ensures KeptFrom([], lines, j) == KeptFrom([], lines, i) + lines[i..j]
  {
    if i < j {
      KeptRun(lines, i, j - 1);
      assert IsKept(lines, j - 1);
      assert lines[i..j] == lines[i..j - 1] + [lines[j - 1]];
    } else {
      assert lines[i..j] == [];
    }
  }

  /** Without the regions, the text after a kept line begins as it did up to the next one. */
  lemma KeptText(lines: seq<Line>, i: nat)
    requires i < |lines| && IsKept(lines, i)
    ensures var c, j, kept := |KeptFrom([], lines, i)|, NextSkipped(lines, i), Kept(lines);
      && i < j && c + (j - i) <= |kept| && kept[c] == lines[i] && kept[c..c + (j - i)] == lines[i..j]
      && (j == |lines| ==> kept[c..] == lines[i..])
  {
    var c, j := |KeptFrom([], lines, i)|, NextSkipped(lines, i);
    KeptRun(lines, i, j);
    KeptGrows([], lines, j, |lines|);
    assert i < j;
    hide KeptFrom, NextSkipped, IsKept;
    PrefixParts(KeptFrom([], lines, i), lines[i..j], Kept(lines));
  }

  lemma PrefixParts(a: seq<Line>, b: seq<Line>, all: seq<Line>)
    requires a + b <= all
    ensures |a| + |b| <= |all| && all[|a|..|a| + |b|] == b && (|a| + |b| == |all| ==> all[|a|..] == b)
    ensures b != [] ==> all[|a|] == b[0]
  {
    assert all[..|a + b|] == a + b;
    assert b != [] ==> all[|a|] == (a + b)[|a|];
  }

  lemma DecidedStays(start: seq<string>, more: seq<string>, pos: nat)
    requires start != [] && !Ahead.LookAhead(start, pos).Undecided?
    ensures Ahead.LookAhead(start + more, pos) == Ahead.LookAhead(start, pos)
  {
    if more == [] {
      assert start + more == start;
    } else {
      Ahead.LookAheadGoesOn(start, more, pos);
    }
  }

  lemma TextsAdd(a: seq<Line>, b: seq<Line>)
    ensures Texts(a + b) == Texts(a) + Texts(b)
  {
  }

  /** Where a run of lines decides, the verdict does not depend on what follows. */
  lemma VerdictInRun(run: seq<Line>, rest: seq<Line>, end: nat)
    requires run != [] && !Ahead.LookAhead(Texts(run), end).Undecided?
    ensures Ahead.LookAhead(Texts(run + rest), end) == Ahead.LookAhead(Texts(run), end)
  {
    TextsAdd(run, rest);
    assert Texts(run) != [];
    hide Ahead.LookAhead, Texts;
    DecidedStays(Texts(run), Texts(rest), end);
  }

  lemma VerdictThere(lines: seq<Line>, i: nat, j: nat)
    requires i < j <= |lines| && lines[i].classDecl.Some?
    requires !Ahead.LookAhead(Texts(lines[i..j]), lines[i].classDecl.value.end).Undecided?
    ensures Verdict(lines, i) == Ahead.LookAhead(Texts(lines[i..j]), lines[i].classDecl.value.end)
  {
    hide Ahead.LookAhead, Texts;
    assert lines[i..] == lines[i..j] + lines[j..];
    VerdictInRun(lines[i..j], lines[j..], lines[i].classDecl.value.end);
  }

  /** A settled declaration is judged alike with and without the regions. */
  lemma SettledJudgedAlike(lines: seq<Line>, i: nat)
    requires i < |lines| && IsKept(lines, i) && (lines[i].classDecl.Some? ==> Settled(lines, i))
    ensures var c := |KeptFrom([], lines, i)|;
      c < |Kept(lines)| && Kept(lines)[c] == lines[i] && Inside(Kept(lines), c) == Inside(lines, i)
  {
    hide Ahead.LookAhead, Texts, KeptFrom, IsKept, Kept;
    var c, j, kept := |KeptFrom([], lines, i)|, NextSkipped(lines, i), Kept(lines);
    KeptText(lines, i);
    if lines[i].classDecl.Some? && j < |lines| {
      VerdictThere(lines, i, j);
      VerdictThere(kept, c, c + (j - i));
    }
  }

  // ----- States apart from line numbers -----

  ghost predicate SameInfo(a: PreprocessorInfo, b: PreprocessorInfo) {
    Same(a.stackBeforeIf, b.stackBeforeIf) && Same(a.stackBeforeElse, b.stackBeforeElse) && a.seenElse == b.seenElse
  }

  ghost predicate Alike(s: Nesting, t: Nesting) {
    && Same(s.stack, t.stack) && |s.ppStack| == |t.ppStack|
    && forall i :: 0 <= i < |s.ppStack| ==> SameInfo(s.ppStack[i], t.ppStack[i])
  }

  lemma AfterAlike(s: Nesting, t: Nesting, line: Line, n: nat, n': nat, inside: bool)
    requires Alike(s, t)
    ensures Alike(After(s, line, n, inside), After(t, line, n', inside))
  {
    PreprocessAlike(s, t, line.directive);
    hide Same, SameInfo, BlocksAfter, Preprocess;
    SameBlocksAfter(Preprocess(s, line.directive).stack, Preprocess(t, line.directive).stack, line, n, n', inside);
  }

  lemma PreprocessAlike(s: Nesting, t: Nesting, d: Directive)
    requires Alike(s, t)
    ensures Alike(Preprocess(s, d), Preprocess(t, d))
  {
    assert Same([], []);
    hide Same;
    if s.ppStack != [] {
      var n := |s.ppStack| - 1;
      assert SameInfo(s.ppStack[n], t.ppStack[n]);
    }
  }

  /** After m lines the tracker is where it would be had the #else regions among them never
      been written, line numbers apart. */
  ghost predicate AsRemoved(lines: seq<Line>, m: nat)
    requires m <= |lines|
  {
    var c := |KeptFrom([], lines, m)|;
    c <= |Kept(lines)| && Alike(Skipped(lines, m), Process(Kept(lines), c))
  }

  lemma RemovedStep(lines: seq<Line>, m: nat)
    requires m < |lines| && AllSettled(lines) && AsRemoved(lines, m)
    ensures AsRemoved(lines, m + 1)
  {
    hide After, Inside, Alike, Settled, Kept;
    KeptGrows([], lines, m + 1, |lines|);
    assert Kept(lines) == KeptFrom([], lines, |lines|) by { KeptIs(lines); }
    if IsKept(lines, m) {
      assert lines[m].classDecl.Some? ==> Settled(lines, m);
      hide AllSettled;
      var c := |KeptFrom([], lines, m)|;
      SettledJudgedAlike(lines, m);
      AfterAlike(Skipped(lines, m), Process(Kept(lines), c), lines[m], m, c, Inside(lines, m));
    }
  }

  lemma KeptIs(lines: seq<Line>)
    ensures Kept(lines) == KeptFrom([], lines, |lines|)
  {
  }

  /** This holds for a file whose class declarations are settled. */
  lemma {:induction false} RegionsMayBeRemoved(lines: seq<Line>, m: nat)
    requires m <= |lines| && AllSettled(lines)
    ensures AsRemoved(lines, m)
  {
    hide AsRemoved, AllSettled;
    if m == 0 {
      NothingKept(lines);
    } else {
      RegionsMayBeRemoved(lines, m - 1);
      RemovedStep(lines, m - 1);
    }
  }

  lemma NothingKept(lines: seq<Line>)
    ensures AsRemoved(lines, 0)
  {
  }

  lemma FileWithoutRegions(lines: seq<Line>)
    requires AllSettled(lines) && true !in OpenAfter(lines, |lines|)
    ensures Alike(Process(lines, |lines|), Process(Kept(lines), |Kept(lines)|))
  {
    hide Alike, AllSettled, Process, Skipped, OpenAfter, KeptFrom;
    ElseRegionsDoNotCount(lines, |lines|);
    RegionsMayBeRemoved(lines, |lines|);
    assert Kept(lines) == KeptFrom([], lines, |lines|);
  }

  lemma AlikeBoth(s: Nesting, t: Nesting, u: Nesting)
    requires Alike(s, u) && Alike(t, u)
    ensures Alike(s, t)
  {
    forall i | 0 <= i < |s.ppStack|
      ensures SameInfo(s.ppStack[i], t.ppStack[i])
    {
      assert SameInfo(s.ppStack[i], u.ppStack[i]) && SameInfo(t.ppStack[i], u.ppStack[i]);
    }
  }

  /** Two settled files that differ only in what they say after #else end in the same state,
      line numbers apart. */
  lemma ElseTextIsIrrelevant(lines: seq<Line>, others: seq<Line>)
    requires Kept(lines) == Kept(others) && AllSettled(lines) && AllSettled(others)
    requires true !in OpenAfter(lines, |lines|) && true !in OpenAfter(others, |others|)
    ensures Alike(Process(lines, |lines|), Process(others, |others|))
  {
    hide Alike, AllSettled, Process, Kept, OpenAfter;
    FileWithoutRegions(lines);
    FileWithoutRegions(others);
    AlikeBoth(Process(lines, |lines|), Process(others, |others|), Process(Kept(lines), |Kept(lines)|));
  }

  // ----- Unsettled declarations -----

  /** The first line from j on that is not skipped, or the end of the file. */
  function NextKept(lines: seq<Line>, j: nat): (e: nat)
    requires j <= |lines|
    ensures j <= e <= |lines| && (e < |lines| ==> IsKept(lines, e))
    ensures forall k :: j <= k < e ==> !IsKept(lines, k)
    decreases |lines| - j
  {
    if j < |lines| && !IsKept(lines, j) then NextKept(lines, j + 1) else j
  }

  /** The file with another text in the #else region that follows line i. */
  function WithRegion(lines: seq<Line>, i: nat, region: seq<Line>): seq<Line>
    requires i <= |lines|
  {
    var j := NextSkipped(lines, i);
    lines[..j] + region + lines[NextKept(lines, j)..]
  }

  lemma {:induction false} OpenPrefix(open: seq<bool>, a: seq<Line>, b: seq<Line>, t: nat)
    requires t <= |a|
    ensures OpenFrom(open, a + b, t) == OpenFrom(open, a, t) && KeptFrom(open, a + b, t) == KeptFrom(open, a, t)
  {
    hide NextOpen;
    if t > 0 { OpenPrefix(open, a, b, t - 1); }
  }

  lemma {:induction false} OpenInTurn(open: seq<bool>, a: seq<Line>, b: seq<Line>, t: nat)
    requires t <= |b|
    ensures OpenFrom(open, a + b, |a| + t) == OpenFrom(OpenFrom(open, a, |a|), b, t)
    ensures KeptFrom(open, a + b, |a| + t) == KeptFrom(open, a, |a|) + KeptFrom(OpenFrom(open, a, |a|), b, t)
  {
    hide NextOpen;
    if t == 0 {
      OpenPrefix(open, a, b, |a|);
    } else {
      OpenInTurn(open, a, b, t - 1);
      assert (a + b)[|a| + t - 1] == b[t - 1];
    }
  }

  /** A region of lines all skipped, from where nothing was. */
  ghost predicate IsRegion(open: seq<bool>, region: seq<Line>) {
    region != [] && forall t :: 0 < t <= |region| ==> true in OpenFrom(open, region, t)
  }

  lemma {:induction false} RegionKeepsNothing(open: seq<bool>, region: seq<Line>, t: nat)
    requires IsRegion(open, region) && t <= |region|
    ensures KeptFrom(open, region, t) == []
  {
    if t > 0 { RegionKeepsNothing(open, region, t - 1); }
  }

  lemma {:induction false} RegionKeepsOutermost(open: seq<bool>, region: seq<Line>, t: nat)
    requires IsRegion(open, region) && true !in open && 0 < t <= |region|
    ensures open != [] && true in OpenFrom(open, region, t) && FirstElse(OpenFrom(open, region, t)) == |open| - 1
    ensures OpenFrom(open, region, t)[..|open| - 1] == open[..|open| - 1]
  {
    assert true in OpenFrom(open, region, t);
    if t == 1 {
      assert OpenFrom(open, region, 0) == open;
      FirstElseIs(OpenFrom(open, region, 1), |open| - 1);
    } else {
      hide NextOpen;
      RegionKeepsOutermost(open, region, t - 1);
      OutermostElseStays(OpenFrom(open, region, t - 1), region[t - 1].directive);
    }
  }

  /** Where a region ends, the conditionals are open as before it, the innermost one with
      its #else seen. */
  lemma RegionEnds(open: seq<bool>, region: seq<Line>, next: Line)
    requires IsRegion(open, region) && true !in open
    requires true !in NextOpen(OpenFrom(open, region, |region|), next.directive)
    ensures open != [] && OpenFrom(open, region, |region|) == open[..|open| - 1] + [true]
  {
    hide OpenFrom, NextOpen, FirstElse;
    var after := OpenFrom(open, region, |region|);
    assert region != [];
    hide IsRegion;
    RegionKeepsOutermost(open, region, |region|);
    EndifClosesOutermost(after, next.directive);
    assert after[FirstElse(after)];
    assert after == after[..|after| - 1] + [after[|after| - 1]];
  }

  /** Two regions in the same place: what counts of the file is the same. */
  lemma RegionsAlike(before: seq<Line>, region: seq<Line>, other: seq<Line>, rest: seq<Line>)
    requires true !in OpenAfter(before, |before|)
    requires IsRegion(OpenAfter(before, |before|), region) && IsRegion(OpenAfter(before, |before|), other)
    requires rest != [] ==>
      var open := OpenAfter(before, |before|);
      true !in NextOpen(OpenFrom(open, region, |region|), rest[0].directive)
      && true !in NextOpen(OpenFrom(open, other, |other|), rest[0].directive)
    ensures Kept(before + region + rest) == Kept(before + other + rest)
  {
    hide NextOpen, IsRegion, KeptFrom, OpenFrom;
    OneRegion(before, region, rest);
    OneRegion(before, other, rest);
    var open := OpenAfter(before, |before|);
    if rest != [] {
      RegionEnds(open, region, rest[0]);
      RegionEnds(open, other, rest[0]);
    } else {
      NothingLeft(OpenFrom(open, region, |region|), OpenFrom(open, other, |other|));
    }
  }

  lemma NothingLeft(a: seq<bool>, b: seq<bool>)
    ensures KeptFrom(a, [], 0) == KeptFrom(b, [], 0)
  {
  }

  lemma OneRegion(before: seq<Line>, region: seq<Line>, rest: seq<Line>)
    requires IsRegion(OpenAfter(before, |before|), region)
    ensures var open := OpenAfter(before, |before|);
      Kept(before + region + rest) ==
        KeptFrom([], before, |before|) + KeptFrom(OpenFrom(open, region, |region|), rest, |rest|)
  {
    hide KeptFrom, OpenFrom, IsRegion;
    var open := OpenAfter(before, |before|);
    OpenInTurn([], before, region, |region|);
    OpenInTurn([], before + region, rest, |rest|);
    RegionKeepsNothing(open, region, |region|);
    assert KeptFrom([], before, |before|) + [] == KeptFrom([], before, |before|);
  }

  lemma ThreeParts(lines: seq<Line>, j: nat, e: nat)
    requires j <= e <= |lines|
    ensures lines == lines[..j] + lines[j..e] + lines[e..] == lines[..j] + (lines[j..e] + lines[e..])
  {
  }

  /** What is open inside lines[j..e], counted from its beginning. */
  lemma OpenWithin(lines: seq<Line>, j: nat, e: nat, t: nat)
    requires j <= e <= |lines| && t <= e - j
    ensures OpenAfter(lines, j + t) == OpenFrom(OpenAfter(lines[..j], j), lines[j..e], t)
  {
    hide OpenFrom, KeptFrom;
    ThreeParts(lines, j, e);
    OpenInTurn([], lines[..j], lines[j..e] + lines[e..], t);
    OpenPrefix(OpenAfter(lines[..j], j), lines[j..e], lines[e..], t);
  }

  lemma AllSkipped(lines: seq<Line>, j: nat, e: nat)
    requires j < e <= |lines| && forall k :: j <= k < e ==> !IsKept(lines, k)
    ensures IsRegion(OpenAfter(lines[..j], j), lines[j..e])
  {
    var open, region := OpenAfter(lines[..j], j), lines[j..e];
    hide OpenFrom;
    forall t | 0 < t <= |region|
      ensures true in OpenFrom(open, region, t)
    {
      assert !IsKept(lines, j + t - 1);
      OpenWithin(lines, j, e, t);
    }
  }

  /** The region that follows line i. */
  lemma TheRegion(lines: seq<Line>, i: nat)
    requires i < |lines| && IsKept(lines, i) && NextSkipped(lines, i) < |lines|
    ensures var j := NextSkipped(lines, i);
      var e := NextKept(lines, j);
      && i < j < e <= |lines| && true !in OpenAfter(lines[..j], j)
      && IsRegion(OpenAfter(lines[..j], j), lines[j..e])
      && (e < |lines| ==>
           true !in NextOpen(OpenFrom(OpenAfter(lines[..j], j), lines[j..e], e - j), lines[e].directive))
  {
    hide NextSkipped, NextKept, IsRegion, NextOpen, KeptFrom, OpenFrom;
    var j := NextSkipped(lines, i);
    var e := NextKept(lines, j);
    assert i < j < e && IsKept(lines, j - 1);
    AllSkipped(lines, j, e);
    OpenThere(lines, j, e);
    if e < |lines| {
      assert IsKept(lines, e);
      OpenNext(lines, e);
    }
  }

  lemma OpenThere(lines: seq<Line>, j: nat, e: nat)
    requires j <= e <= |lines|
    ensures OpenAfter(lines, j) == OpenAfter(lines[..j], j)
    ensures OpenAfter(lines, e) == OpenFrom(OpenAfter(lines[..j], j), lines[j..e], e - j)
  {
    OpenWithin(lines, j, e, 0);
    OpenWithin(lines, j, e, e - j);
  }

  lemma OpenNext(lines: seq<Line>, e: nat)
    requires e < |lines|
    ensures OpenAfter(lines, e + 1) == NextOpen(OpenAfter(lines, e), lines[e].directive)
  {
    hide NextOpen;
  }

  /** An #else line and one that is no directive make a region. */
  lemma TwoLinesAreRegion(open: seq<bool>, else_: Line, probe: Line)
    requires open != [] && true !in open && else_.directive == Else && probe.directive == NoDirective
    ensures IsRegion(open, [else_, probe])
    ensures OpenFrom(open, [else_, probe], 2) == open[..|open| - 1] + [true]
  {
    hide IsRegion, OpenFrom;
    ElseIsRegion(open, [else_, probe]);
  }

  lemma ElseIsRegion(open: seq<bool>, region: seq<Line>)
    requires open != [] && true !in open && |region| == 2
    requires region[0].directive == Else && region[1].directive == NoDirective
    ensures IsRegion(open, region)
    ensures OpenFrom(open, region, 2) == open[..|open| - 1] + [true]
  {
    hide OpenFrom, NextOpen;
    OpenNone(open, region);
    OpenOneMore(open, region, 1);
    OpenOneMore(open, region, 2);
    ElseOpens(open);
  }

  lemma OpenNone(open: seq<bool>, lines: seq<Line>)
    ensures OpenFrom(open, lines, 0) == open
  {
  }

  lemma ElseOpens(open: seq<bool>)
    requires open != []
    ensures var last := open[..|open| - 1] + [true];
      NextOpen(open, Else) == last && NextOpen(last, NoDirective) == last && true in last
  {
    assert (open[..|open| - 1] + [true])[|open| - 1];
  }

  lemma OpenOneMore(open: seq<bool>, lines: seq<Line>, m: nat)
    requires 0 < m <= |lines|
    ensures OpenFrom(open, lines, m) == NextOpen(OpenFrom(open, lines, m - 1), lines[m - 1].directive)
  {
    hide NextOpen;
  }

  lemma ProbeDecides(run: seq<Line>, else_: Line, probe: Line, rest: seq<Line>, end: nat, c: char)
    requires run != [] && Ahead.LookAhead(Texts(run), end).Undecided? && (c == ';' || c == '>')
    requires else_.text == "#else"
    requires var stack := Ahead.LookAhead(Texts(run), end).stack; probe.text == Ahead.Closers(stack, |stack|) + [c]
    ensures (Ahead.LookAhead(Texts(run + [else_, probe] + rest), end) == Ahead.Inside) == (c == '>')
  {
    hide Ahead.LookAhead, Ahead.Closers;
    var stack := Ahead.LookAhead(Texts(run), end).stack;
    assert Texts([else_, probe]) == Ahead.Deciders(stack, c);
    TextsAdd(run, [else_, probe] + rest);
    TextsAdd([else_, probe], rest);
    assert run + [else_, probe] + rest == run + ([else_, probe] + rest);
    assert Texts(run) != [];
    Ahead.UndecidedDependsOnElse(Texts(run), end, Texts(rest));
  }

  lemma RegionOpens(open: seq<bool>, region: seq<Line>)
    requires IsRegion(open, region) && true !in open
    ensures open != []
  {
    RegionKeepsOutermost(open, region, 1);
  }

  /** A region of two lines in place of another. */
  lemma RegionReplaced(lines: seq<Line>, i: nat, else_: Line, probe: Line)
    requires i < |lines| && IsKept(lines, i) && NextSkipped(lines, i) < |lines|
    requires else_.directive == Else && probe.directive == NoDirective
    ensures Kept(WithRegion(lines, i, [else_, probe])) == Kept(lines)
  {
    hide IsRegion, NextOpen, KeptFrom, OpenFrom, Kept, NextSkipped, NextKept;
    var j := NextSkipped(lines, i);
    var e := NextKept(lines, j);
    var before, region, rest := lines[..j], lines[j..e], lines[e..];
    var open := OpenAfter(before, j);
    TheRegion(lines, i);
    RegionOpens(open, region);
    TwoLinesAreRegion(open, else_, probe);
    ThreeParts(lines, j, e);
    if e < |lines| { RegionEnds(open, region, lines[e]); }
    RegionsAlike(before, region, [else_, probe], rest);
  }

  /** A declaration that is not settled depends on the #else text: behind an #else line,
      one line that closes what is open and then has '>' makes it a template argument, one
      that has ';' instead makes it a class, and nothing that counts is changed. */
  lemma UnsettledDependsOnElse(lines: seq<Line>, i: nat, else_: Line, probe: Line, c: char)
    requires i < |lines| && IsKept(lines, i) && lines[i].classDecl.Some? && !Settled(lines, i)
    requires else_.text == "#else" && else_.directive == Else && probe.directive == NoDirective
    requires c == ';' || c == '>'
    requires var run := lines[i..NextSkipped(lines, i)];
      var stack := Ahead.LookAhead(Texts(run), lines[i].classDecl.value.end).stack;
      probe.text == Ahead.Closers(stack, |stack|) + [c]
    ensures var other := WithRegion(lines, i, [else_, probe]);
      && Kept(other) == Kept(lines)
      && i < |other| && other[i] == lines[i] && Inside(other, i) == (c == '>')
  {
    hide Ahead.LookAhead, Ahead.Closers, Texts, Kept, NextKept, IsKept;
    RegionReplaced(lines, i, else_, probe);
    var j, other := NextSkipped(lines, i), WithRegion(lines, i, [else_, probe]);
    assert i < j by { TheRegion(lines, i); }
    var run, rest := lines[i..j], lines[NextKept(lines, j)..];
    assert run[0] == lines[i] && other[i..] == run + [else_, probe] + rest;
    ProbeDecides(run, else_, probe, rest, lines[i].classDecl.value.end, c);
  }

  /** The first declaration that is not settled, among the lines that count. */
  ghost predicate FirstUnsettled(lines: seq<Line>, i: nat) {
    && i < |lines| && IsKept(lines, i) && lines[i].classDecl.Some? && !Settled(lines, i)
    && forall k :: 0 <= k < i && IsKept(lines, k) && lines[k].classDecl.Some? ==> Settled(lines, k)
  }

  /** On line i the declaration opens a block if it is no template argument, and no brace or
      semicolon follows it. */
  predicate OpensClass(lines: seq<Line>, i: nat)
    requires i < |lines|
  {
    var line := lines[i];
    var s := Preprocess(Skipped(lines, i), line.directive).stack;
    && AcceptsClass(BeforeClass(s, line, i), line, false)
    && line.tail.tokens == [] && line.classDecl.value.rest.tokens == []
  }

  lemma OpenBefore(lines: seq<Line>, other: seq<Line>, j: nat, t: nat)
    requires t <= j <= |lines| && j <= |other| && lines[..j] == other[..j]
    ensures OpenAfter(lines, t) == OpenAfter(other, t)
  {
    hide OpenFrom;
    assert lines == lines[..j] + lines[j..] && other == other[..j] + other[j..];
    OpenPrefix([], lines[..j], lines[j..], t);
    OpenPrefix([], other[..j], other[j..], t);
  }

  lemma NextSkippedIsNext(lines: seq<Line>, k: nat, j: nat)
    requires k <= j < |lines| && !IsKept(lines, j)
    ensures NextSkipped(lines, k) <= j
  {
    hide IsKept;
  }

  lemma SamePart<T>(a: seq<T>, b: seq<T>, j: nat, k: nat, t: nat)
    requires k <= t <= j <= |a| && j <= |b| && a[..j] == b[..j]
    ensures a[k..t] == b[k..t]
  {
    assert a[..j][k..t] == a[k..t] && b[..j][k..t] == b[k..t];
  }

  /** A settled declaration is judged alike in every file that agrees up to where the next
      region begins. */
  lemma SettledBefore(lines: seq<Line>, other: seq<Line>, k: nat, j: nat)
    requires k < j < |lines| && j <= |other| && lines[..j] == other[..j] && !IsKept(lines, j)
    requires IsKept(lines, k) && (lines[k].classDecl.Some? ==> Settled(lines, k))
    ensures Inside(other, k) == Inside(lines, k)
  {
    hide IsKept, Verdict, Ahead.LookAhead, Texts;
    assert lines[..j][k] == other[..j][k];
    NextSkippedIsNext(lines, k, j);
    var t := NextSkipped(lines, k);
    assert k < t;
    SamePart(lines, other, j, k, t);
    if lines[k].classDecl.Some? {
      VerdictThere(lines, k, t);
      VerdictThere(other, k, t);
    }
  }

  lemma {:induction false} SkippedAlike(lines: seq<Line>, other: seq<Line>, j: nat, m: nat)
    requires m <= j < |lines| && j <= |other| && lines[..j] == other[..j] && !IsKept(lines, j)
    requires forall k :: 0 <= k < m && IsKept(lines, k) && lines[k].classDecl.Some? ==> Settled(lines, k)
    ensures Skipped(other, m) == Skipped(lines, m)
  {
    hide After, Inside, Settled, OpenAfter;
    if m > 0 {
      SkippedAlike(lines, other, j, m - 1);
      OpenBefore(lines, other, j, m);
      assert lines[..j][m - 1] == other[..j][m - 1];
      if IsKept(lines, m - 1) { SettledBefore(lines, other, m - 1, j); }
    }
  }

  lemma AcceptedIsOneMore(stack: seq<Block>, line: Line, n: nat)
    requires AcceptsClass(BeforeClass(stack, line, n), line, false)
    requires line.tail.tokens == [] && line.classDecl.value.rest.tokens == []
    ensures |BlocksAfter(stack, line, n, false)| == |BlocksAfter(stack, line, n, true)| + 1
  {
    hide BeforeClass;
  }

  /** The stack after line i, when the file has this text in the region that follows. */
  lemma StackWithRegion(lines: seq<Line>, i: nat, region: seq<Line>)
    requires FirstUnsettled(lines, i)
    ensures var other := WithRegion(lines, i, region);
      && i < |other|
      && Process(other, i + 1).stack ==
         BlocksAfter(Preprocess(Skipped(lines, i), lines[i].directive).stack, lines[i], i, Inside(other, i))
  {
    hide NextKept, NextSkipped, BlocksAfter, Preprocess, Inside, Process, OpenAfter, Settled;
    var j, other := NextSkipped(lines, i), WithRegion(lines, i, region);
    assert i < j < |lines| && !IsKept(lines, j) by { UnsettledEnds(lines, i); }
    assert other[..j] == lines[..j] && other[i] == other[..j][i] == lines[i];
    SkippedAlike(lines, other, j, i);
    OpenBefore(lines, other, j, i + 1);
    ElseRegionsDoNotCount(other, i + 1);
  }

  lemma UnsettledEnds(lines: seq<Line>, i: nat)
    requires i < |lines| && IsKept(lines, i) && lines[i].classDecl.Some? && !Settled(lines, i)
    ensures i < NextSkipped(lines, i) < |lines| && !IsKept(lines, NextSkipped(lines, i))
  {
    hide IsKept;
  }

  /** And the state depends on it: in a file whose first unsettled declaration opens a class,
      the two texts leave, right after that line, one block more or less on the stack. */
  lemma UnsettledChangesStack(lines: seq<Line>, i: nat, else_: Line, asClass: Line, asArgument: Line)
    requires FirstUnsettled(lines, i) && OpensClass(lines, i)
    requires else_.text == "#else" && else_.directive == Else
    requires asClass.directive == NoDirective && asArgument.directive == NoDirective
    requires var run := lines[i..NextSkipped(lines, i)];
      var stack := Ahead.LookAhead(Texts(run), lines[i].classDecl.value.end).stack;
      var closers := Ahead.Closers(stack, |stack|);
      asClass.text == closers + [';'] && asArgument.text == closers + ['>']
    ensures var one, two := WithRegion(lines, i, [else_, asClass]), WithRegion(lines, i, [else_, asArgument]);
      && Kept(one) == Kept(lines) == Kept(two) && i < |one| && i < |two|
      && |Process(one, i + 1).stack| == |Process(two, i + 1).stack| + 1
  {
    hide Ahead.LookAhead, Ahead.Closers, Texts, WithRegion, Kept, Process, Preprocess, BlocksAfter, Settled, IsKept,
      BeforeClass, AcceptsClass, Skipped, Inside;
    UnsettledDependsOnElse(lines, i, else_, asClass, ';');
    UnsettledDependsOnElse(lines, i, else_, asArgument, '>');
    StackWithRegion(lines, i, [else_, asClass]);
    StackWithRegion(lines, i, [else_, asArgument]);
    AcceptedIsOneMore(Preprocess(Skipped(lines, i), lines[i].directive).stack, lines[i], i);
  }

  // ----- What the stack holds -----

  /** The declarations, braces and semicolons of the lines that count among the first m. */
  function FileEvents(lines: seq<Line>, m: nat): seq<Event>
    requires m <= |lines|
  {
    if m == 0 then []
    else if IsKept(lines, m - 1) then FileEvents(lines, m - 1) + EventsAt(lines, m - 1)
    else FileEvents(lines, m - 1)
  }

  function EventsAt(lines: seq<Line>, i: nat): seq<Event>
    requires i < |lines|
  {
    var accepted := Accepted(Skipped(lines, i).stack, lines[i], i, Inside(lines, i));
    CoreEvents(LineEvents(lines[i], i, accepted))
  }

  /** At a line that counts, a directive does not touch the block stack. */
  lemma DirectiveKeepsStack(full: Nesting, kept: Nesting, open: seq<bool>, d: Directive)
    requires Tracks(full, kept, open) && true !in NextOpen(open, d)
    ensures Preprocess(kept, d).stack == kept.stack
  {
    if true in open {
      EndifClosesOutermost(open, d);
    }
  }

  lemma KeptLineIsEvents(lines: seq<Line>, i: nat)
    requires i < |lines| && IsKept(lines, i)
    ensures Cores(Skipped(lines, i + 1).stack) ==
      ApplyAll(Cores(Skipped(lines, i).stack), EventsAt(lines, i), |EventsAt(lines, i)|)
  {
    hide Tracks, Inside, NextOpen, Preprocess, BlocksAfter, Cores, ApplyAll, CoreEvents, LineEvents, Accepted, Process;
    SkippedTracks(lines, i);
    DirectiveKeepsStack(Process(lines, i), Skipped(lines, i), OpenAfter(lines, i), lines[i].directive);
    LineIsEvents(Skipped(lines, i).stack, lines[i], i, Inside(lines, i));
  }

  lemma {:induction false} FileIsEvents(lines: seq<Line>, m: nat)
    requires m <= |lines|
    ensures Cores(Skipped(lines, m).stack) == ApplyAll([], FileEvents(lines, m), |FileEvents(lines, m)|)
  {
    hide After, ApplyAll, Inside, EventsAt, IsKept, Cores;
    if m == 0 {
      EmptyIsNoEvents(lines);
    } else {
      FileIsEvents(lines, m - 1);
      if IsKept(lines, m - 1) {
        KeptLineIsEvents(lines, m - 1);
        ApplyInTurn([], FileEvents(lines, m - 1), EventsAt(lines, m - 1), |EventsAt(lines, m - 1)|);
      }
    }
  }

  lemma EmptyIsNoEvents(lines: seq<Line>)
    ensures Cores(Skipped(lines, 0).stack) == [] == ApplyAll([], FileEvents(lines, 0), 0)
  {
  }

  lemma EventsAreWellMade(lines: seq<Line>, i: nat)
    requires i < |lines|
    ensures WellMade(EventsAt(lines, i))
  {
    hide Skipped, Inside, LineEvents, WellMade, CoreEvents, BeforeClass;
    LineIsWellMade(lines[i], i, Accepted(Skipped(lines, i).stack, lines[i], i, Inside(lines, i)));
  }

  lemma {:induction false} FileIsWellMade(lines: seq<Line>, m: nat)
    requires m <= |lines|
    ensures WellMade(FileEvents(lines, m))
  {
    hide IsKept, EventsAt;
    if m > 0 {
      FileIsWellMade(lines, m - 1);
      hide WellMade;
      EventsAreWellMade(lines, m - 1);
      WellMadeAdds(FileEvents(lines, m - 1), EventsAt(lines, m - 1));
    }
  }

  /** Braces opened less braces closed on the lines that count among the first m, those of
      namespaces and those behind an accepted class declaration included. */
  function FileBraces(lines: seq<Line>, m: nat): int
    requires m <= |lines|
  {
    if m == 0 then 0
    else if IsKept(lines, m - 1) then FileBraces(lines, m - 1) + LineBraces(lines, m - 1)
    else FileBraces(lines, m - 1)
  }

  function LineBraces(lines: seq<Line>, i: nat): int
    requires i < |lines|
  {
    var line := lines[i];
    var tail := if Accepted(Skipped(lines, i).stack, line, i, Inside(lines, i)) then line.classDecl.value.rest
                else line.tail;
    OpenNamespaces(line.namespaces, |line.namespaces|) + Braces(tail.tokens, |tail.tokens|)
  }

  function OpenNamespaces(ns: seq<NamespaceDecl>, m: nat): int
    requires m <= |ns|
  {
    if m == 0 then 0 else OpenNamespaces(ns, m - 1) + if ns[m - 1].opens then 1 else 0
  }

  lemma {:induction false} DepthAdds(a: seq<Event>, b: seq<Event>, m: nat)
    requires m <= |b|
    ensures Depth(a + b, |a| + m) == Depth(a, |a|) + Depth(b, m)
  {
    if m > 0 {
      DepthAdds(a, b, m - 1);
      assert (a + b)[|a| + m - 1] == b[m - 1];
    } else {
      DepthOfPrefix(a, b, |a|);
    }
  }

  lemma {:induction false} DepthOfPrefix(a: seq<Event>, b: seq<Event>, m: nat)
    requires m <= |a|
    ensures Depth(a + b, m) == Depth(a, m)
  {
    if m > 0 { DepthOfPrefix(a, b, m - 1); }
  }

  lemma {:induction false} CoresKeepDepth(es: seq<Event>, m: nat)
    requires m <= |es|
    ensures Depth(CoreEvents(es), m) == Depth(es, m)
  {
    if m > 0 { CoresKeepDepth(es, m - 1); }
  }

  lemma {:induction false} NamespaceDepth(ns: seq<NamespaceDecl>, number: nat, m: nat)
    requires m <= |ns|
    ensures var es := NamespaceEvents(ns, number, m); Depth(es, |es|) == OpenNamespaces(ns, m)
  {
    if m > 0 {
      NamespaceDepth(ns, number, m - 1);
      var es := NamespaceEvent(ns[m - 1], number);
      assert Depth(es, 0) == 0 && Depth(es, 1) == 0;
      DepthAdds(NamespaceEvents(ns, number, m - 1), es, |es|);
    }
  }

  lemma HeadDepth(b: Block)
    ensures Depth([Head(b)], 1) == 0 && Depth([], 0) == 0
  {
    assert Depth([Head(b)], 0) == 0;
  }

  lemma LineDepth(lines: seq<Line>, i: nat)
    requires i < |lines|
    ensures Depth(EventsAt(lines, i), |EventsAt(lines, i)|) == LineBraces(lines, i)
  {
    hide Depth, Skipped, Inside, Accepted, Braces, NamespaceEvents, EventsOf, CoreEvents;
    var line := lines[i];
    var accepted := Accepted(Skipped(lines, i).stack, line, i, Inside(lines, i));
    AcceptedIsDeclared(Skipped(lines, i).stack, line, i, Inside(lines, i));
    var a := NamespaceEvents(line.namespaces, i, |line.namespaces|);
    var b := if accepted then [Head(ClassBlock(line.classDecl.value, i))] else [];
    var ts := (if accepted then line.classDecl.value.rest else line.tail).tokens;
    var c := EventsOf(ts, i);
    CoresKeepDepth(LineEvents(line, i, accepted), |LineEvents(line, i, accepted)|);
    DepthAdds(a + b, c, |c|);
    DepthAdds(a, b, |b|);
    NamespaceDepth(line.namespaces, i, |line.namespaces|);
    if accepted { HeadDepth(ClassBlock(line.classDecl.value, i)); } else { HeadDepth(NewBlock(Plain, 0, true)); }
    DepthIsBraces(ts, i, |ts|);
  }

  lemma AcceptedIsDeclared(stack: seq<Block>, line: Line, n: nat, inside: bool)
    ensures Accepted(stack, line, n, inside) ==> line.classDecl.Some?
  {
    hide BeforeClass;
  }

  lemma {:induction false} FileDepthIsBraces(lines: seq<Line>, m: nat)
    requires m <= |lines|
    ensures Depth(FileEvents(lines, m), |FileEvents(lines, m)|) == FileBraces(lines, m)
  {
    hide EventsAt, LineBraces, IsKept;
    if m > 0 {
      FileDepthIsBraces(lines, m - 1);
      if IsKept(lines, m - 1) {
        var es := EventsAt(lines, m - 1);
        LineDepth(lines, m - 1);
        hide Depth;
        DepthAdds(FileEvents(lines, m - 1), es, |es|);
      }
    }
  }

  /** Wherever no #else region is open, the stack is the blocks of the braces still open in
      the lines that count, in order, each with what was declared before its brace, and then
      the declaration that waits for one; so long as declarations are followed by their
      braces and no brace is closed that was not opened. */
  lemma StackIsOpenBlocks(lines: seq<Line>, m: nat)
    requires m <= |lines| && true !in OpenAfter(lines, m)
    requires Clean(FileEvents(lines, m)) && NeverBelow(FileEvents(lines, m))
    ensures var es := FileEvents(lines, m);
      && Depth(es, |es|) >= 0 && Cores(Process(lines, m).stack) == OpenStack([], es, |es|)
      && |Process(lines, m).stack| == FileBraces(lines, m) + |Waiting(es, |es|)|
  {
    FileDepthIsBraces(lines, m);
    hide Process, Skipped, OpenAfter, FileEvents, Clean, NeverBelow, OpenStack, ApplyAll, WellMade;
    ElseRegionsDoNotCount(lines, m);
    FileIsEvents(lines, m);
    FileIsWellMade(lines, m);
    StackIsOpenBraces([], FileEvents(lines, m), |FileEvents(lines, m)|);
  }

  /** A file that closes what it opens leaves nothing on the stack. */
  lemma BalancedLeavesNothing(lines: seq<Line>, m: nat)
    requires m <= |lines| && true !in OpenAfter(lines, m)
    requires Clean(FileEvents(lines, m)) && NeverBelow(FileEvents(lines, m))
    requires FileBraces(lines, m) == 0 && Waiting(FileEvents(lines, m), |FileEvents(lines, m)|) == []
    ensures Process(lines, m).stack == []
  {
    hide Process, OpenAfter, FileEvents, Clean, NeverBelow;
    StackIsOpenBlocks(lines, m);
  }
}
