/** What the lint tool's tracker makes of the branches of a preprocessor conditional: each is
    read as though it were the only text after the #if. */
module LintBranches {
  import opened LintBlocks
  import opened LintNesting

  /** How many conditionals are open before line m: an #endif too many opens none. */
  function Conditionals(lines: seq<Line>, m: nat): nat
    requires m <= |lines|
  {
    if m == 0 then 0
    else
      var d := Conditionals(lines, m - 1);
      if lines[m - 1].directive == If then d + 1
      else if lines[m - 1].directive == Endif && d > 0 then d - 1
      else d
  }

  /** The conditional begun on line i is still open before line j. */
  ghost predicate StillOpen(lines: seq<Line>, i: nat, j: nat) {
    && i < j <= |lines| && lines[i].directive == If
    && forall k :: i < k <= j ==> Conditionals(lines, k) > Conditionals(lines, i)
  }

  /** And it is the innermost one there. */
  ghost predicate BelongsTo(lines: seq<Line>, i: nat, j: nat) {
    StillOpen(lines, i, j) && Conditionals(lines, j) == Conditionals(lines, i) + 1
  }

  lemma {:induction false} CheckpointsCount(lines: seq<Line>, m: nat)
    requires m <= |lines|
    ensures |Process(lines, m).ppStack| == Conditionals(lines, m)
  {
    hide BlocksAfter, Inside;
    if m > 0 { CheckpointsCount(lines, m - 1); }
  }

  lemma OneLine(lines: seq<Line>, m: nat)
    requires m < |lines|
    ensures Process(lines, m + 1) == After(Process(lines, m), lines[m], m, Inside(lines, m))
  {
    hide After, Inside;
  }

  /** A line that begins a conditional keeps the stack from before it. */
  lemma BeginsConditional(s: Nesting, line: Line, n: nat, inside: bool)
    requires line.directive == If
    ensures var p := After(s, line, n, inside).ppStack;
      |p| == |s.ppStack| + 1 && p[|s.ppStack|].stackBeforeIf == s.stack
  {
    hide BlocksAfter;
  }

  /** An #else or #elif goes back to what the innermost checkpoint holds. */
  lemma GoesBack(s: Nesting, line: Line, n: nat, inside: bool)
    requires line.directive == Else && s.ppStack != []
    ensures After(s, line, n, inside).stack ==
      BlocksAfter(s.ppStack[|s.ppStack| - 1].stackBeforeIf, line, n, inside)
  {
    hide BlocksAfter;
  }

  /** One line leaves the checkpoints below the conditionals still open. */
  lemma CheckpointStays(s: Nesting, line: Line, n: nat, inside: bool, d: nat)
    requires d < |s.ppStack| && d < |After(s, line, n, inside).ppStack|
    ensures After(s, line, n, inside).ppStack[d].stackBeforeIf == s.ppStack[d].stackBeforeIf
  {
    hide BlocksAfter;
  }

  /** As long as a conditional is open, its checkpoint holds the stack from before its #if. */
  lemma {:induction false} CheckpointHolds(lines: seq<Line>, i: nat, m: nat)
    requires StillOpen(lines, i, m)
    ensures |Process(lines, m).ppStack| == Conditionals(lines, m) > Conditionals(lines, i)
    ensures Process(lines, m).ppStack[Conditionals(lines, i)].stackBeforeIf == Process(lines, i).stack
    decreases m
  {
    hide Process, After, Inside, Conditionals;
    CheckpointsCount(lines, i);
    CheckpointsCount(lines, m);
    assert Conditionals(lines, m) > Conditionals(lines, i);
    OneLine(lines, m - 1);
    if m == i + 1 {
      BeginsConditional(Process(lines, i), lines[i], i, Inside(lines, i));
    } else {
      CheckpointHolds(lines, i, m - 1);
      CheckpointStays(Process(lines, m - 1), lines[m - 1], m - 1, Inside(lines, m - 1), Conditionals(lines, i));
    }
  }

  /** An #else or #elif goes back to the stack from before the #if it belongs to. */
  lemma ElseGoesBack(lines: seq<Line>, i: nat, j: nat)
    requires j < |lines| && lines[j].directive == Else && BelongsTo(lines, i, j)
    ensures Process(lines, j + 1).stack == BlocksAfter(Process(lines, i).stack, lines[j], j, Inside(lines, j))
  {
    hide Process, After, BlocksAfter, Inside, Conditionals;
    CheckpointHolds(lines, i, j);
    OneLine(lines, j);
    GoesBack(Process(lines, j), lines[j], j, Inside(lines, j));
  }

  // ----- The text of a branch -----

  /** Line j begins a branch that goes on up to line t: what is begun inside it is over by
      its next #else, #elif or #endif. */
  ghost predicate IsBranch(lines: seq<Line>, j: nat, t: nat) {
    && j < t <= |lines| && Conditionals(lines, j + 1) > 0
    && (forall k :: j < k <= t ==> Conditionals(lines, k) >= Conditionals(lines, j + 1))
    && forall k :: j < k < t && lines[k].directive == Else ==> Conditionals(lines, k) > Conditionals(lines, j + 1)
  }

  /** The tracker begun in state s before line j, after the lines up to t. */
  function ProcessFrom(s: Nesting, lines: seq<Line>, j: nat, t: nat): Nesting
    requires j <= t <= |lines|
    decreases t
  {
    if t == j then s else After(ProcessFrom(s, lines, j, t - 1), lines[t - 1], t - 1, Inside(lines, t - 1))
  }

  /** The outer conditionals have no part in a line that does not end them. */
  lemma OuterStays(base: seq<PreprocessorInfo>, s: Nesting, line: Line, n: nat, inside: bool)
    requires line.directive == Else || line.directive == Endif ==> s.ppStack != []
    ensures var s' := After(s, line, n, inside);
      After(Nesting(s.stack, base + s.ppStack), line, n, inside) == Nesting(s'.stack, base + s'.ppStack)
  {
    hide BlocksAfter;
    var all := base + s.ppStack;
    assert line.directive == If ==>
      all + [PreprocessorInfo(s.stack, [], false)] == base + (s.ppStack + [PreprocessorInfo(s.stack, [], false)]);
    if s.ppStack != [] {
      assert all[|all| - 1] == s.ppStack[|s.ppStack| - 1];
      assert all[..|all| - 1] == base + s.ppStack[..|s.ppStack| - 1];
    }
  }

  /** Inside a branch only a conditional begun there has an #else or #endif. */
  lemma InnerIsOpen(lines: seq<Line>, j: nat, t: nat, inner: nat)
    requires IsBranch(lines, j, t) && t > j + 1 && Conditionals(lines, t - 1) == Conditionals(lines, j + 1) + inner
    ensures lines[t - 1].directive == Else || lines[t - 1].directive == Endif ==> inner > 0
  {
    assert Conditionals(lines, t) >= Conditionals(lines, j + 1);
  }

  lemma {:induction false} BranchFromThere(lines: seq<Line>, j: nat, t: nat)
    requires IsBranch(lines, j, t)
    ensures var here := Process(lines, j + 1);
      var sub := ProcessFrom(Nesting(here.stack, []), lines, j + 1, t);
      && Process(lines, t) == Nesting(sub.stack, here.ppStack + sub.ppStack)
      && |here.ppStack| == Conditionals(lines, j + 1)
    decreases t
  {
    hide Process, After, Inside, Conditionals;
    var here := Process(lines, j + 1);
    CheckpointsCount(lines, j + 1);
    if t == j + 1 {
      assert here.ppStack + [] == here.ppStack;
    } else {
      BranchFromThere(lines, j, t - 1);
      CheckpointsCount(lines, t - 1);
      var sub := ProcessFrom(Nesting(here.stack, []), lines, j + 1, t - 1);
      OneLine(lines, t - 1);
      InnerIsOpen(lines, j, t, |sub.ppStack|);
      OuterStays(here.ppStack, sub, lines[t - 1], t - 1, Inside(lines, t - 1));
    }
  }

  /** So every line of an #else or #elif branch is read as if nothing stood between the #if
      and it: the stack is what the branch, begun on the stack from before the #if, makes. */
  lemma BranchStandsAlone(lines: seq<Line>, i: nat, j: nat, t: nat)
    requires j < |lines| && lines[j].directive == Else && BelongsTo(lines, i, j) && IsBranch(lines, j, t)
    ensures var begun := BlocksAfter(Process(lines, i).stack, lines[j], j, Inside(lines, j));
      Process(lines, t).stack == ProcessFrom(Nesting(begun, []), lines, j + 1, t).stack
  {
    ElseGoesBack(lines, i, j);
    BranchFromThere(lines, j, t);
    hide Process, ProcessFrom, BlocksAfter, Inside;
  }
}
