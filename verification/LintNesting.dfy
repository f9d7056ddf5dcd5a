/** The lint tool's tracker of nested blocks (NestingState in tools/cpplint.py): its
    checkpoints at preprocessor conditionals, and which text of a file it depends on. */
module LintNesting {
  import opened LintBlocks
  import opened Wrappers
  import Ahead = LintTemplates

  // ----- Preprocessor checkpoints -----

  datatype PreprocessorInfo = PreprocessorInfo(stackBeforeIf: seq<Block>, stackBeforeElse: seq<Block>, seenElse: bool)

  datatype Nesting = Nesting(stack: seq<Block>, ppStack: seq<PreprocessorInfo>)

  function Preprocess(s: Nesting, d: Directive): Nesting {
    var n := |s.ppStack|;
    match d
    case If => s.(ppStack := s.ppStack + [PreprocessorInfo(s.stack, [], false)])
    case Else =>
      if n == 0 then s
      else
        var top := s.ppStack[n - 1];
        var seen := if top.seenElse then top else top.(seenElse := true, stackBeforeElse := s.stack);
        Nesting(top.stackBeforeIf, s.ppStack[..n - 1] + [seen])
    case Endif =>
      if n == 0 then s
      else
        var top := s.ppStack[n - 1];
        Nesting(if top.seenElse then top.stackBeforeElse else s.stack, s.ppStack[..n - 1])
    case NoDirective => s
  }

  function After(s: Nesting, line: Line, number: nat, inside: bool): Nesting {
    var p := Preprocess(s, line.directive);
    p.(stack := BlocksAfter(p.stack, line, number, inside))
  }

  // ----- A file -----

  function Texts(lines: seq<Line>): (ts: seq<string>)
    ensures |ts| == |lines| && forall i :: 0 <= i < |lines| ==> ts[i] == lines[i].text
  {
    if lines == [] then [] else [lines[0].text] + Texts(lines[1..])
  }

  /** The look-ahead from the class declared on line i, in the text from there on. */
  function Verdict(lines: seq<Line>, i: nat): Ahead.Verdict
    requires i < |lines| && lines[i].classDecl.Some?
  {
    Ahead.LookAhead(Texts(lines[i..]), lines[i].classDecl.value.end)
  }

  predicate Inside(lines: seq<Line>, i: nat)
    requires i < |lines|
  {
    lines[i].classDecl.Some? && Verdict(lines, i) == Ahead.Inside
  }

  /** The state after the first m lines of a file. */
  function Process(lines: seq<Line>, m: nat): Nesting
    requires m <= |lines|
  {
    if m == 0 then Nesting([], [])
    else After(Process(lines, m - 1), lines[m - 1], m - 1, Inside(lines, m - 1))
  }

  class NestingState {
    var stack: seq<Block>
    var ppStack: seq<PreprocessorInfo>

    function View(): Nesting
      reads this
    {
      Nesting(stack, ppStack)
    }

    constructor ()
      ensures View() == Nesting([], [])
    {
      stack := [];
      ppStack := [];
    }

    method UpdatePreprocessor(directive: Directive)
      modifies this`stack, this`ppStack
      ensures View() == Preprocess(old(View()), directive)
    {
      if directive.If? {
        ppStack := ppStack + [PreprocessorInfo(stack, [], false)];
      } else if directive.Else? {
        if ppStack != [] {
          var top := ppStack[|ppStack| - 1];
          if !top.seenElse {
            top := top.(seenElse := true, stackBeforeElse := stack);
            ppStack := ppStack[..|ppStack| - 1] + [top];
          }
          stack := top.stackBeforeIf;
        }
      } else if directive.Endif? {
        if ppStack != [] {
          if ppStack[|ppStack| - 1].seenElse {
            stack := ppStack[|ppStack| - 1].stackBeforeElse;
          }
          ppStack := ppStack[..|ppStack| - 1];
        }
      }
    }

    method ConsumeNamespaces(namespaces: seq<NamespaceDecl>, number: nat)
      modifies this`stack
      ensures stack == PushNamespaces(old(stack), namespaces, number, |namespaces|)
    {
      for i := 0 to |namespaces|
        invariant stack == PushNamespaces(old(stack), namespaces, number, i)
      {
        stack := stack + [NewBlock(Namespace(namespaces[i].name), number, namespaces[i].opens)];
      }
    }

    method ConsumeTokens(tokens: seq<Token>, number: nat)
      modifies this`stack
      ensures stack == ConsumeAll(old(stack), tokens, number)
    {
      ghost var events := EventsOf(tokens, number);
      for i := 0 to |tokens|
        invariant stack == ApplyAll(old(stack), events, i)
      {
        var token := tokens[i];
        if token.OpenBrace? {
          if !SeenOpenBrace(stack) {
            stack := stack[..|stack| - 1] + [stack[|stack| - 1].(seenOpenBrace := true)];
          } else if token.externC {
            stack := stack + [NewBlock(ExternC, number, true)];
          } else if token.startsAsm {
            stack := stack + [NewBlock(Plain, number, true).(inlineAsm := BlockAsm)];
          } else {
            stack := stack + [NewBlock(Plain, number, true)];
          }
        } else if token.Semicolon? || token.CloseParen? {
          if !SeenOpenBrace(stack) {
            stack := stack[..|stack| - 1];
          }
        } else if stack != [] {
          stack := stack[..|stack| - 1];
        }
      }
    }

    /** Parentheses and inline assembly of the innermost block. */
    method CountInnermost(line: Line)
      modifies this`stack
      ensures stack == CountParentheses(old(stack), line)
    {
      if stack != [] {
        var inner := stack[|stack| - 1];
        inner := inner.(openParentheses := inner.openParentheses + line.depthChange);
        if inner.inlineAsm == NoAsm || inner.inlineAsm == EndAsm {
          if line.depthChange != 0 && inner.openParentheses == 1 && line.matchesAsm {
            inner := inner.(inlineAsm := InsideAsm);
          } else {
            inner := inner.(inlineAsm := NoAsm);
          }
        } else if inner.inlineAsm == InsideAsm && inner.openParentheses == 0 {
          inner := inner.(inlineAsm := EndAsm);
        }
        stack := stack[..|stack| - 1] + [inner];
      }
    }

    /** A class declared on the line, unless inside parentheses or a template's argument
        list; what is left of the line to look at. */
    method DeclareClass(lines: seq<Line>, linenum: nat) returns (tail: Tail)
      requires linenum < |lines|
      modifies this`stack
      ensures stack == WithClass(old(stack), lines[linenum], linenum, Inside(lines, linenum))
      ensures tail == TailAfter(old(stack), lines[linenum], Inside(lines, linenum))
    {
      hide Ahead.LookAhead;
      var line := lines[linenum];
      tail := line.tail;
      if line.classDecl.Some? && (stack == [] || stack[|stack| - 1].openParentheses == 0) {
        var d := line.classDecl.value;
        assert Texts(lines)[linenum..] == Texts(lines[linenum..]);
        var inside := Ahead.InTemplateArgumentList(Texts(lines), linenum, d.end);
        if !inside {
          var access := "private";
          if d.isStruct { access := "public"; }
          stack := stack + [Block(Class(d.name, d.isStruct, access, false), linenum, false, 0, NoAsm)];
          tail := d.rest;
        }
      }
    }

    method BeginInnermost(bareColon: bool)
      modifies this`stack
      ensures stack == CheckBegin(old(stack), bareColon)
    {
      if stack != [] {
        assert SetTop(stack, stack[|stack| - 1]) == stack;
        if !stack[|stack| - 1].seenOpenBrace {
          var inner := stack[|stack| - 1];
          if inner.kind.Class? && bareColon {
            stack := stack[..|stack| - 1] + [inner.(kind := inner.kind.(isDerived := true))];
          }
        }
      }
    }

    method UpdateAccess(access: Option<string>)
      modifies this`stack
      ensures stack == SetAccess(old(stack), access)
    {
      if stack != [] {
        assert SetTop(stack, stack[|stack| - 1]) == stack;
        if stack[|stack| - 1].kind.Class? && access.Some? {
          var inner := stack[|stack| - 1];
          stack := stack[..|stack| - 1] + [inner.(kind := inner.kind.(access := access.value))];
        }
      }
    }

    method Update(lines: seq<Line>, linenum: nat)
      requires linenum < |lines|
      modifies this
      ensures View() == After(old(View()), lines[linenum], linenum, Inside(lines, linenum))
    {
      hide Preprocess, CountParentheses, WithClass, TailAfter, CheckBegin, SetAccess, ConsumeAll, PushNamespaces,
        Inside;
      var line := lines[linenum];
      UpdatePreprocessor(line.directive);
      CountInnermost(line);
      ConsumeNamespaces(line.namespaces, linenum);
      var tail := DeclareClass(lines, linenum);
      BeginInnermost(line.bareColon);
      UpdateAccess(tail.access);
      ConsumeTokens(tail.tokens, linenum);
    }
  }

  // ----- Which lines count -----

  /** The open conditionals: true where #else or #elif has been seen. */
  function NextOpen(open: seq<bool>, d: Directive): seq<bool> {
    match d
    case If => open + [false]
    case Else => if open == [] then open else open[..|open| - 1] + [true]
    case Endif => if open == [] then open else open[..|open| - 1]
    case NoDirective => open
  }

  /** The conditionals open after m lines, when these were open before. */
  function OpenFrom(open: seq<bool>, lines: seq<Line>, m: nat): seq<bool>
    requires m <= |lines|
  {
    if m == 0 then open else NextOpen(OpenFrom(open, lines, m - 1), lines[m - 1].directive)
  }

  function OpenAfter(lines: seq<Line>, m: nat): seq<bool>
    requires m <= |lines|
  {
    OpenFrom([], lines, m)
  }

  /** A line is skipped from the first #else or #elif of a conditional up to its #endif. */
  predicate IsKept(lines: seq<Line>, i: nat)
    requires i < |lines|
  {
    true !in OpenAfter(lines, i + 1)
  }

  /** The state after m lines when the updates for skipped lines are left out. */
  function Skipped(lines: seq<Line>, m: nat): Nesting
    requires m <= |lines|
  {
    if m == 0 then Nesting([], [])
    else if IsKept(lines, m - 1) then After(Skipped(lines, m - 1), lines[m - 1], m - 1, Inside(lines, m - 1))
    else Skipped(lines, m - 1)
  }

  /** The outermost conditional whose #else or #elif has been seen. */
  function FirstElse(open: seq<bool>): (m: nat)
    requires true in open
    ensures m < |open| && open[m] && true !in open[..m]
  {
    if open[0] then 0 else
      assert open == [open[0]] + open[1..];
      1 + FirstElse(open[1..])
  }

  lemma {:induction false} FirstElseIsFirst(open: seq<bool>, i: nat)
    requires i < |open| && open[i]
    ensures true in open && FirstElse(open) <= i
  {
    if !open[0] { FirstElseIsFirst(open[1..], i - 1); }
  }

  lemma FirstElseIs(open: seq<bool>, m: nat)
    requires m < |open| && open[m] && true !in open[..m]
    ensures true in open && FirstElse(open) == m
  {
    FirstElseIsFirst(open, m);
    assert forall i :: 0 <= i < m ==> open[..m][i] == open[i];
  }

  /** How the tracker that saw every line relates to the one that saw only the kept
      lines: equal outside #else regions, frozen at the outermost #else inside one. */
  ghost predicate Tracks(full: Nesting, kept: Nesting, open: seq<bool>) {
    && |full.ppStack| == |open|
    && (forall i :: 0 <= i < |open| ==> full.ppStack[i].seenElse == open[i])
    && if true !in open then full == kept
       else
         var m := FirstElse(open);
         && kept.stack == full.ppStack[m].stackBeforeElse
         && kept.ppStack == full.ppStack[..m] + [PreprocessorInfo(full.ppStack[m].stackBeforeIf, [], false)]
  }

  lemma OutermostElseStays(open: seq<bool>, d: Directive)
    requires true in open && true in NextOpen(open, d)
    ensures FirstElse(NextOpen(open, d)) == FirstElse(open) < |NextOpen(open, d)|
    ensures NextOpen(open, d)[..FirstElse(open)] == open[..FirstElse(open)]
  {
    var next, m := NextOpen(open, d), FirstElse(open);
    var i :| 0 <= i < |next| && next[i];
    if i < |open| && open[i] { FirstElseIsFirst(open, i); }
    assert next[..m] == open[..m] && next[m];
    FirstElseIs(next, m);
  }

  lemma SkippedLineKeepsCheckpoint(full: Nesting, open: seq<bool>, d: Directive)
    requires |full.ppStack| == |open| && forall i :: 0 <= i < |open| ==> full.ppStack[i].seenElse == open[i]
    requires true in open && FirstElse(open) < |NextOpen(open, d)|
    ensures var p, m := Preprocess(full, d).ppStack, FirstElse(open);
      && |p| == |NextOpen(open, d)|
      && (forall i :: 0 <= i < |p| ==> p[i].seenElse == NextOpen(open, d)[i])
      && p[m] == full.ppStack[m] && p[..m] == full.ppStack[..m]
  {
    hide FirstElse;
  }

  lemma SkippedLineKeepsTracks(full: Nesting, kept: Nesting, open: seq<bool>, line: Line, n: nat, inside: bool)
    requires Tracks(full, kept, open) && true in open && true in NextOpen(open, line.directive)
    ensures Tracks(After(full, line, n, inside), kept, NextOpen(open, line.directive))
  {
    hide BlocksAfter, FirstElse, Preprocess, NextOpen;
    OutermostElseStays(open, line.directive);
    SkippedLineKeepsCheckpoint(full, open, line.directive);
  }

  lemma KeptLineTracks(full: Nesting, kept: Nesting, open: seq<bool>, line: Line, n: nat, inside: bool)
    requires Tracks(full, kept, open) && true !in open && true !in NextOpen(open, line.directive)
    ensures Tracks(After(full, line, n, inside), After(kept, line, n, inside), NextOpen(open, line.directive))
  {
    hide BlocksAfter;
  }

  lemma ElseStartsSkipping(full: Nesting, kept: Nesting, open: seq<bool>, line: Line, n: nat, inside: bool)
    requires Tracks(full, kept, open) && true !in open && true in NextOpen(open, line.directive)
    requires forall i :: 0 <= i < |full.ppStack| ==> full.ppStack[i].stackBeforeElse == []
    ensures Tracks(After(full, line, n, inside), kept, NextOpen(open, line.directive))
  {
    hide BlocksAfter;
    var next := NextOpen(open, line.directive);
    assert line.directive.Else? && open != [];
    var m := |open| - 1;
    assert next[..m] == open[..m];
    FirstElseIs(next, m);
    assert full.ppStack == full.ppStack[..m] + [full.ppStack[m]];
  }

  lemma EndifClosesOutermost(open: seq<bool>, d: Directive)
    requires true in open && true !in NextOpen(open, d)
    ensures d == Endif && FirstElse(open) == |open| - 1
  {
    var next, m := NextOpen(open, d), FirstElse(open);
    assert forall i :: 0 <= i < |next| ==> !next[i];
  }

  lemma EndifResumes(full: Nesting, kept: Nesting, open: seq<bool>, line: Line, n: nat, inside: bool)
    requires Tracks(full, kept, open) && true in open && true !in NextOpen(open, line.directive)
    ensures Tracks(After(full, line, n, inside), After(kept, line, n, inside), NextOpen(open, line.directive))
  {
    EndifClosesOutermost(open, line.directive);
    hide BlocksAfter, FirstElse;
    assert kept.ppStack[..|open| - 1] == full.ppStack[..|open| - 1];
    assert Preprocess(full, Endif) == Preprocess(kept, Endif);
  }

  ghost predicate CheckpointsEmpty(s: Nesting) {
    forall i :: 0 <= i < |s.ppStack| && !s.ppStack[i].seenElse ==> s.ppStack[i].stackBeforeElse == []
  }

  /** Checkpoints of conditionals still in their first branch hold no #else stack. */
  lemma {:induction false} CheckpointsStayEmpty(lines: seq<Line>, m: nat)
    requires m <= |lines|
    ensures CheckpointsEmpty(Process(lines, m))
  {
    hide BlocksAfter, Inside;
    if m > 0 { CheckpointsStayEmpty(lines, m - 1); }
  }

  /** For any text at all, balanced or not, at every line. */
  lemma {:induction false} SkippedTracks(lines: seq<Line>, m: nat)
    requires m <= |lines|
    ensures Tracks(Process(lines, m), Skipped(lines, m), OpenAfter(lines, m))
  {
    hide After, FirstElse, NextOpen, Inside;
    if m == 0 {
    } else {
      hide Tracks;
      SkippedTracks(lines, m - 1);
      CheckpointsStayEmpty(lines, m - 1);
      var line, inside := lines[m - 1], Inside(lines, m - 1);
      var full, kept, open := Process(lines, m - 1), Skipped(lines, m - 1), OpenAfter(lines, m - 1);
      SkippedTracksNext(full, kept, open, line, m - 1, inside);
    }
  }

  lemma SkippedTracksNext(full: Nesting, kept: Nesting, open: seq<bool>, line: Line, n: nat, inside: bool)
    requires Tracks(full, kept, open) && CheckpointsEmpty(full)
    ensures var next := NextOpen(open, line.directive);
      Tracks(After(full, line, n, inside), if true in next then kept else After(kept, line, n, inside), next)
  {
    hide After, FirstElse, NextOpen;
    if true in NextOpen(open, line.directive) {
      if true in open {
        SkippedLineKeepsTracks(full, kept, open, line, n, inside);
      } else {
        ElseStartsSkipping(full, kept, open, line, n, inside);
      }
    } else if true in open {
      EndifResumes(full, kept, open, line, n, inside);
    } else {
      KeptLineTracks(full, kept, open, line, n, inside);
    }
  }

  /** Outside #else regions the tracker is where it would be had it not been updated for
      the lines of those regions. */
  lemma ElseRegionsDoNotCount(lines: seq<Line>, m: nat)
    requires m <= |lines| && true !in OpenAfter(lines, m)
    ensures Process(lines, m) == Skipped(lines, m)
  {
    SkippedTracks(lines, m);
    hide Process, Skipped, OpenAfter;
  }
}
