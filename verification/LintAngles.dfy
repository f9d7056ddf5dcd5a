/** Angle brackets read backward: where the lint tool's reverse search takes them for
    brackets (FindStartOfExpressionInLine and ReverseCloseExpression in tools/cpplint.py). */
module LintAngles {
  import opened LintBrackets
  import opened Wrappers
  import opened LintTemplates

  /** Plain nesting of four kinds of brackets, read backward. */
  function NestBack(stack: seq<char>, c: char): Option<seq<char>> {
    if c in ")]}>" then Some(stack + [c])
    else if c in "([{<" then
      if stack != [] && Partner(c) == stack[|stack| - 1] then Some(stack[..|stack| - 1]) else None
    else Some(stack)
  }

  /** The character is no semicolon, and no part of an operator or an arrow. */
  predicate IsPlainBack(line: string, i: nat)
    requires i < |line|
  {
    && line[i] != ';'
    && (line[i] == '<' && i > 0 ==> line[i - 1] != '<')
    && (line[i] == '>' && i > 0 ==>
         line[i - 1] != '-' && !IsSpacedGreaterEqual(line[i - 1..]) && !EndsWithOperator(line[..i]))
  }

  /** Read backward from column i of line n with these brackets open, plain text opens the
      last of them at column p of line l. */
  predicate NestedBack(lines: seq<string>, n: nat, i: int, stack: seq<char>, l: nat, p: nat)
    decreases n, i + 1
  {
    && n < |lines| && -1 <= i < |lines[n]|
    && if i < 0 then n > 0 && stack != [] && NestedBack(lines, n - 1, |lines[n - 1]| - 1, stack, l, p)
       else
         && IsPlainBack(lines[n], i)
         && var next := NestBack(stack, lines[n][i]);
            next.Some? && if next.value == [] then l == n && p == i else NestedBack(lines, n, i - 1, next.value, l, p)
  }

  predicate OnlyClosers(stack: seq<char>) { forall j :: 0 <= j < |stack| ==> stack[j] in ")]}>" }

  lemma NestedBackStep(line: string, i: nat, stack: seq<char>)
    requires i < |line| && IsPlainBack(line, i) && OnlyClosers(stack) && NestBack(stack, line[i]).Some?
    requires stack != [] || line[i] in ")]}>"
    ensures var next := NestBack(stack, line[i]).value;
      OnlyClosers(next) && StepBackward(line, i, stack) == if next == [] then Found else Go(next, 1)
  {
    hide EndsWithOperator, IsSpacedGreaterEqual;
  }

  lemma ScanLinesBackStep(lines: seq<string>, n: nat, i: nat, stack: seq<char>)
    requires n < |lines| && i < |lines[n]|
    ensures match StepBackward(lines[n], i, stack)
            case Go(next, width) => width == 1 ==>
              ScanLinesBack(lines, n, i, stack) == ScanLinesBack(lines, n, i - 1, next)
            case Found => ScanLinesBack(lines, n, i, stack) == EndsAt(n, i)
            case GiveUp => ScanLinesBack(lines, n, i, stack) == NeverEnds
  {
    ScanLineBackTurn(lines[n], i, stack);
    hide ScanLineBack, StepBackward;
  }

  lemma ScanLinesBackNext(lines: seq<string>, n: nat, stack: seq<char>)
    requires 0 < n < |lines| && stack != []
    ensures ScanLinesBack(lines, n, -1, stack) == ScanLinesBack(lines, n - 1, |lines[n - 1]| - 1, stack)
  {
    ScanLineBackTurn(lines[n], -1, stack);
    hide ScanLineBack;
  }

  /** Text in which all four kinds of brackets nest is read as nested. */
  lemma {:induction false} NestedTextOpens(lines: seq<string>, n: nat, i: int, stack: seq<char>, l: nat, p: nat)
    requires NestedBack(lines, n, i, stack, l, p) && OnlyClosers(stack)
    requires stack != [] || (i >= 0 && lines[n][i] in ")]}>")
    ensures ScanLinesBack(lines, n, i, stack) == EndsAt(l, p)
    decreases n, i + 1
  {
    hide StepBackward, ScanLinesBack, IsPlainBack, OnlyClosers, NestBack;
    if i < 0 {
      ScanLinesBackNext(lines, n, stack);
      NestedTextOpens(lines, n - 1, |lines[n - 1]| - 1, stack, l, p);
    } else {
      NestedBackStep(lines[n], i, stack);
      ScanLinesBackStep(lines, n, i, stack);
      var next := NestBack(stack, lines[n][i]).value;
      if next != [] { NestedTextOpens(lines, n, i - 1, next, l, p); }
    }
  }

  /** So a closing angle bracket whose text nests is taken to open where it does. */
  lemma AngleOpens(lines: seq<string>, n: nat, pos: nat, l: nat, p: nat)
    requires n < |lines| && pos < |lines[n]| && lines[n][pos] == '>' && NestedBack(lines, n, pos, [], l, p)
    ensures ScanLinesBack(lines, n, pos, []) == EndsAt(l, p)
  {
    hide ScanLinesBack, NestedBack;
    NestedTextOpens(lines, n, pos, [], l, p);
  }

  /** What is not plain: arrows, spaced comparisons, the operator's own name and shifts are
      passed over together with the character before them. */
  lemma OperatorsPassBack(line: string, i: nat, stack: seq<char>)
    requires 0 < i < |line|
    ensures line[i] == '>' && line[i - 1] == '-' ==> StepBackward(line, i, stack) == Go(stack, 2)
    ensures line[i] == '>' && (IsSpacedGreaterEqual(line[i - 1..]) || EndsWithOperator(line[..i])) ==>
      StepBackward(line, i, stack) == Go(stack, 2)
    ensures line[i] == '<' && line[i - 1] == '<' ==> StepBackward(line, i, stack) == Go(stack, 2)
  {
    hide EndsWithOperator, IsSpacedGreaterEqual;
  }

  /** A semicolon ends the angle brackets begun last, and the search if nothing else is open. */
  lemma {:induction false} SemicolonEndsBack(line: string, i: nat, stack: seq<char>, m: nat)
    requires i < |line| && line[i] == ';' && m <= |stack| && (m > 0 ==> stack[m - 1] != '>')
    requires forall j :: m <= j < |stack| ==> stack[j] == '>'
    ensures StepBackward(line, i, stack) == if m == 0 then GiveUp else Go(stack[..m], 1)
    decreases |stack|
  {
    if |stack| > m {
      SemicolonEndsBack(line, i, stack[..|stack| - 1], m);
      assert stack[..|stack| - 1][..m] == stack[..m];
    } else {
      assert stack[..m] == stack;
    }
  }

  /** An opening bracket likewise. */
  lemma {:induction false} OpeningEnds(line: string, i: nat, stack: seq<char>, m: nat)
    requires i < |line| && line[i] in "([{" && m <= |stack| && (m > 0 ==> stack[m - 1] in ")]}")
    requires forall j :: m <= j < |stack| ==> stack[j] == '>'
    ensures StepBackward(line, i, stack) ==
      if m == 0 || Partner(line[i]) != stack[m - 1] then GiveUp else if m == 1 then Found else Go(stack[..m - 1], 1)
    decreases |stack|
  {
    if |stack| > m {
      OpeningEnds(line, i, stack[..|stack| - 1], m);
      assert m > 0 ==> stack[..|stack| - 1][..m - 1] == stack[..m - 1];
    }
  }
}
