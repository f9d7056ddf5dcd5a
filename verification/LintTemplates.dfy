/** The lint tool's look-ahead that tells a class declaration from a template argument
    (InTemplateArgumentList in tools/cpplint.py), and how far it depends on what follows. */
module LintTemplates {
  import opened LintBrackets
  import opened Wrappers

  /** Inside or outside a template's argument list, or not decided where the text ends; the
      stack is then what is open of an angle bracket being matched, empty if none is. */
  datatype Verdict = Inside | Outside | Undecided(stack: seq<char>)

  predicate Deciding(c: char) {
    c == '{' || c == '}' || c == ';' || c == '=' || c == '[' || c == ']' || c == '.' || c == '<' || c == '>'
  }

  /** The first character from column i on that may decide. */
  function NextDeciding(line: string, i: nat): (k: nat)
    requires i <= |line|
    ensures i <= k <= |line| && (k < |line| ==> Deciding(line[k]))
    ensures forall j :: i <= j < k ==> !Deciding(line[j])
    decreases |line| - i
  {
    if i < |line| && !Deciding(line[i]) then NextDeciding(line, i + 1) else i
  }

  /** The look-ahead from column pos of the first line. */
  function LookAhead(lines: seq<string>, pos: nat): Verdict
    decreases |lines|, if lines != [] && pos <= |lines[0]| then |lines[0]| - pos else 0
  {
    if lines == [] then Undecided([])
    else
      var line := lines[0];
      var k := if pos < |line| then NextDeciding(line, pos) else |line|;
      if k == |line| then LookAhead(lines[1..], 0)
      else if line[k] == '{' || line[k] == '}' || line[k] == ';' then Outside
      else if line[k] != '<' then Inside
      else AfterAngle(lines, ScanFrom(lines, k), pos)
  }

  /** Going on behind the closing angle bracket. */
  function AfterAngle(lines: seq<string>, r: Scan, pos: nat): Verdict
    requires lines != [] && pos <= |lines[0]|
    requires r.EndsAt? ==> r.line < |lines| && r.pos <= |lines[r.line]| && (r.line == 0 ==> pos < r.pos)
    decreases |lines|, |lines[0]| - pos, 0
  {
    match r
    case EndsAt(l, p) => LookAhead(lines[l..], p)
    case NeverEnds => Outside
    case StillOpen(stack) => Undecided(stack)
  }

  /** One turn of the look-ahead, by the line it is on. */
  lemma LookAheadTurn(lines: seq<string>, n: nat, i: nat)
    requires n < |lines|
    ensures var line := lines[n];
      var k := if i < |line| then NextDeciding(line, i) else |line|;
      LookAhead(lines[n..], i) ==
        if k == |line| then LookAhead(lines[n + 1..], 0)
        else if line[k] == '{' || line[k] == '}' || line[k] == ';' then Outside
        else if line[k] != '<' then Inside
        else
          match ScanFrom(lines[n..], k)
          case EndsAt(l, p) => LookAhead(lines[n + l..], p)
          case NeverEnds => Outside
          case StillOpen(stack) => Undecided(stack)
  {
    hide NextDeciding, ScanFrom;
    var line, rest := lines[n], lines[n..];
    assert rest[0] == line && rest[1..] == lines[n + 1..];
    var k := if i < |line| then NextDeciding(line, i) else |line|;
    if k < |line| && line[k] == '<' && ScanFrom(rest, k).EndsAt? {
      var l := ScanFrom(rest, k).line;
      assert rest[l..] == lines[n + l..];
    }
  }

  method InTemplateArgumentList(lines: seq<string>, linenum: nat, pos: nat) returns (inside: bool)
    requires linenum < |lines|
    ensures inside <==> LookAhead(lines[linenum..], pos) == Inside
  {
    hide LookAhead, ScanFrom, Closes, Matches;
    var n: nat, i: nat := linenum, pos;
    while n < |lines|
      invariant n <= |lines|
      invariant LookAhead(lines[n..], i) == LookAhead(lines[linenum..], pos)
      decreases |lines| - n, if n < |lines| && i <= |lines[n]| then |lines[n]| - i else 0
    {
      var line := lines[n];
      LookAheadTurn(lines, n, i);
      if i >= |line| {
        n, i := n + 1, 0;
        continue;
      }
      var k := NextDeciding(line, i);
      var last := if k < |line| then k else |line| - 1;
      var token := line[last];
      i := last + 1;
      if token == '{' || token == '}' || token == ';' {
        return false;
      }
      if token == '>' || token == '=' || token == '[' || token == ']' || token == '.' {
        return true;
      }
      if token != '<' {
        n, i := n + 1, 0;
        continue;
      }
      var _, endLine, endPos := CloseExpression(lines, n, i - 1);
      if endPos < 0 {
        return false;
      }
      n, i := endLine, endPos;
    }
    assert lines[n..] == [];
    NothingLeft(i);
    return false;
  }

  lemma NothingLeft(i: nat)
    ensures LookAhead([], i) == Undecided([])
  {
  }

  // ----- What is decided stays decided -----

  /** What a search that found r in n lines finds when `more` follows them. */
  function ScanOn(r: Scan, n: nat, more: seq<string>): Scan
    requires more != []
  {
    if r.StillOpen? then Later(ScanLines(more, 0, r.stack), n) else r
  }

  lemma {:induction false} ScanLinesGoOn(lines: seq<string>, more: seq<string>, i: nat, stack: seq<char>)
    requires lines != [] && more != [] && i <= |lines[0]|
    ensures ScanLines(lines + more, i, stack) == ScanOn(ScanLines(lines, i, stack), |lines|, more)
    ensures ScanLines(lines, i, stack).StillOpen? ==> ScanLines(lines, i, stack).stack != []
    decreases |lines|
  {
    hide ScanLine;
    var r := ScanLine(lines[0], i, stack);
    assert (lines + more)[0] == lines[0] && (lines + more)[1..] == lines[1..] + more;
    if r.StillOpen? && r.stack != [] {
      if |lines| == 1 {
        assert (lines + more)[1..] == more;
      } else {
        ScanLinesGoOn(lines[1..], more, 0, r.stack);
      }
    }
  }

  /** What the look-ahead finds in the lines after those that left it undecided. */
  function Resume(more: seq<string>, stack: seq<char>): Verdict {
    if more == [] then Undecided(stack)
    else if stack == [] then LookAhead(more, 0)
    else
      match ScanLines(more, 0, stack)
      case EndsAt(l, p) => LookAhead(more[l..], p)
      case NeverEnds => Outside
      case StillOpen(rest) => Undecided(rest)
  }

  function GoOn(v: Verdict, more: seq<string>): Verdict { if v.Undecided? then Resume(more, v.stack) else v }

  lemma {:induction false} LookAheadGoesOn(lines: seq<string>, more: seq<string>, pos: nat)
    requires more != [] && (lines == [] ==> pos == 0)
    ensures LookAhead(lines + more, pos) == GoOn(LookAhead(lines, pos), more)
    decreases |lines|, if lines != [] && pos <= |lines[0]| then |lines[0]| - pos else 0
  {
    if lines == [] {
      assert lines + more == more;
    } else {
      var line, all := lines[0], lines + more;
      assert all[0] == line && all[1..] == lines[1..] + more;
      var k := if pos < |line| then NextDeciding(line, pos) else |line|;
      if k == |line| {
        LookAheadGoesOn(lines[1..], more, 0);
      } else if line[k] == '<' {
        AngleGoesOn(lines, more, k, pos);
      }
    }
  }

  lemma ScanFromGoesOn(lines: seq<string>, more: seq<string>, k: nat)
    requires more != [] && lines != [] && k < |lines[0]|
    ensures (lines + more)[0] == lines[0]
    ensures ScanFrom(lines + more, k) == ScanOn(ScanFrom(lines, k), |lines|, more)
    ensures ScanFrom(lines, k).StillOpen? ==> ScanFrom(lines, k).stack != []
  {
    assert (lines + more)[0] == lines[0];
    ScanLinesGoOn(lines, more, k, []);
    hide ScanLines;
  }

  lemma AngleGoesOn(lines: seq<string>, more: seq<string>, k: nat, pos: nat)
    requires more != [] && lines != [] && pos <= k < |lines[0]|
    ensures AfterAngle(lines + more, ScanFrom(lines + more, k), pos)
            == GoOn(AfterAngle(lines, ScanFrom(lines, k), pos), more)
    decreases |lines|, |lines[0]| - pos, 0
  {
    hide ScanFrom, ScanLines, LookAhead;
    var r, all := ScanFrom(lines, k), lines + more;
    ScanFromGoesOn(lines, more, k);
    match r {
      case EndsAt(l, p) =>
        assert all[l..] == lines[l..] + more;
        LookAheadGoesOn(lines[l..], more, p);
      case NeverEnds =>
      case StillOpen(stack) =>
        var s := ScanLines(more, 0, stack);
        if s.EndsAt? { assert all[|lines| + s.line..] == more[s.line..]; }
    }
  }

  // ----- What is not decided depends on what follows -----

  function Closer(c: char): char { if c == '<' then '>' else Flip(c) }

  /** The text that closes what is open, innermost first: its first m characters. */
  function Closers(stack: seq<char>, m: nat): (r: string)
    requires m <= |stack|
    ensures |r| == m && forall j :: 0 <= j < m ==> r[j] == Closer(stack[|stack| - 1 - j])
  {
    if m == 0 then [] else Closers(stack, m - 1) + [Closer(stack[|stack| - m])]
  }

  predicate AllOpeners(stack: seq<char>) {
    forall i :: 0 <= i < |stack| ==> IsOpen(stack[i]) || stack[i] == '<'
  }

  predicate AllClosers(s: string) {
    forall i :: 0 <= i < |s| ==> IsClose(s[i]) || s[i] == '>'
  }

  lemma {:induction false} DropKeepsOpeners(stack: seq<char>)
    requires AllOpeners(stack)
    ensures AllOpeners(DropTentative(stack, '<'))
  {
    if stack != [] && stack[|stack| - 1] == '<' { DropKeepsOpeners(stack[..|stack| - 1]); }
  }

  lemma StepKeepsOpeners(line: string, i: nat, stack: seq<char>)
    requires i < |line| && AllOpeners(stack)
    ensures StepForward(line, i, stack).Go? ==> AllOpeners(StepForward(line, i, stack).stack)
  {
    DropKeepsOpeners(stack);
    hide DropTentative, EndsWithOperator;
  }

  lemma {:induction false} LineKeepsOpeners(line: string, i: nat, stack: seq<char>)
    requires i <= |line| && AllOpeners(stack)
    ensures ScanLine(line, i, stack).StillOpen? ==> AllOpeners(ScanLine(line, i, stack).stack)
    decreases |line| - i
  {
    hide AllOpeners, StepForward;
    if i < |line| {
      StepKeepsOpeners(line, i, stack);
      if StepForward(line, i, stack).Go? { LineKeepsOpeners(line, i + 1, StepForward(line, i, stack).stack); }
    }
  }

  lemma {:induction false} LinesKeepOpeners(lines: seq<string>, i: nat, stack: seq<char>)
    requires lines != [] && i <= |lines[0]| && AllOpeners(stack)
    ensures ScanLines(lines, i, stack).StillOpen? ==> AllOpeners(ScanLines(lines, i, stack).stack)
    decreases |lines|
  {
    hide AllOpeners, ScanLine;
    LineKeepsOpeners(lines[0], i, stack);
    var r := ScanLine(lines[0], i, stack);
    if r.StillOpen? && r.stack != [] && |lines| > 1 { LinesKeepOpeners(lines[1..], 0, r.stack); }
  }

  lemma {:induction false} LookAheadKeepsOpeners(lines: seq<string>, pos: nat)
    ensures LookAhead(lines, pos).Undecided? ==> AllOpeners(LookAhead(lines, pos).stack)
    decreases |lines|, if lines != [] && pos <= |lines[0]| then |lines[0]| - pos else 0
  {
    if lines != [] {
      var line := lines[0];
      var k := if pos < |line| then NextDeciding(line, pos) else |line|;
      if k == |line| {
        LookAheadKeepsOpeners(lines[1..], 0);
      } else if line[k] == '<' {
        LinesKeepOpeners(lines, k, []);
        hide AllOpeners, ScanLines;
        var r := ScanFrom(lines, k);
        if r.EndsAt? { LookAheadKeepsOpeners(lines[r.line..], r.pos); }
      }
    }
  }

  lemma ClosersEndInNoOperator(s: string)
    requires AllClosers(s)
    ensures !EndsWithOperator(s)
  {
    if s != [] {
      assert !IsSpace(s[|s| - 1]) && s[|s| - 1] != 'r';
      assert TrimRight(s) == s;
      if |s| >= 8 { assert s[|s| - 8..][7] == s[|s| - 1] && "operator"[7] == 'r'; }
    }
  }

  lemma CloserPops(line: string, i: nat, stack: seq<char>)
    requires i < |line| && stack != [] && (IsOpen(stack[|stack| - 1]) || stack[|stack| - 1] == '<')
    requires line[i] == Closer(stack[|stack| - 1])
    requires i > 0 ==> line[i - 1] != '-' && !EndsWithOperator(line[..i - 1])
    ensures StepForward(line, i, stack) == if |stack| == 1 then Found else Go(stack[..|stack| - 1], 1)
  {
    hide EndsWithOperator;
  }

  /** From column i on the line closes what is open, innermost first. */
  ghost predicate ClosesFrom(line: string, i: nat, stack: seq<char>) {
    i + |stack| <= |line| && forall j :: i <= j < i + |stack| ==> line[j] == Closer(stack[|stack| - 1 - (j - i)])
  }

  /** Reading the closers of what is open ends the expression at the last of them. */
  lemma {:induction false} ClosersClose(line: string, i: nat, stack: seq<char>)
    requires ClosesFrom(line, i, stack) && AllClosers(line[..i]) && AllOpeners(stack) && stack != []
    ensures ScanLine(line, i, stack) == EndsAt(0, i + |stack|)
    decreases stack
  {
    var front := stack[..|stack| - 1];
    assert line[i] == Closer(stack[|stack| - 1]);
    if i > 0 {
      assert line[i - 1] == line[..i][i - 1] && line[..i][..i - 1] == line[..i - 1];
      ClosersEndInNoOperator(line[..i - 1]);
    }
    CloserPops(line, i, stack);
    hide StepForward, EndsWithOperator;
    if front != [] {
      assert line[..i + 1] == line[..i] + [line[i]];
      ClosersClose(line, i + 1, front);
    }
  }

  lemma ElseIsQuiet(stack: seq<char>)
    ensures ScanLine("#else", 0, stack) == StillOpen(stack)
    ensures NextDeciding("#else", 0) == 5
  {
    var line := "#else";
    assert line[0] == '#' && line[1] == 'e' && line[2] == 'l' && line[3] == 's' && line[4] == 'e';
    assert forall i :: 0 <= i < 5 ==> StepForward(line, i, stack) == Go(stack, 1);
    hide StepForward;
    assert ScanLine(line, 5, stack) == StillOpen(stack);
    assert ScanLine(line, 3, stack) == ScanLine(line, 4, stack) == StillOpen(stack);
    assert ScanLine(line, 1, stack) == ScanLine(line, 2, stack) == StillOpen(stack);
  }

  /** An #else line and one more after it: that one closes what is open and then decides. */
  function Deciders(stack: seq<char>, c: char): seq<string> { ["#else", Closers(stack, |stack|) + [c]] }

  lemma DecidesThere(lines: seq<string>, p: nat, c: char)
    requires lines != [] && p < |lines[0]| && lines[0][p] == c && (c == ';' || c == '>')
    ensures LookAhead(lines, p) == if c == ';' then Outside else Inside
  {
    assert NextDeciding(lines[0], p) == p;
  }

  lemma DecidersDecide(stack: seq<char>, c: char, rest: seq<string>)
    requires AllOpeners(stack) && (c == ';' || c == '>')
    ensures Resume(Deciders(stack, c) + rest, stack) == if c == ';' then Outside else Inside
  {
    var line, more := Closers(stack, |stack|) + [c], Deciders(stack, c) + rest;
    var tail := [line] + rest;
    assert more[0] == "#else" && more[1..] == tail && tail[0] == line;
    ElseIsQuiet(stack);
    if stack == [] {
      assert line == [c];
      DecidesThere(tail, 0, c);
      hide NextDeciding;
      assert |"#else"| == 5;
      assert LookAhead(more, 0) == LookAhead(tail, 0);
    } else {
      ClosersClose(line, 0, stack);
      DecidesThere(tail, |stack|, c);
      hide ScanLine, NextDeciding, LookAhead;
      assert ScanLines(tail, 0, stack) == EndsAt(0, |stack|);
      assert ScanLines(more, 0, stack) == EndsAt(1, |stack|);
    }
  }

  /** The verdict for these lines when `more` follows them. */
  predicate InsideBefore(lines: seq<string>, pos: nat, more: seq<string>) { LookAhead(lines + more, pos) == Inside }

  /** In front of any rest of a file at all, two texts of an #else region give opposite
      verdicts to a look-ahead that reaches the region undecided. */
  lemma UndecidedDependsOnElse(lines: seq<string>, pos: nat, rest: seq<string>)
    requires lines != [] && LookAhead(lines, pos).Undecided?
    ensures var stack := LookAhead(lines, pos).stack;
      && InsideBefore(lines, pos, Deciders(stack, '>') + rest)
      && !InsideBefore(lines, pos, Deciders(stack, ';') + rest)
  {
    var stack := LookAhead(lines, pos).stack;
    LookAheadKeepsOpeners(lines, pos);
    LookAheadGoesOn(lines, Deciders(stack, '>') + rest, pos);
    LookAheadGoesOn(lines, Deciders(stack, ';') + rest, pos);
    DecidersDecide(stack, '>', rest);
    DecidersDecide(stack, ';', rest);
    hide LookAhead, Resume, AllOpeners;
  }

  /** So what follows is irrelevant exactly when the look-ahead is decided before it. */
  lemma IndependentIffDecided(lines: seq<string>, pos: nat)
    requires lines != []
    ensures !LookAhead(lines, pos).Undecided? <==>
      forall more, more' :: InsideBefore(lines, pos, more) <==> InsideBefore(lines, pos, more')
  {
    if LookAhead(lines, pos).Undecided? {
      UndecidedDependsOnElse(lines, pos, []);
    } else {
      assert lines + [] == lines;
      forall more
        ensures InsideBefore(lines, pos, more) <==> LookAhead(lines, pos) == Inside
      {
        if more != [] { LookAheadGoesOn(lines, more, pos); }
      }
    }
  }

  // ----- Which character decides -----

  /** From column pos of the first line on, nothing before column k of line l decides. */
  ghost predicate QuietUpTo(lines: seq<string>, pos: nat, l: nat, k: nat) {
    && l < |lines| && k <= |lines[l]| && (l == 0 ==> pos <= k)
    && (forall n, i :: 0 <= n < l && (n == 0 ==> pos <= i) && 0 <= i < |lines[n]| ==> lines[n][i] !in "{};=[].<>")
    && (forall i :: (l == 0 ==> pos <= i) && 0 <= i < k ==> lines[l][i] !in "{};=[].<>")
  }

  lemma DecidingIs(c: char)
    ensures Deciding(c) <==> c in "{};=[].<>"
  {
  }

  /** On the first line that is not quiet. */
  lemma TokenDecides(lines: seq<string>, pos: nat, k: nat)
    requires QuietUpTo(lines, pos, 0, k) && k < |lines[0]| && lines[0][k] in "{};=[].<>"
    ensures var c := lines[0][k];
      && (c in "{};" ==> LookAhead(lines, pos) == Outside)
      && (c in ">=[]." ==> LookAhead(lines, pos) == Inside)
      && (c == '<' ==> LookAhead(lines, pos) == AfterAngle(lines, ScanFrom(lines, k), pos))
  {
    var line := lines[0];
    forall i | pos <= i <= k
      ensures Deciding(line[i]) <==> i == k
    {
      DecidingIs(line[i]);
    }
    assert NextDeciding(line, pos) == k;
    hide NextDeciding, ScanFrom, AfterAngle;
  }

  lemma QuietLineGoesOn(lines: seq<string>, pos: nat)
    requires lines != [] && forall i :: pos <= i < |lines[0]| ==> lines[0][i] !in "{};=[].<>"
    ensures LookAhead(lines, pos) == LookAhead(lines[1..], 0)
  {
    var line := lines[0];
    if pos < |line| {
      forall i | pos <= i < |line|
        ensures !Deciding(line[i])
      {
        DecidingIs(line[i]);
      }
      assert NextDeciding(line, pos) == |line|;
    }
    hide NextDeciding;
  }

  /** Over any number of lines the first of {};=[].<> decides: the first three against a
      template, the rest for one, but an opening angle bracket sends the look-ahead on
      behind the one that closes it. */
  lemma {:induction false} FirstTokenDecides(lines: seq<string>, pos: nat, l: nat, k: nat)
    requires QuietUpTo(lines, pos, l, k) && k < |lines[l]| && lines[l][k] in "{};=[].<>"
    ensures var c := lines[l][k];
      && (c in "{};" ==> LookAhead(lines, pos) == Outside)
      && (c in ">=[]." ==> LookAhead(lines, pos) == Inside)
      && (c == '<' ==>
           match ScanFrom(lines[l..], k)
           case EndsAt(n, p) => LookAhead(lines, pos) == LookAhead(lines[l + n..], p)
           case NeverEnds => LookAhead(lines, pos) == Outside
           case StillOpen(_) => LookAhead(lines, pos).Undecided?)
    decreases l
  {
    hide LookAhead, ScanFrom;
    if l == 0 {
      assert lines[0..] == lines;
      TokenDecides(lines, pos, k);
      var r := ScanFrom(lines, k);
      if r.EndsAt? { assert lines[0 + r.line..] == lines[r.line..]; }
    } else {
      var rest := lines[1..];
      QuietLineGoesOn(lines, pos);
      assert rest[l - 1] == lines[l] && rest[l - 1..] == lines[l..];
      assert forall n :: 0 <= n < |rest| ==> rest[n] == lines[n + 1];
      FirstTokenDecides(rest, 0, l - 1, k);
      var r := ScanFrom(lines[l..], k);
      if r.EndsAt? { assert rest[l - 1 + r.line..] == lines[l + r.line..]; }
    }
  }

  /** And where none of them comes, it is no template. */
  lemma {:induction false} NoTokenIsUndecided(lines: seq<string>, pos: nat)
    requires lines == [] || QuietUpTo(lines, pos, |lines| - 1, |lines[|lines| - 1]|)
             || (|lines| == 1 && pos >= |lines[0]|)
    ensures LookAhead(lines, pos) == Undecided([])
    decreases |lines|
  {
    hide LookAhead;
    if lines == [] {
      NothingLeft(pos);
    } else {
      var rest := lines[1..];
      QuietLineGoesOn(lines, pos);
      assert forall n :: 0 <= n < |rest| ==> rest[n] == lines[n + 1];
      NoTokenIsUndecided(rest, 0);
    }
  }

  // ----- Angle brackets that are brackets -----

  function Partner(c: char): char {
    if c == '(' then ')' else if c == '[' then ']' else if c == '{' then '}' else '>'
  }

  /** Plain nesting of four kinds of brackets. */
  function Nest(stack: seq<char>, c: char): Option<seq<char>> {
    if c in "([{<" then Some(stack + [c])
    else if c in ")]}>" then
      if stack != [] && Partner(stack[|stack| - 1]) == c then Some(stack[..|stack| - 1]) else None
    else Some(stack)
  }

  /** The character is no semicolon, and no part of an operator or an arrow. */
  predicate IsPlain(line: string, i: nat)
    requires i < |line|
  {
    && line[i] != ';'
    && (line[i] == '<' && i > 0 ==> line[i - 1] != '<' && !EndsWithOperator(line[..i]))
    && (line[i] == '>' && i > 0 ==> line[i - 1] != '-' && !EndsWithOperator(line[..i - 1]))
  }

  /** Read from column i with these brackets open, plain text closes the last of them just
      before column p of line l. */
  predicate Nested(lines: seq<string>, i: nat, stack: seq<char>, l: nat, p: nat)
    decreases |lines|, if lines != [] && i <= |lines[0]| then |lines[0]| - i else 0
  {
    && lines != [] && i <= |lines[0]|
    && if i == |lines[0]| then l > 0 && |lines| > 1 && stack != [] && Nested(lines[1..], 0, stack, l - 1, p)
       else
         && IsPlain(lines[0], i)
         && var next := Nest(stack, lines[0][i]);
            next.Some? && if next.value == [] then l == 0 && p == i + 1 else Nested(lines, i + 1, next.value, l, p)
  }

  lemma NestedStep(line: string, i: nat, stack: seq<char>)
    requires i < |line| && IsPlain(line, i) && AllOpeners(stack) && Nest(stack, line[i]).Some?
    requires stack != [] || line[i] in "([{<"
    ensures var next := Nest(stack, line[i]).value;
      AllOpeners(next) && StepForward(line, i, stack) == if next == [] then Found else Go(next, 1)
  {
    hide EndsWithOperator;
  }

  lemma ScanLinesTurn(lines: seq<string>, i: nat, stack: seq<char>)
    requires lines != [] && i < |lines[0]|
    ensures ScanLines(lines, i, stack) ==
      match StepForward(lines[0], i, stack)
      case Go(next, _) => ScanLines(lines, i + 1, next)
      case Found => EndsAt(0, i + 1)
      case GiveUp => NeverEnds
  {
    ScanLineTurn(lines[0], i, stack);
    hide ScanLine, StepForward;
  }

  lemma ScanLinesNext(lines: seq<string>, stack: seq<char>)
    requires |lines| > 1 && stack != []
    ensures ScanLines(lines, |lines[0]|, stack) == Later(ScanLines(lines[1..], 0, stack), 1)
  {
    ScanLineTurn(lines[0], |lines[0]|, stack);
    hide ScanLine;
  }

  /** Text in which all four kinds of brackets nest is read as nested. */
  lemma {:induction false} NestedTextCloses(lines: seq<string>, i: nat, stack: seq<char>, l: nat, p: nat)
    requires Nested(lines, i, stack, l, p) && AllOpeners(stack)
    requires stack != [] || (i < |lines[0]| && lines[0][i] in "([{<")
    ensures ScanLines(lines, i, stack) == EndsAt(l, p)
    decreases |lines|, |lines[0]| - i
  {
    hide StepForward, ScanLines, IsPlain, AllOpeners, Nest;
    if i == |lines[0]| {
      ScanLinesNext(lines, stack);
      NestedTextCloses(lines[1..], 0, stack, l - 1, p);
    } else {
      NestedStep(lines[0], i, stack);
      ScanLinesTurn(lines, i, stack);
      var next := Nest(stack, lines[0][i]).value;
      if next != [] { NestedTextCloses(lines, i + 1, next, l, p); }
    }
  }

  /** So an angle bracket whose text nests is taken to close where it does. */
  lemma AngleCloses(lines: seq<string>, k: nat, l: nat, p: nat)
    requires lines != [] && k < |lines[0]| && lines[0][k] == '<' && Nested(lines, k, [], l, p)
    requires k + 1 < |lines[0]| ==> lines[0][k + 1] != '<' && lines[0][k + 1] != '='
    ensures ScanFrom(lines, k) == EndsAt(l, p)
  {
    hide ScanLines;
    NestedTextCloses(lines, k, [], l, p);
  }

  /** What is not plain: an arrow and the names of the comparison operators are no brackets;
      a shift is a bracket and its end, and gives up if nothing else is open; a semicolon
      ends the angle brackets begun last, and gives up if nothing else is open. */
  lemma OperatorsPass(line: string, i: nat, stack: seq<char>)
    requires i < |line|
    ensures line[i] == '>' && i > 0 && (line[i - 1] == '-' || EndsWithOperator(line[..i - 1])) ==>
      StepForward(line, i, stack) == Go(stack, 1)
    ensures line[i] == '<' && i > 0 && line[i - 1] != '<' && EndsWithOperator(line[..i]) ==>
      StepForward(line, i, stack) == Go(stack, 1)
    ensures line[i] == '<' && i > 0 && line[i - 1] == '<' ==>
      StepForward(line, i, stack + ['<']) == if stack == [] then GiveUp else Go(stack, 1)
  {
    hide EndsWithOperator;
  }

  lemma {:induction false} SemicolonEnds(line: string, i: nat, stack: seq<char>, m: nat)
    requires i < |line| && line[i] == ';' && m <= |stack| && (m > 0 ==> stack[m - 1] != '<')
    requires forall j :: m <= j < |stack| ==> stack[j] == '<'
    ensures StepForward(line, i, stack) == if m == 0 then GiveUp else Go(stack[..m], 1)
    decreases |stack|
  {
    if |stack| > m {
      SemicolonEnds(line, i, stack[..|stack| - 1], m);
      assert stack[..|stack| - 1][..m] == stack[..m];
    } else {
      assert stack[..m] == stack;
    }
  }

  /** A closing bracket ends the angle brackets begun last, and then the bracket below if
      that is its own; otherwise the search gives up. */
  lemma {:induction false} ClosingEnds(line: string, i: nat, stack: seq<char>, m: nat)
    requires i < |line| && line[i] in ")]}" && m <= |stack| && (m > 0 ==> stack[m - 1] in "([{")
    requires forall j :: m <= j < |stack| ==> stack[j] == '<'
    ensures StepForward(line, i, stack) ==
      if m == 0 || Partner(stack[m - 1]) != line[i] then GiveUp else if m == 1 then Found else Go(stack[..m - 1], 1)
    decreases |stack|
  {
    if |stack| > m {
      ClosingEnds(line, i, stack[..|stack| - 1], m);
      assert m > 0 ==> stack[..|stack| - 1][..m - 1] == stack[..m - 1];
    }
  }
}
