/** The multi-line bracket scanners of the lint tool (tools/cpplint.py).

    The scanners keep a stack on which '<' (scanning forward) or '>' (scanning
    backward) are pushed tentatively and thrown away again when a real bracket
    shows that they were operators.  The reference notion of a match below knows
    nothing about angle brackets, semicolons or operators: it runs a plain
    bracket machine over the characters between the two ends. */
module LintBrackets {
  import opened Wrappers

  // ----- Plain bracket matching -----

  predicate IsOpen(c: char) { c == '(' || c == '[' || c == '{' }

  predicate IsClose(c: char) { c == ')' || c == ']' || c == '}' }

  predicate Pairs(o: char, c: char) {
    (o == '(' && c == ')') || (o == '[' && c == ']') || (o == '{' && c == '}')
  }

  /** One step of the plain machine, whose stack holds the open brackets. */
  function PushPop(st: seq<char>, c: char): Option<seq<char>> {
    if IsOpen(c) then Some(st + [c])
    else if IsClose(c) then
      if st != [] && Pairs(st[|st| - 1], c) then Some(st[..|st| - 1]) else None
    else Some(st)
  }

  /** The plain machine over a whole text, from left to right. */
  function Run(st: seq<char>, w: string): Option<seq<char>> {
    if w == [] then Some(st)
    else match Run(st, w[..|w| - 1])
      case None => None
      case Some(s) => PushPop(s, w[|w| - 1])
  }

  ghost predicate LeavesOpen(r: Option<seq<char>>) { r.Some? && r.value != [] }

  /** After the first k characters of w, started on st, a bracket is open. */
  ghost predicate OpenAt(st: seq<char>, w: string, k: int) {
    0 <= k <= |w| && LeavesOpen(Run(st, w[..k]))
  }

  /** The text opens a bracket at its first character and closes that very
      bracket at its last character, not earlier. */
  ghost predicate IsPrime(w: string) {
    && w != [] && IsOpen(w[0])
    && Run([], w) == Some([])
    && forall k :: 0 < k < |w| ==> OpenAt([], w, k)
  }

  /** The bracket at index i of the text is closed at index j. */
  ghost predicate Matches(text: string, i: int, j: int) {
    0 <= i <= j < |text| && IsPrime(text[i..j + 1])
  }

  ghost predicate NoMatchFrom(text: string, i: int) { forall j :: !Matches(text, i, j) }

  ghost predicate NoMatchTo(text: string, j: int) { forall i :: !Matches(text, i, j) }

  // ----- Reading the machine backward -----

  function Flip(c: char): char {
    if c == '(' then ')' else if c == '[' then ']' else if c == '{' then '}'
    else if c == ')' then '(' else if c == ']' then '[' else if c == '}' then '{' else c
  }

  function Mirror(st: seq<char>): (r: seq<char>)
    ensures |r| == |st|
  {
    seq(|st|, i requires 0 <= i < |st| => Flip(st[i]))
  }

  /** One backward step: closing brackets are pushed, opening ones pop. */
  function PopPush(st: seq<char>, c: char): Option<seq<char>> {
    if IsClose(c) then Some(st + [c])
    else if IsOpen(c) then
      if st != [] && Pairs(c, st[|st| - 1]) then Some(st[..|st| - 1]) else None
    else Some(st)
  }

  function RunBack(st: seq<char>, w: string): Option<seq<char>> {
    if w == [] then Some(st)
    else match RunBack(st, w[1..])
      case None => None
      case Some(s) => PopPush(s, w[0])
  }

  /** Read backward down to index k of w, started on st, a bracket is open. */
  ghost predicate OpenBackAt(st: seq<char>, w: string, k: int) {
    0 <= k <= |w| && LeavesOpen(RunBack(st, w[k..]))
  }

  ghost predicate AllOpen(st: seq<char>) { forall i :: 0 <= i < |st| ==> IsOpen(st[i]) }

  ghost predicate AllClose(st: seq<char>) { forall i :: 0 <= i < |st| ==> IsClose(st[i]) }

  lemma MirrorShapes(st: seq<char>)
    ensures AllOpen(st) ==> AllClose(Mirror(st))
    ensures AllClose(st) ==> AllOpen(Mirror(st))
    ensures Mirror(Mirror(st)) == st
  {
  }

  /** A step of the plain machine is undone by the backward step on the mirrored stacks. */
  lemma StepsAreInverse(st: seq<char>, c: char, st': seq<char>)
    requires AllOpen(st) && AllOpen(st')
    ensures PushPop(st, c) == Some(st') <==> PopPush(Mirror(st'), c) == Some(Mirror(st))
  {
    MirrorShapes(st);
    MirrorShapes(st');
    if PushPop(st, c) == Some(st') {
      if IsOpen(c) {
        assert Mirror(st')[..|st|] == Mirror(st);
      } else if IsClose(c) {
        assert Mirror(st) == Mirror(st') + [c];
      }
    }
    if PopPush(Mirror(st'), c) == Some(Mirror(st)) {
      if IsOpen(c) {
        assert |st'| == |st| + 1;
        assert forall i :: 0 <= i < |st| ==> Flip(st'[i]) == Mirror(st')[i] == Mirror(st)[i] == Flip(st[i]);
        assert forall i :: 0 <= i < |st| ==> st'[i] == st[i];
        assert Flip(st'[|st|]) == Mirror(st')[|st|];
        assert st' == st + [c];
      } else if IsClose(c) {
        assert forall i :: 0 <= i < |st'| ==> Flip(st'[i]) == Mirror(st')[i] == Mirror(st)[i] == Flip(st[i]);
        assert Mirror(st)[|st'|] == c == Flip(st[|st'|]);
        assert st[..|st'|] == st';
      } else {
        assert Mirror(Mirror(st)) == Mirror(Mirror(st'));
      }
    }
  }

  lemma {:induction false} RunKeepsOpen(st: seq<char>, w: string)
    requires AllOpen(st)
    ensures Run(st, w).Some? ==> AllOpen(Run(st, w).value)
  {
    if w != [] { RunKeepsOpen(st, w[..|w| - 1]); }
  }

  lemma {:induction false} RunBackKeepsClose(st: seq<char>, w: string)
    requires AllClose(st)
    ensures RunBack(st, w).Some? ==> AllClose(RunBack(st, w).value)
  {
    if w != [] { RunBackKeepsClose(st, w[1..]); }
  }

  lemma {:induction false} RunSplits(st: seq<char>, u: string, v: string)
    ensures Run(st, u + v) == match Run(st, u) case None => None case Some(s) => Run(s, v)
  {
    if v == [] {
      assert u + v == u;
    } else {
      RunSplits(st, u, v[..|v| - 1]);
      assert (u + v)[..|u + v| - 1] == u + v[..|v| - 1];
    }
  }

  /** The whole runs are inverse to each other as well. */
  lemma {:induction false} RunsAreInverse(st: seq<char>, w: string, st': seq<char>)
    requires AllOpen(st) && AllOpen(st')
    ensures Run(st, w) == Some(st') <==> RunBack(Mirror(st'), w) == Some(Mirror(st))
    decreases |w|
  {
    MirrorShapes(st);
    MirrorShapes(st');
    if w == [] {
      assert Mirror(Mirror(st)) == st && Mirror(Mirror(st')) == st';
    } else {
      assert w == [w[0]] + w[1..];
      RunSplits(st, [w[0]], w[1..]);
      RunOne(st, w[0]);
      if Run(st, w) == Some(st') {
        var mid := PushPop(st, w[0]).value;
        StepsAreInverse(st, w[0], mid);
        RunsAreInverse(mid, w[1..], st');
      }
      if RunBack(Mirror(st'), w) == Some(Mirror(st)) {
        var back := RunBack(Mirror(st'), w[1..]).value;
        RunBackKeepsClose(Mirror(st'), w[1..]);
        MirrorShapes(back);
        var mid := Mirror(back);
        RunsAreInverse(mid, w[1..], st');
        StepsAreInverse(st, w[0], mid);
      }
    }
  }

  lemma RunOne(st: seq<char>, c: char)
    ensures Run(st, [c]) == PushPop(st, c)
  {
    assert [c][..0] == [];
    assert Run(st, [c][..0]) == Some(st);
  }

  /** A prime text seen from its end: the closing bracket is met first, the
      backward stack empties exactly at the opening one. */
  ghost predicate IsPrimeBack(w: string) {
    && w != [] && IsClose(w[|w| - 1])
    && RunBack([], w) == Some([])
    && forall k :: 0 < k < |w| ==> OpenBackAt([], w, k)
  }

  lemma PrimeIsPrimeBack(w: string)
    ensures IsPrime(w) <==> IsPrimeBack(w)
  {
    if IsPrime(w) {
      RunsAreInverse([], w, []);
      assert Mirror([]) == [];
      forall k | 0 < k < |w|
        ensures OpenBackAt([], w, k)
      {
        assert w == w[..k] + w[k..];
        RunSplits([], w[..k], w[k..]);
        RunKeepsOpen([], w[..k]);
        assert OpenAt([], w, k);
        RunsAreInverse(Run([], w[..k]).value, w[k..], []);
      }
      assert w[..|w|] == w;
      if |w| > 1 {
        assert OpenAt([], w, |w| - 1);
      }
    }
    if IsPrimeBack(w) {
      RunsAreInverse([], w, []);
      assert Mirror([]) == [];
      forall k | 0 < k < |w|
        ensures OpenAt([], w, k)
      {
        assert w == w[..k] + w[k..];
        RunSplits([], w[..k], w[k..]);
        var st := Run([], w[..k]).value;
        RunKeepsOpen([], w[..k]);
        assert OpenBackAt([], w, k);
        RunsAreInverse(st, w[k..], []);
      }
      if |w| > 1 {
        assert w[..1] == [w[0]];
        RunOne([], w[0]);
        assert OpenAt([], w, 1);
      }
    }
  }

  lemma NoPrimeProperPrefix(w: string, n: int)
    requires IsPrime(w) && 0 < n < |w|
    ensures !IsPrime(w[..n])
  {
    assert OpenAt([], w, n);
  }

  lemma NoPrimeProperSuffix(w: string, n: int)
    requires IsPrime(w) && 0 < n < |w|
    ensures !IsPrime(w[n..])
  {
    PrimeIsPrimeBack(w);
    PrimeIsPrimeBack(w[n..]);
    assert OpenBackAt([], w, n);
  }

  lemma NoShorterMatch(text: string, i: int, j: int, j': int)
    requires Matches(text, i, j') && i <= j < j'
    ensures !Matches(text, i, j)
  {
    assert text[i..j' + 1][..j + 1 - i] == text[i..j + 1];
    NoPrimeProperPrefix(text[i..j' + 1], j + 1 - i);
  }

  lemma NoLaterStart(text: string, i: int, i': int, j: int)
    requires Matches(text, i, j) && i < i' <= j
    ensures !Matches(text, i', j)
  {
    assert text[i..j + 1][i' - i..] == text[i'..j + 1];
    NoPrimeProperSuffix(text[i..j + 1], i' - i);
  }

  /** A bracket has at most one partner, from either side. */
  lemma MatchIsUnique(text: string, i: int, j: int, i': int, j': int)
    ensures Matches(text, i, j) && Matches(text, i, j') ==> j == j'
    ensures Matches(text, i, j) && Matches(text, i', j) ==> i == i'
  {
    if Matches(text, i, j') && i <= j < j' { NoShorterMatch(text, i, j, j'); }
    if Matches(text, i, j) && i <= j' < j { NoShorterMatch(text, i, j', j); }
    if Matches(text, i, j) && i < i' <= j { NoLaterStart(text, i, i', j); }
    if Matches(text, i', j) && i' < i <= j { NoLaterStart(text, i', i, j); }
  }

  // ----- Lines and positions -----

  function Flat(lines: seq<string>): string {
    if lines == [] then "" else Flat(lines[..|lines| - 1]) + lines[|lines| - 1]
  }

  function LineStart(lines: seq<string>, l: nat): nat
    requires l <= |lines|
  {
    |Flat(lines[..l])|
  }

  /** The index in the joined text of column p of line l. */
  function At(lines: seq<string>, l: nat, p: int): int
    requires l <= |lines|
  {
    LineStart(lines, l) + p
  }

  lemma {:induction false} LineInFlat(lines: seq<string>, l: nat)
    requires l < |lines|
    ensures LineStart(lines, l + 1) == LineStart(lines, l) + |lines[l]| <= |Flat(lines)|
    ensures Flat(lines)[LineStart(lines, l)..LineStart(lines, l + 1)] == lines[l]
  {
    var front := lines[..|lines| - 1];
    assert lines[..l + 1][..l] == lines[..l];
    if l == |lines| - 1 {
      assert lines[..l + 1] == lines;
    } else {
      LineInFlat(front, l);
      assert front[..l] == lines[..l] && front[..l + 1] == lines[..l + 1];
    }
  }

  lemma {:induction false} LineStartsGrow(lines: seq<string>, l: nat, l': nat)
    requires l <= l' <= |lines|
    ensures LineStart(lines, l) <= LineStart(lines, l') <= |Flat(lines)|
    decreases l' - l
  {
    assert lines[..|lines|] == lines;
    if l < l' {
      LineInFlat(lines, l);
      LineStartsGrow(lines, l + 1, l');
    } else if l < |lines| {
      LineInFlat(lines, l);
    }
  }

  lemma PositionsAreDistinct(lines: seq<string>, l: nat, p: nat, l': nat, p': nat)
    requires l < |lines| && p < |lines[l]| && l' < |lines| && p' < |lines[l']|
    requires At(lines, l, p) == At(lines, l', p')
    ensures l == l' && p == p'
  {
    LineInFlat(lines, l);
    LineInFlat(lines, l');
    if l < l' {
      LineStartsGrow(lines, l + 1, l');
    } else if l' < l {
      LineStartsGrow(lines, l' + 1, l);
    }
  }

  // ----- Regular expressions used by the scanners -----

  predicate IsSpace(c: char) {
    c == ' ' || c == '\t' || c == '\n' || c == '\r' || c == 11 as char || c == 12 as char
  }

  predicate IsWord(c: char) {
    'a' <= c <= 'z' || 'A' <= c <= 'Z' || '0' <= c <= '9' || c == '_'
  }

  /** White space is the blank and the characters from tab to carriage return; words are of
      letters, digits and underscores. */
  lemma CharactersAre(c: char)
    ensures IsSpace(c) <==> c == ' ' || 9 <= c as int <= 13
    ensures IsWord(c) <==>
      48 <= c as int <= 57 || 65 <= c as int <= 90 || c as int == 95 || 97 <= c as int <= 122
  {
  }

  function TrimRight(s: string): string {
    if s != [] && IsSpace(s[|s| - 1]) then TrimRight(s[..|s| - 1]) else s
  }

  /** Search(r'\boperator\s*$', s) */
  predicate EndsWithOperator(s: string) {
    var t := TrimRight(s);
    && |t| >= 8 && t[|t| - 8..] == "operator"
    && (|t| == 8 || !IsWord(t[|t| - 9]))
  }

  /** The word before the white space at the end is "operator". */
  ghost predicate IsOperatorEnd(s: string, pre: string, post: string) {
    && s == pre + "operator" + post && (forall i :: 0 <= i < |post| ==> IsSpace(post[i]))
    && (pre != [] ==> !IsWord(pre[|pre| - 1]))
  }

  lemma {:induction false} TrimRightParts(s: string) returns (post: string)
    ensures s == TrimRight(s) + post && forall i :: 0 <= i < |post| ==> IsSpace(post[i])
    ensures TrimRight(s) != [] ==> !IsSpace(TrimRight(s)[|TrimRight(s)| - 1])
  {
    post := [];
    if s != [] && IsSpace(s[|s| - 1]) {
      var front := TrimRightParts(s[..|s| - 1]);
      post := front + [s[|s| - 1]];
    }
  }

  lemma {:induction false} TrimRightOf(t: string, post: string)
    requires (forall i :: 0 <= i < |post| ==> IsSpace(post[i])) && (t != [] ==> !IsSpace(t[|t| - 1]))
    ensures TrimRight(t + post) == t
  {
    if post == [] {
      assert t + post == t;
    } else {
      assert (t + post)[..|t + post| - 1] == t + post[..|post| - 1];
      TrimRightOf(t, post[..|post| - 1]);
    }
  }

  lemma OperatorEndsIff(s: string)
    ensures EndsWithOperator(s) <==> exists pre, post :: IsOperatorEnd(s, pre, post)
  {
    if EndsWithOperator(s) {
      var t := TrimRight(s);
      var post := TrimRightParts(s);
      var pre := t[..|t| - 8];
      assert s == pre + "operator" + post;
      assert IsOperatorEnd(s, pre, post);
    }
    if pre, post :| IsOperatorEnd(s, pre, post) {
      var t := pre + "operator";
      assert t[|t| - 1] == "operator"[7] == 'r';
      assert s == t + post;
      TrimRightOf(t, post);
      assert t[|t| - 8..] == "operator";
    }
  }

  /** Match(r'\s>=\s', s) */
  predicate IsSpacedGreaterEqual(s: string) {
    |s| >= 4 && IsSpace(s[0]) && s[1] == '>' && s[2] == '=' && IsSpace(s[3])
  }

  lemma SpacedIff(s: string)
    ensures IsSpacedGreaterEqual(s) <==>
      exists a, b, rest :: IsSpace(a) && IsSpace(b) && s == ([a] + ">=" + [b]) + rest
  {
    if IsSpacedGreaterEqual(s) {
      var start := [s[0]] + ">=" + [s[3]];
      assert start[1] == '>' && start[2] == '=' && s == start + s[4..];
    }
    if a, b, rest :| IsSpace(a) && IsSpace(b) && s == ([a] + ">=" + [b]) + rest {
      var start := [a] + ">=" + [b];
      assert start[0] == a && start[1] == '>' && start[2] == '=' && start[3] == b;
      assert forall i :: 0 <= i < 4 ==> s[i] == start[i];
    }
  }

  lemma OperatorEndsInNoBracket(s: string)
    requires EndsWithOperator(s)
    ensures s != [] && !IsOpen(s[|s| - 1]) && !IsClose(s[|s| - 1])
  {
    var t := TrimRight(s);
    if !IsSpace(s[|s| - 1]) {
      assert t == s;
      assert s[|s| - 8..][7] == 'r';
    }
  }

  // ----- The tentative angle brackets -----

  /** The stack without the tentative angle brackets. */
  function Erase(st: seq<char>, angle: char): seq<char> {
    if st == [] then []
    else if st[|st| - 1] == angle then Erase(st[..|st| - 1], angle)
    else Erase(st[..|st| - 1], angle) + [st[|st| - 1]]
  }

  lemma EraseAppend(st: seq<char>, c: char, angle: char)
    ensures Erase(st + [c], angle) == if c == angle then Erase(st, angle) else Erase(st, angle) + [c]
  {
    assert (st + [c])[..|st|] == st;
  }

  lemma EraseTop(st: seq<char>, angle: char)
    requires st != []
    ensures Erase(st, angle) ==
      if st[|st| - 1] == angle then Erase(st[..|st| - 1], angle)
      else Erase(st[..|st| - 1], angle) + [st[|st| - 1]]
  {
  }

  lemma {:induction false} EraseKeepsBottom(st: seq<char>, angle: char)
    requires st != [] && st[0] != angle
    ensures Erase(st, angle) != []
  {
    if |st| > 1 && st[|st| - 1] == angle { EraseKeepsBottom(st[..|st| - 1], angle); }
  }

  /** while stack and stack[-1] == angle: stack.pop() */
  function DropTentative(st: seq<char>, angle: char): seq<char> {
    if st != [] && st[|st| - 1] == angle then DropTentative(st[..|st| - 1], angle) else st
  }

  lemma {:induction false} DropTentativeKeeps(st: seq<char>, angle: char)
    ensures Erase(DropTentative(st, angle), angle) == Erase(st, angle)
    ensures DropTentative(st, angle) <= st
    ensures DropTentative(st, angle) != [] ==> DropTentative(st, angle)[|DropTentative(st, angle)| - 1] != angle
    ensures st != [] && st[0] != angle ==> DropTentative(st, angle) != []
  {
    if st != [] && st[|st| - 1] == angle { DropTentativeKeeps(st[..|st| - 1], angle); }
  }

  /** What one character makes a scanner do: go on past `width` characters, stop
      because the bracket it looks for is here, or give up. */
  datatype Move = Go(stack: seq<char>, width: nat) | Found | GiveUp

  // ----- Scanning forward -----

  /** From the stack st, every non-empty prefix of w leaves brackets open. */
  ghost predicate StaysOpen(st: seq<char>, w: string, n: int) {
    forall k :: 0 < k <= n <= |w| ==> OpenAt(st, w, k)
  }

  ghost predicate StuckAt(st: seq<char>, w: string, k: int) {
    0 < k <= |w| && Run(st, w[..k]) == None && StaysOpen(st, w, k - 1)
  }

  /** What a forward scan of w must report, told by the plain machine started on st. */
  ghost predicate ForwardVerdict(st: seq<char>, w: string, end: int, rest: Option<seq<char>>) {
    if end >= 0 then
      0 < end <= |w| && Run(st, w[..end]) == Some([]) && StaysOpen(st, w, end - 1)
    else if rest.None? then
      exists k :: StuckAt(st, w, k)
    else
      Run(st, w) == Some(Erase(rest.value, '<')) && StaysOpen(st, w, |w|)
  }

  /** The scan is inside, or about to enter, a real bracket. */
  ghost predicate ForwardAnchored(line: string, startpos: int, st: seq<char>) {
    if st == [] then 0 <= startpos < |line| && IsOpen(line[startpos]) else st[0] != '<'
  }

  /** The first i characters of w have been read; cur is the scanner's own stack. */
  ghost predicate ForwardProgress(st: seq<char>, w: string, i: int, cur: seq<char>) {
    && 0 <= i <= |w|
    && Run(st, w[..i]) == Some(Erase(cur, '<'))
    && StaysOpen(st, w, i)
  }

  lemma ForwardAdvance(st: seq<char>, w: string, i: nat, cur: seq<char>, next: seq<char>)
    requires ForwardProgress(st, w, i, cur) && i < |w|
    requires PushPop(Erase(cur, '<'), w[i]) == Some(Erase(next, '<'))
    requires next != [] && next[0] != '<'
    ensures ForwardProgress(st, w, i + 1, next)
  {
    assert w[..i + 1][..i] == w[..i] && w[..i + 1][i] == w[i];
    EraseKeepsBottom(next, '<');
    forall k | 0 < k <= i + 1
      ensures OpenAt(st, w, k)
    {
      if k <= i { assert OpenAt(st, w, k); }
    }
  }

  lemma ForwardFinish(st: seq<char>, w: string, i: nat, cur: seq<char>)
    requires ForwardProgress(st, w, i, cur) && i < |w|
    ensures PushPop(Erase(cur, '<'), w[i]) == Some([]) ==> ForwardVerdict(st, w, i + 1, None)
    ensures PushPop(Erase(cur, '<'), w[i]) == None ==> StuckAt(st, w, i + 1)
  {
    assert w[..i + 1][..i] == w[..i] && w[..i + 1][i] == w[i];
    assert Run(st, w[..i + 1]) == PushPop(Erase(cur, '<'), w[i]);
  }

  /** One turn of the loop of FindEndOfExpressionInLine. */
  function StepForward(line: string, i: nat, stack: seq<char>): Move
    requires i < |line|
  {
    var c := line[i];
    if IsOpen(c) then Go(stack + [c], 1)
    else if c == '<' then
      if i > 0 && line[i - 1] == '<' then
        if stack != [] && stack[|stack| - 1] == '<' then
          if |stack| == 1 then GiveUp else Go(stack[..|stack| - 1], 1)
        else Go(stack, 1)
      else if i > 0 && EndsWithOperator(line[..i]) then Go(stack, 1)
      else Go(stack + ['<'], 1)
    else if IsClose(c) then
      var st := DropTentative(stack, '<');
      if st == [] then GiveUp
      else if !Pairs(st[|st| - 1], c) then GiveUp
      else if |st| == 1 then Found
      else Go(st[..|st| - 1], 1)
    else if c == '>' then
      if i > 0 && (line[i - 1] == '-' || EndsWithOperator(line[..i - 1])) then Go(stack, 1)
      else if stack != [] && stack[|stack| - 1] == '<' then
        if |stack| == 1 then Found else Go(stack[..|stack| - 1], 1)
      else Go(stack, 1)
    else if c == ';' then
      var st := DropTentative(stack, '<');
      if st == [] then GiveUp else Go(st, 1)
    else Go(stack, 1)
  }

  /** The plain machine's view of a scanner's move. */
  ghost predicate MoveAgrees(m: Move, next: Option<seq<char>>, angle: char) {
    match m
    case Go(s, _) => s != [] && s[0] != angle && next == Some(Erase(s, angle))
    case Found => next == Some([])
    case GiveUp => next == None
  }

  lemma StepForwardPushes(line: string, i: nat, stack: seq<char>)
    requires i < |line| && ForwardAnchored(line, i, stack) && IsOpen(line[i])
    ensures MoveAgrees(StepForward(line, i, stack), PushPop(Erase(stack, '<'), line[i]), '<')
  {
    EraseAppend(stack, line[i], '<');
    if stack == [] { EraseNothing('<'); }
  }

  lemma StepForwardPops(line: string, i: nat, stack: seq<char>)
    requires i < |line| && stack != [] && stack[0] != '<' && IsClose(line[i])
    ensures MoveAgrees(StepForward(line, i, stack), PushPop(Erase(stack, '<'), line[i]), '<')
  {
    hide Erase, DropTentative;
    PoppedAgrees(stack, '<');
  }

  lemma StepForwardPasses(line: string, i: nat, stack: seq<char>)
    requires i < |line| && stack != [] && stack[0] != '<' && !IsOpen(line[i]) && !IsClose(line[i])
    ensures MoveAgrees(StepForward(line, i, stack), PushPop(Erase(stack, '<'), line[i]), '<')
  {
    hide Erase, DropTentative, EndsWithOperator, IsSpacedGreaterEqual;
    AngleAgrees(stack, '<');
  }

  /** Once inside a real bracket, the angle bracket heuristics never matter. */
  lemma StepForwardRefines(line: string, i: nat, stack: seq<char>)
    requires i < |line| && ForwardAnchored(line, i, stack)
    ensures MoveAgrees(StepForward(line, i, stack), PushPop(Erase(stack, '<'), line[i]), '<')
  {
    hide StepForward, Erase, PushPop;
    if IsOpen(line[i]) {
      StepForwardPushes(line, i, stack);
    } else if IsClose(line[i]) {
      StepForwardPops(line, i, stack);
    } else {
      StepForwardPasses(line, i, stack);
    }
  }

  /** The facts about a pop of a real bracket that both scanners rely on. */
  lemma PoppedAgrees(stack: seq<char>, angle: char)
    requires stack != [] && stack[0] != angle
    ensures var st := DropTentative(stack, angle);
      && st != [] && st[0] != angle
      && Erase(stack, angle) == Erase(st[..|st| - 1], angle) + [st[|st| - 1]]
      && (|st| == 1 ==> Erase(st[..|st| - 1], angle) == [])
  {
    var st := DropTentative(stack, angle);
    DropTentativeKeeps(stack, angle);
    EraseTop(st, angle);
    if |st| == 1 { EraseNothing(angle); }
  }

  /** The facts about angle brackets that both scanners rely on. */
  lemma AngleAgrees(stack: seq<char>, angle: char)
    requires stack != [] && stack[0] != angle
    ensures Erase(stack + [angle], angle) == Erase(stack, angle)
    ensures stack[|stack| - 1] == angle ==> |stack| > 1 && Erase(stack[..|stack| - 1], angle) == Erase(stack, angle)
    ensures Erase(DropTentative(stack, angle), angle) == Erase(stack, angle)
    ensures DropTentative(stack, angle) != [] && DropTentative(stack, angle)[0] != angle
  {
    EraseAppend(stack, angle, angle);
    EraseTop(stack, angle);
    DropTentativeKeeps(stack, angle);
  }

  lemma EraseNothing(angle: char)
    ensures Erase([], angle) == []
  {
  }

  /** One turn of the loop, seen by the plain machine reading line[startpos..]. */
  lemma ForwardTurn(line: string, startpos: nat, st0: seq<char>, i: nat, stack: seq<char>)
    requires startpos <= i < |line| && ForwardAnchored(line, i, stack)
    requires ForwardProgress(st0, line[startpos..], i - startpos, stack)
    ensures var w, k := line[startpos..], i - startpos;
      match StepForward(line, i, stack)
      case Go(next, _) => next != [] && next[0] != '<' && ForwardProgress(st0, w, k + 1, next)
      case Found => ForwardVerdict(st0, w, k + 1, None)
      case GiveUp => ForwardVerdict(st0, w, -1, None)
  {
    StepForwardRefines(line, i, stack);
    ForwardFinish(st0, line[startpos..], i - startpos, stack);
    if StepForward(line, i, stack).Go? {
      ForwardAdvance(st0, line[startpos..], i - startpos, stack, StepForward(line, i, stack).stack);
    }
  }

  lemma ForwardEndsLine(st0: seq<char>, w: string, stack: seq<char>)
    requires ForwardProgress(st0, w, |w|, stack)
    ensures ForwardVerdict(st0, w, -1, Some(stack))
  {
    assert w[..|w|] == w;
  }

  /** What a forward scanner finds: the end of the expression, that it has none, or the
      brackets still open where the text ends. */
  datatype Scan = EndsAt(line: nat, pos: nat) | NeverEnds | StillOpen(stack: seq<char>)

  /** One line read from column i. */
  function ScanLine(line: string, i: nat, stack: seq<char>): (r: Scan)
    requires i <= |line|
    ensures r.EndsAt? ==> r.line == 0 && i < r.pos <= |line|
    decreases |line| - i
  {
    if i == |line| then StillOpen(stack)
    else
      match StepForward(line, i, stack)
      case Go(next, _) => ScanLine(line, i + 1, next)
      case Found => EndsAt(0, i + 1)
      case GiveUp => NeverEnds
  }

  function Later(r: Scan, n: nat): Scan { if r.EndsAt? then EndsAt(r.line + n, r.pos) else r }

  /** Lines read from column i of the first one; the line of the end is counted from there. */
  function ScanLines(lines: seq<string>, i: nat, stack: seq<char>): (r: Scan)
    requires lines != [] && i <= |lines[0]|
    ensures r.EndsAt? ==> r.line < |lines| && r.pos <= |lines[r.line]| && (r.line == 0 ==> i < r.pos)
    decreases |lines|
  {
    match ScanLine(lines[0], i, stack)
    case StillOpen(rest) =>
      if rest == [] then NeverEnds
      else if |lines| == 1 then StillOpen(rest)
      else Later(ScanLines(lines[1..], 0, rest), 1)
    case other => other
  }

  /** The search that CloseExpression makes from a bracket of any kind. */
  function ScanFrom(lines: seq<string>, pos: nat): (r: Scan)
    requires lines != [] && pos < |lines[0]|
    ensures r.EndsAt? ==> r.line < |lines| && r.pos <= |lines[r.line]| && (r.line == 0 ==> pos < r.pos)
  {
    var c, line := lines[0][pos], lines[0];
    if (!IsOpen(c) && c != '<') || (c == '<' && pos + 1 < |line| && (line[pos + 1] == '<' || line[pos + 1] == '='))
    then NeverEnds
    else ScanLines(lines, pos, [])
  }

  /** One turn of the scan of a line. */
  lemma ScanLineTurn(line: string, i: nat, stack: seq<char>)
    requires i <= |line|
    ensures ScanLine(line, i, stack) ==
      if i == |line| then StillOpen(stack)
      else
        match StepForward(line, i, stack)
        case Go(next, _) => ScanLine(line, i + 1, next)
        case Found => EndsAt(0, i + 1)
        case GiveUp => NeverEnds
  {
    hide StepForward;
  }

  /** What the scan of a line from column i on must report, when it began at startpos with
      the plain stack st0. */
  ghost predicate ScanIsVerdict(line: string, startpos: nat, st0: seq<char>, r: Scan)
    requires startpos <= |line|
  {
    var w := line[startpos..];
    match r
    case EndsAt(_, p) => ForwardVerdict(st0, w, p - startpos, None)
    case NeverEnds => ForwardVerdict(st0, w, -1, None)
    case StillOpen(rest) => ForwardVerdict(st0, w, -1, Some(rest)) && rest != [] && rest[0] != '<'
  }

  lemma {:induction false} ScanProgress(line: string, startpos: nat, st0: seq<char>, i: nat, stack: seq<char>)
    requires startpos <= i <= |line| && ForwardAnchored(line, i, stack)
    requires ForwardProgress(st0, line[startpos..], i - startpos, stack)
    ensures ScanIsVerdict(line, startpos, st0, ScanLine(line, i, stack))
    decreases |line| - i
  {
    hide Run, Erase, StepForward, ForwardVerdict, ForwardProgress, ScanLine;
    ScanLineTurn(line, i, stack);
    if i == |line| {
      ForwardEndsLine(st0, line[startpos..], stack);
    } else {
      ForwardTurn(line, startpos, st0, i, stack);
      var move := StepForward(line, i, stack);
      if move.Go? { ScanProgress(line, startpos, st0, i + 1, move.stack); }
    }
  }

  lemma AnchoredScan(line: string, startpos: nat, stack: seq<char>)
    requires startpos <= |line| && ForwardAnchored(line, startpos, stack)
    ensures ScanIsVerdict(line, startpos, Erase(stack, '<'), ScanLine(line, startpos, stack))
  {
    hide ScanLine, Erase, ForwardVerdict;
    assert line[startpos..][..0] == [];
    ScanProgress(line, startpos, Erase(stack, '<'), startpos, stack);
  }

  method FindEndOfExpressionInLine(line: string, startpos: nat, stack: seq<char>)
    returns (endPos: int, newStack: Option<seq<char>>)
    requires startpos <= |line|
    ensures endPos == -1 || (startpos < endPos <= |line| && newStack.None?)
    ensures ScanLine(line, startpos, stack) ==
      if endPos != -1 then EndsAt(0, endPos) else if newStack.Some? then StillOpen(newStack.value) else NeverEnds
    ensures ForwardAnchored(line, startpos, stack) ==>
      && ForwardVerdict(Erase(stack, '<'), line[startpos..], if endPos < 0 then -1 else endPos - startpos, newStack)
      && (newStack.Some? ==> newStack.value != [] && newStack.value[0] != '<')
  {
    hide Run, Erase, StepForward, ForwardVerdict, ForwardAnchored, ScanLine;
    var st := stack;
    if ForwardAnchored(line, startpos, stack) { AnchoredScan(line, startpos, stack); }
    for i := startpos to |line|
      invariant ScanLine(line, startpos, stack) == ScanLine(line, i, st)
    {
      ScanLineTurn(line, i, st);
      match StepForward(line, i, st) {
        case Go(next, _) => st := next;
        case Found => return i + 1, None;
        case GiveUp => return -1, None;
      }
    }
    ScanLineTurn(line, |line|, st);
    return -1, Some(st);
  }

  ghost predicate OpenBetween(text: string, a: int, k: int) {
    0 <= a <= k <= |text| && LeavesOpen(Run([], text[a..k]))
  }

  /** T[a..] has been scanned up to b: brackets were open at every point, st is the stack. */
  ghost predicate OpenUpTo(text: string, a: int, b: int, st: seq<char>) {
    && 0 <= a <= b <= |text|
    && Run([], text[a..b]) == Some(st)
    && forall k :: a < k <= b ==> OpenBetween(text, a, k)
  }

  lemma ExtendScan(text: string, a: int, b: int, st: seq<char>, w: string, k: int)
    requires OpenUpTo(text, a, b, st)
    requires b + |w| <= |text| && text[b..b + |w|] == w
    requires 0 <= k <= |w|
    ensures Run([], text[a..b + k]) == Run(st, w[..k])
  {
    assert text[b..b + |w|][..k] == text[b..b + k];
    assert text[a..b + k] == text[a..b] + w[..k];
    RunSplits([], text[a..b], w[..k]);
  }

  lemma OpenUpToExtends(text: string, a: int, b: int, st: seq<char>, w: string, n: int)
    requires OpenUpTo(text, a, b, st)
    requires b + |w| <= |text| && text[b..b + |w|] == w
    requires 0 <= n <= |w| && StaysOpen(st, w, n)
    ensures Run(st, w[..n]).Some? && OpenUpTo(text, a, b + n, Run(st, w[..n]).value)
  {
    if n == 0 {
      assert w[..0] == [] && Run(st, []) == Some(st);
    } else {
      assert OpenAt(st, w, n);
    }
    hide Run;
    forall k | a < k <= b + n
      ensures OpenBetween(text, a, k)
    {
      if k > b {
        assert OpenAt(st, w, k - b);
        ExtendScan(text, a, b, st, w, k - b);
      }
    }
    ExtendScan(text, a, b, st, w, n);
  }

  /** Once the machine is stuck, or has reached the end with brackets open, no match exists. */
  lemma NoMatchAhead(text: string, a: int, b: int, st: seq<char>)
    requires OpenUpTo(text, a, b, st)
    requires b == |text| || Run([], text[a..b + 1]) == None
    ensures NoMatchFrom(text, a)
  {
    forall j | a <= j < |text|
      ensures !Matches(text, a, j)
    {
      if j >= b {
        assert text[a..j + 1] == text[a..b + 1] + text[b + 1..j + 1];
        RunSplits([], text[a..b + 1], text[b + 1..j + 1]);
      } else {
        assert OpenBetween(text, a, j + 1);
      }
    }
  }

  lemma ForwardFound(text: string, a: int, b: int, st: seq<char>, w: string, end: int)
    requires OpenUpTo(text, a, b, st) && a < |text| && IsOpen(text[a])
    requires b + |w| <= |text| && text[b..b + |w|] == w
    requires end > 0 && ForwardVerdict(st, w, end, None)
    ensures Matches(text, a, b + end - 1)
  {
    ExtendScan(text, a, b, st, w, end);
    OpenUpToExtends(text, a, b, st, w, end - 1);
    var m := text[a..b + end];
    forall k | 0 < k < |m|
      ensures OpenAt([], m, k)
    {
      assert OpenBetween(text, a, a + k);
      assert m[..k] == text[a..a + k];
    }
  }

  lemma ForwardStuck(text: string, a: int, b: int, st: seq<char>, w: string, k: int)
    requires OpenUpTo(text, a, b, st)
    requires b + |w| <= |text| && text[b..b + |w|] == w
    requires StuckAt(st, w, k)
    ensures NoMatchFrom(text, a)
  {
    ExtendScan(text, a, b, st, w, k);
    OpenUpToExtends(text, a, b, st, w, k - 1);
    NoMatchAhead(text, a, b + k - 1, Run(st, w[..k - 1]).value);
  }

  /** The search for the partner of text[a], after the text before b has been scanned. */
  ghost predicate ForwardPending(text: string, a: int, b: int, rest: Option<seq<char>>) {
    if rest.None? then NoMatchFrom(text, a)
    else rest.value != [] && rest.value[0] != '<' && OpenUpTo(text, a, b, Erase(rest.value, '<'))
  }

  lemma ForwardStep(text: string, a: int, b: int, st: seq<char>, w: string, end: int, rest: Option<seq<char>>)
    requires OpenUpTo(text, a, b, st) && a < |text| && IsOpen(text[a])
    requires b + |w| <= |text| && text[b..b + |w|] == w
    requires ForwardVerdict(st, w, end, rest) && (end >= 0 ==> rest.None?)
    requires rest.Some? ==> rest.value != [] && rest.value[0] != '<'
    ensures end >= 0 ==> end > 0 && Matches(text, a, b + end - 1)
    ensures end < 0 ==> ForwardPending(text, a, b + |w|, rest)
  {
    if end >= 0 {
      ForwardFound(text, a, b, st, w, end);
    } else if rest.None? {
      var k :| StuckAt(st, w, k);
      ForwardStuck(text, a, b, st, w, k);
    } else {
      assert w[..|w|] == w;
      OpenUpToExtends(text, a, b, st, w, |w|);
    }
  }

  lemma LineTail(lines: seq<string>, l: nat, p: nat)
    requires l < |lines| && p <= |lines[l]|
    ensures At(lines, l, p) + |lines[l][p..]| == LineStart(lines, l + 1) <= |Flat(lines)|
    ensures Flat(lines)[At(lines, l, p)..LineStart(lines, l + 1)] == lines[l][p..]
    ensures p < |lines[l]| ==> Flat(lines)[At(lines, l, p)] == lines[l][p]
  {
    LineInFlat(lines, l);
    assert Flat(lines)[LineStart(lines, l)..LineStart(lines, l + 1)][p..]
           == Flat(lines)[At(lines, l, p)..LineStart(lines, l + 1)];
    if p < |lines[l]| {
      assert Flat(lines)[LineStart(lines, l)..LineStart(lines, l + 1)][p] == lines[l][p];
    }
  }

  /** The answers of CloseExpression that are right for the bracket at (linenum, pos). */
  ghost predicate Closes(lines: seq<string>, linenum: nat, pos: nat, endLine: nat, endPos: int)
    requires linenum < |lines| && pos < |lines[linenum]|
  {
    if endPos == -1 then endLine == |lines| && NoMatchFrom(Flat(lines), At(lines, linenum, pos))
    else
      && endLine < |lines| && 0 < endPos <= |lines[endLine]|
      && Matches(Flat(lines), At(lines, linenum, pos), At(lines, endLine, endPos - 1))
  }

  /** One line of the forward search, read from column p. */
  lemma ForwardLine(lines: seq<string>, linenum: nat, pos: nat, n: nat, st: seq<char>, p: nat,
                    end: int, rest: Option<seq<char>>)
    requires linenum < |lines| && pos < |lines[linenum]| && IsOpen(lines[linenum][pos])
    requires n < |lines| && p <= |lines[n]|
    requires OpenUpTo(Flat(lines), At(lines, linenum, pos), At(lines, n, p), st)
    requires ForwardVerdict(st, lines[n][p..], end, rest) && (end >= 0 ==> rest.None?)
    requires rest.Some? ==> rest.value != [] && rest.value[0] != '<'
    ensures end >= 0 ==> end > 0 && Closes(lines, linenum, pos, n, p + end)
    ensures end < 0 ==> ForwardPending(Flat(lines), At(lines, linenum, pos), LineStart(lines, n + 1), rest)
  {
    hide Run, Flat, Erase, OpenUpTo, NoMatchFrom, Matches, ForwardPending;
    var text, a, b, w := Flat(lines), At(lines, linenum, pos), At(lines, n, p), lines[n][p..];
    assert a < |text| && text[a] == lines[linenum][pos] by { LineTail(lines, linenum, pos); }
    assert b + |w| == LineStart(lines, n + 1) <= |text| && text[b..b + |w|] == w by { LineTail(lines, n, p); }
    ForwardStep(text, a, b, st, w, end, rest);
  }

  lemma ForwardFileEnd(lines: seq<string>, linenum: nat, pos: nat, rest: Option<seq<char>>)
    requires linenum < |lines| && pos < |lines[linenum]|
    requires ForwardPending(Flat(lines), At(lines, linenum, pos), LineStart(lines, |lines|), rest)
    ensures Closes(lines, linenum, pos, |lines|, -1)
  {
    assert lines[..|lines|] == lines;
    if rest.Some? {
      NoMatchAhead(Flat(lines), At(lines, linenum, pos), |Flat(lines)|, Erase(rest.value, '<'));
    }
  }

  lemma ScanStarts(lines: seq<string>, linenum: nat, pos: nat)
    requires linenum < |lines| && pos < |lines[linenum]|
    ensures OpenUpTo(Flat(lines), At(lines, linenum, pos), At(lines, linenum, pos), [])
    ensures OpenDownTo(Flat(lines), At(lines, linenum, pos + 1), At(lines, linenum, pos + 1), [])
  {
    LineTail(lines, linenum, pos);
    LineHead(lines, linenum, pos + 1);
    var text, a := Flat(lines), At(lines, linenum, pos);
    assert text[a..a] == [] && text[a + 1..a + 1] == [];
  }

  /** What the search that began on line `from` will find, by what is open after line n. */
  function Resumed(lines: seq<string>, from: nat, n: nat, stack: Option<seq<char>>): Scan
    requires from <= n < |lines|
  {
    if stack.None? || stack.value == [] then NeverEnds
    else if n + 1 == |lines| then StillOpen(stack.value)
    else Later(ScanLines(lines[n + 1..], 0, stack.value), n + 1 - from)
  }

  /** One more line of that search. */
  lemma ResumedLine(lines: seq<string>, from: nat, n: nat, i: nat, stack: seq<char>)
    requires from <= n < |lines| && i <= |lines[n]|
    ensures Later(ScanLines(lines[n..], i, stack), n - from) ==
      match ScanLine(lines[n], i, stack)
      case EndsAt(_, p) => EndsAt(n - from, p)
      case NeverEnds => NeverEnds
      case StillOpen(rest) => Resumed(lines, from, n, Some(rest))
  {
    hide ScanLine;
    assert lines[n..][0] == lines[n];
    if n + 1 < |lines| { assert lines[n..][1..] == lines[n + 1..]; }
  }

  lemma ResumedStarts(lines: seq<string>, linenum: nat, pos: nat)
    requires linenum < |lines| && pos < |lines[linenum]|
    ensures var line := lines[linenum];
      ScanFrom(lines[linenum..], pos) ==
      if (!IsOpen(line[pos]) && line[pos] != '<')
        || (line[pos] == '<' && pos + 1 < |line| && (line[pos + 1] == '<' || line[pos + 1] == '='))
      then NeverEnds
      else
        match ScanLine(line, pos, [])
        case EndsAt(_, p) => EndsAt(0, p)
        case NeverEnds => NeverEnds
        case StillOpen(rest) => Resumed(lines, linenum, linenum, Some(rest))
  {
    hide ScanLine, ScanLines, Resumed;
    ResumedLine(lines, linenum, linenum, pos, []);
  }

  lemma ResumedGoesOn(lines: seq<string>, from: nat, n: nat, stack: Option<seq<char>>)
    requires from <= n < |lines|
    ensures Resumed(lines, from, n, stack) ==
      if stack.None? || stack.value == [] then NeverEnds
      else if n + 1 == |lines| then StillOpen(stack.value)
      else
        match ScanLine(lines[n + 1], 0, stack.value)
        case EndsAt(_, p) => EndsAt(n + 1 - from, p)
        case NeverEnds => NeverEnds
        case StillOpen(rest) => Resumed(lines, from, n + 1, Some(rest))
  {
    hide ScanLine, ScanLines;
    if n + 1 < |lines| && stack.Some? { ResumedLine(lines, from, n + 1, 0, stack.value); }
  }

  /** The line and column behind the closing bracket, and the text of that line; past the
      last line and at column -1 when there is none. */
  method CloseExpression(lines: seq<string>, linenum: nat, pos: nat)
    returns (line: string, endLine: nat, endPos: int)
    requires linenum < |lines| && pos < |lines[linenum]|
    ensures IsOpen(lines[linenum][pos]) ==> Closes(lines, linenum, pos, endLine, endPos)
    ensures endPos != -1 ==> endLine < |lines| && 0 < endPos <= |lines[endLine]| && line == lines[endLine]
    ensures endPos == -1 <==> endLine == |lines|
    ensures !IsOpen(lines[linenum][pos]) && lines[linenum][pos] != '<' ==> endPos == -1
    ensures match ScanFrom(lines[linenum..], pos)
            case EndsAt(l, p) => endLine == linenum + l && endPos == p
            case _ => endPos == -1
  {
    hide ScanLine, ScanLines, LineStart, Flat, ForwardVerdict, OpenUpTo, Erase, NoMatchFrom, Matches, StepForward,
      Closes, ScanFrom;
    ResumedStarts(lines, linenum, pos);
    line := lines[linenum];
    if (!IsOpen(line[pos]) && line[pos] != '<')
      || (line[pos] == '<' && pos + 1 < |line| && (line[pos + 1] == '<' || line[pos + 1] == '='))
    {
      return line, |lines|, -1;
    }
    ghost var bracket := IsOpen(line[pos]);
    ScanStarts(lines, linenum, pos);
    var n := linenum;
    EraseNothing('<');
    var end, stack := FindEndOfExpressionInLine(line, pos, []);
    if bracket { ForwardLine(lines, linenum, pos, n, [], pos, if end < 0 then -1 else end - pos, stack); }
    if end > -1 {
      return line, n, end;
    }
    while stack.Some? && stack.value != [] && n < |lines| - 1
      invariant linenum <= n < |lines|
      invariant bracket ==> ForwardPending(Flat(lines), At(lines, linenum, pos), LineStart(lines, n + 1), stack)
      invariant ScanFrom(lines[linenum..], pos) == Resumed(lines, linenum, n, stack)
      decreases |lines| - n
    {
      ghost var st0 := Erase(stack.value, '<');
      ResumedGoesOn(lines, linenum, n, stack);
      n := n + 1;
      line := lines[n];
      assert line[0..] == line;
      end, stack := FindEndOfExpressionInLine(line, 0, stack.value);
      if bracket { ForwardLine(lines, linenum, pos, n, st0, 0, end, stack); }
      if end > -1 {
        return line, n, end;
      }
    }
    if bracket { ForwardFileEnd(lines, linenum, pos, stack); }
    return line, |lines|, -1;
  }

  // ----- Scanning backward -----

  /** From the stack st, every non-empty suffix of w from n on leaves brackets open. */
  ghost predicate StaysOpenBack(st: seq<char>, w: string, n: int) {
    forall k :: 0 <= n <= k < |w| ==> OpenBackAt(st, w, k)
  }

  ghost predicate StuckBackAt(st: seq<char>, w: string, k: int) {
    0 <= k < |w| && RunBack(st, w[k..]) == None && StaysOpenBack(st, w, k + 1)
  }

  /** What a backward scan of w must report, told by the backward machine started on st. */
  ghost predicate BackwardVerdict(st: seq<char>, w: string, start: int, rest: Option<seq<char>>) {
    if start >= 0 then
      start < |w| && RunBack(st, w[start..]) == Some([]) && StaysOpenBack(st, w, start + 1)
    else if rest.None? then
      exists k :: StuckBackAt(st, w, k)
    else
      RunBack(st, w) == Some(Erase(rest.value, '>')) && StaysOpenBack(st, w, 0)
  }

  ghost predicate BackwardAnchored(line: string, endpos: int, st: seq<char>) {
    if st == [] then 0 <= endpos < |line| && IsClose(line[endpos]) else st[0] != '>'
  }

  /** The characters of w after index i have been read; cur is the scanner's own stack. */
  ghost predicate BackwardProgress(st: seq<char>, w: string, i: int, cur: seq<char>) {
    && -1 <= i < |w|
    && RunBack(st, w[i + 1..]) == Some(Erase(cur, '>'))
    && StaysOpenBack(st, w, i + 1)
  }

  lemma BackwardAdvance(st: seq<char>, w: string, i: nat, cur: seq<char>, next: seq<char>)
    requires BackwardProgress(st, w, i, cur)
    requires PopPush(Erase(cur, '>'), w[i]) == Some(Erase(next, '>'))
    requires next != [] && next[0] != '>'
    ensures BackwardProgress(st, w, i - 1, next)
  {
    assert w[i..][1..] == w[i + 1..] && w[i..][0] == w[i];
    EraseKeepsBottom(next, '>');
    forall k | i <= k < |w|
      ensures OpenBackAt(st, w, k)
    {
      if k > i { assert i + 1 <= k; }
    }
  }

  lemma BackwardFinish(st: seq<char>, w: string, i: nat, cur: seq<char>)
    requires BackwardProgress(st, w, i, cur)
    ensures PopPush(Erase(cur, '>'), w[i]) == Some([]) ==> BackwardVerdict(st, w, i, None)
    ensures PopPush(Erase(cur, '>'), w[i]) == None ==> StuckBackAt(st, w, i)
  {
    assert w[i..][1..] == w[i + 1..] && w[i..][0] == w[i];
    assert RunBack(st, w[i..]) == PopPush(Erase(cur, '>'), w[i]);
  }

  /** One turn of the loop of FindStartOfExpressionInLine; "->", ">=", "operator>"
      and "<<" make it pass over two characters at once. */
  function StepBackward(line: string, i: nat, stack: seq<char>): Move
    requires i < |line|
  {
    var c := line[i];
    if IsClose(c) then Go(stack + [c], 1)
    else if c == '>' then
      if i > 0 && (line[i - 1] == '-' || IsSpacedGreaterEqual(line[i - 1..]) || EndsWithOperator(line[..i]))
      then Go(stack, 2)
      else Go(stack + ['>'], 1)
    else if c == '<' then
      if i > 0 && line[i - 1] == '<' then Go(stack, 2)
      else if stack != [] && stack[|stack| - 1] == '>' then
        if |stack| == 1 then Found else Go(stack[..|stack| - 1], 1)
      else Go(stack, 1)
    else if IsOpen(c) then
      var st := DropTentative(stack, '>');
      if st == [] then GiveUp
      else if !Pairs(c, st[|st| - 1]) then GiveUp
      else if |st| == 1 then Found
      else Go(st[..|st| - 1], 1)
    else if c == ';' then
      var st := DropTentative(stack, '>');
      if st == [] then GiveUp else Go(st, 1)
    else Go(stack, 1)
  }

  /** The second character passed over is never a bracket. */
  lemma SkippedIsNoBracket(line: string, i: nat, stack: seq<char>)
    requires i < |line| && StepBackward(line, i, stack).Go? && StepBackward(line, i, stack).width != 1
    ensures StepBackward(line, i, stack) == Go(stack, 2)
    ensures i > 0 && !IsOpen(line[i - 1]) && !IsClose(line[i - 1])
  {
    if line[i] == '>' && line[i - 1] != '-' && !IsSpacedGreaterEqual(line[i - 1..]) {
      OperatorEndsInNoBracket(line[..i]);
    }
  }

  lemma StepBackwardPushes(line: string, i: nat, stack: seq<char>)
    requires i < |line| && BackwardAnchored(line, i, stack) && IsClose(line[i])
    ensures MoveAgrees(StepBackward(line, i, stack), PopPush(Erase(stack, '>'), line[i]), '>')
  {
    EraseAppend(stack, line[i], '>');
    if stack == [] { EraseNothing('>'); }
  }

  lemma StepBackwardPops(line: string, i: nat, stack: seq<char>)
    requires i < |line| && stack != [] && stack[0] != '>' && IsOpen(line[i])
    ensures MoveAgrees(StepBackward(line, i, stack), PopPush(Erase(stack, '>'), line[i]), '>')
  {
    hide Erase, DropTentative;
    PoppedAgrees(stack, '>');
  }

  lemma StepBackwardPasses(line: string, i: nat, stack: seq<char>)
    requires i < |line| && stack != [] && stack[0] != '>' && !IsOpen(line[i]) && !IsClose(line[i])
    ensures MoveAgrees(StepBackward(line, i, stack), PopPush(Erase(stack, '>'), line[i]), '>')
  {
    hide Erase, DropTentative, EndsWithOperator, IsSpacedGreaterEqual;
    AngleAgrees(stack, '>');
  }

  lemma StepBackwardRefines(line: string, i: nat, stack: seq<char>)
    requires i < |line| && BackwardAnchored(line, i, stack)
    ensures MoveAgrees(StepBackward(line, i, stack), PopPush(Erase(stack, '>'), line[i]), '>')
  {
    hide StepBackward, Erase, PopPush;
    if IsClose(line[i]) {
      StepBackwardPushes(line, i, stack);
    } else if IsOpen(line[i]) {
      StepBackwardPops(line, i, stack);
    } else {
      StepBackwardPasses(line, i, stack);
    }
  }

  /** One turn of the loop, seen by the backward machine reading line[..endpos + 1]. */
  lemma BackwardTurn(line: string, endpos: int, st0: seq<char>, i: nat, stack: seq<char>)
    requires i <= endpos < |line| && BackwardAnchored(line, i, stack)
    requires BackwardProgress(st0, line[..endpos + 1], i, stack)
    ensures var w := line[..endpos + 1];
      match StepBackward(line, i, stack)
      case Go(next, width) =>
        0 < width <= i + 1 && next != [] && next[0] != '>' && BackwardProgress(st0, w, i - width, next)
      case Found => BackwardVerdict(st0, w, i, None)
      case GiveUp => BackwardVerdict(st0, w, -1, None)
  {
    var w, m := line[..endpos + 1], StepBackward(line, i, stack);
    StepBackwardRefines(line, i, stack);
    BackwardFinish(st0, w, i, stack);
    hide StepBackward, RunBack, Erase;
    if m.Go? {
      BackwardAdvance(st0, w, i, stack, m.stack);
      if m.width != 1 {
        SkippedIsNoBracket(line, i, stack);
        BackwardAdvance(st0, w, i - 1, m.stack, m.stack);
      }
    }
  }

  lemma BackwardEndsLine(st0: seq<char>, w: string, stack: seq<char>)
    requires BackwardProgress(st0, w, -1, stack)
    ensures BackwardVerdict(st0, w, -1, Some(stack))
  {
    assert w[0..] == w;
  }

  /** A line read backward from column i; EndsAt is where the expression starts. */
  function ScanLineBack(line: string, i: int, stack: seq<char>): (r: Scan)
    requires -1 <= i < |line|
    ensures r.EndsAt? ==> r.line == 0 && 0 <= r.pos <= i
    decreases i + 1
  {
    if i < 0 then StillOpen(stack)
    else
      match StepBackward(line, i, stack)
      case Go(next, width) => if width == 1 then ScanLineBack(line, i - 1, next)
                              else assert i > 0 by { SkippedIsNoBracket(line, i, stack); }
                                   ScanLineBack(line, i - 2, next)
      case Found => EndsAt(0, i)
      case GiveUp => NeverEnds
  }

  lemma ScanLineBackTurn(line: string, i: int, stack: seq<char>)
    requires -1 <= i < |line|
    ensures i < 0 ==> ScanLineBack(line, i, stack) == StillOpen(stack)
    ensures i >= 0 ==>
      match StepBackward(line, i, stack)
      case Go(next, width) =>
        (width == 1 || (width == 2 && i > 0)) && ScanLineBack(line, i, stack) == ScanLineBack(line, i - width, next)
      case Found => ScanLineBack(line, i, stack) == EndsAt(0, i)
      case GiveUp => ScanLineBack(line, i, stack) == NeverEnds
  {
    if i >= 0 && StepBackward(line, i, stack).Go? && StepBackward(line, i, stack).width != 1 {
      SkippedIsNoBracket(line, i, stack);
    }
    hide StepBackward;
  }

  /** What the backward scan of a line must report, when it began at endpos. */
  ghost predicate ScanIsBackVerdict(line: string, endpos: int, st0: seq<char>, r: Scan)
    requires -1 <= endpos < |line|
  {
    var w := line[..endpos + 1];
    match r
    case EndsAt(_, p) => BackwardVerdict(st0, w, p, None)
    case NeverEnds => BackwardVerdict(st0, w, -1, None)
    case StillOpen(rest) => BackwardVerdict(st0, w, -1, Some(rest)) && rest != [] && rest[0] != '>'
  }

  lemma {:induction false} ScanProgressBack(line: string, endpos: int, st0: seq<char>, i: int, stack: seq<char>)
    requires -1 <= i <= endpos < |line|
    requires if i == endpos then BackwardAnchored(line, i, stack) else stack != [] && stack[0] != '>'
    requires BackwardProgress(st0, line[..endpos + 1], i, stack)
    ensures ScanIsBackVerdict(line, endpos, st0, ScanLineBack(line, i, stack))
    decreases i + 1
  {
    hide RunBack, Erase, StepBackward, BackwardVerdict, BackwardProgress, ScanLineBack;
    ScanLineBackTurn(line, i, stack);
    if i < 0 {
      BackwardEndsLine(st0, line[..endpos + 1], stack);
    } else {
      BackwardTurn(line, endpos, st0, i, stack);
      var move := StepBackward(line, i, stack);
      if move.Go? { ScanProgressBack(line, endpos, st0, i - move.width, move.stack); }
    }
  }

  lemma AnchoredScanBack(line: string, endpos: int, stack: seq<char>)
    requires -1 <= endpos < |line| && BackwardAnchored(line, endpos, stack)
    ensures ScanIsBackVerdict(line, endpos, Erase(stack, '>'), ScanLineBack(line, endpos, stack))
  {
    hide ScanLineBack, Erase, BackwardVerdict;
    var w := line[..endpos + 1];
    assert w[|w|..] == [];
    ScanProgressBack(line, endpos, Erase(stack, '>'), endpos, stack);
  }

  method FindStartOfExpressionInLine(line: string, endpos: int, stack: seq<char>)
    returns (startPos: int, newStack: Option<seq<char>>)
    requires -1 <= endpos < |line|
    ensures startPos == -1 || (0 <= startPos <= endpos && newStack.None?)
    ensures ScanLineBack(line, endpos, stack) ==
      if startPos != -1 then EndsAt(0, startPos) else if newStack.Some? then StillOpen(newStack.value) else NeverEnds
    ensures BackwardAnchored(line, endpos, stack) ==>
      && BackwardVerdict(Erase(stack, '>'), line[..endpos + 1], startPos, newStack)
      && (newStack.Some? ==> newStack.value != [] && newStack.value[0] != '>')
  {
    hide RunBack, Erase, StepBackward, BackwardVerdict, BackwardAnchored, ScanLineBack;
    var st := stack;
    var i := endpos;
    if BackwardAnchored(line, endpos, stack) { AnchoredScanBack(line, endpos, stack); }
    while i >= 0
      invariant -1 <= i <= endpos
      invariant ScanLineBack(line, endpos, stack) == ScanLineBack(line, i, st)
    {
      ScanLineBackTurn(line, i, st);
      match StepBackward(line, i, st) {
        case Found => return i, None;
        case GiveUp => return -1, None;
        case Go(next, width) =>
          st := next;
          i := i - width;
      }
    }
    ScanLineBackTurn(line, i, st);
    return -1, Some(st);
  }

  ghost predicate OpenBackBetween(text: string, k: int, e: int) {
    0 <= k <= e <= |text| && LeavesOpen(RunBack([], text[k..e]))
  }

  /** T[..e] read backward down to b: brackets were open at every point, st is the stack. */
  ghost predicate OpenDownTo(text: string, e: int, b: int, st: seq<char>) {
    && 0 <= b <= e <= |text|
    && RunBack([], text[b..e]) == Some(st)
    && forall k :: b <= k < e ==> OpenBackBetween(text, k, e)
  }

  lemma {:induction false} RunBackSplits(st: seq<char>, u: string, v: string)
    ensures RunBack(st, u + v) == match RunBack(st, v) case None => None case Some(s) => RunBack(s, u)
  {
    if u == [] {
      assert u + v == v;
    } else {
      RunBackSplits(st, u[1..], v);
      assert (u + v)[1..] == u[1..] + v;
    }
  }

  lemma ExtendBack(text: string, e: int, o: int, st: seq<char>, w: string, k: int)
    requires 0 <= o && OpenDownTo(text, e, o + |w|, st) && text[o..o + |w|] == w
    requires 0 <= k <= |w|
    ensures RunBack([], text[o + k..e]) == RunBack(st, w[k..])
  {
    var b := o + |w|;
    assert text[o..b][k..] == text[o + k..b];
    assert text[o + k..e] == w[k..] + text[b..e];
    RunBackSplits([], w[k..], text[b..e]);
  }

  lemma OpenDownToExtends(text: string, e: int, o: int, st: seq<char>, w: string, n: int)
    requires 0 <= o && OpenDownTo(text, e, o + |w|, st) && text[o..o + |w|] == w
    requires 0 <= n <= |w| && StaysOpenBack(st, w, n) && RunBack(st, w[n..]).Some?
    ensures OpenDownTo(text, e, o + n, RunBack(st, w[n..]).value)
  {
    hide RunBack;
    forall k | o + n <= k < e
      ensures OpenBackBetween(text, k, e)
    {
      if k < o + |w| {
        assert OpenBackAt(st, w, k - o);
        ExtendBack(text, e, o, st, w, k - o);
      }
    }
    ExtendBack(text, e, o, st, w, n);
  }

  lemma NoMatchBehind(text: string, e: int, b: int, st: seq<char>)
    requires OpenDownTo(text, e, b, st) && e > 0
    requires b == 0 || RunBack([], text[b - 1..e]) == None
    ensures NoMatchTo(text, e - 1)
  {
    var j := e - 1;
    forall i | 0 <= i < e
      ensures !Matches(text, i, j)
    {
      PrimeIsPrimeBack(text[i..e]);
      if i < b {
        assert text[i..e] == text[i..b - 1] + text[b - 1..e];
        RunBackSplits([], text[i..b - 1], text[b - 1..e]);
      } else {
        assert OpenBackBetween(text, i, e);
      }
    }
  }

  lemma BackwardFound(text: string, e: int, o: int, st: seq<char>, w: string, start: int)
    requires 0 <= o && OpenDownTo(text, e, o + |w|, st) && text[o..o + |w|] == w
    requires e > 0 && IsClose(text[e - 1])
    requires start >= 0 && BackwardVerdict(st, w, start, None)
    ensures Matches(text, o + start, e - 1)
  {
    hide RunBack;
    var m := text[o + start..e];
    ExtendBack(text, e, o, st, w, start);
    forall k | 0 < k < |m|
      ensures OpenBackAt([], m, k)
    {
      assert m[k..] == text[o + start + k..e];
      if start + k < |w| {
        assert OpenBackAt(st, w, start + k);
        ExtendBack(text, e, o, st, w, start + k);
      } else {
        assert OpenBackBetween(text, o + start + k, e);
      }
    }
    PrimeIsPrimeBack(m);
  }

  lemma BackwardStuck(text: string, e: int, o: int, st: seq<char>, w: string, k: int)
    requires 0 <= o && OpenDownTo(text, e, o + |w|, st) && text[o..o + |w|] == w
    requires e > 0 && StuckBackAt(st, w, k)
    ensures NoMatchTo(text, e - 1)
  {
    assert RunBack(st, w[k + 1..]).Some? by {
      if k + 1 < |w| {
        assert OpenBackAt(st, w, k + 1);
      } else {
        assert w[k + 1..] == [];
      }
    }
    hide RunBack;
    OpenDownToExtends(text, e, o, st, w, k + 1);
    ExtendBack(text, e, o, st, w, k);
    NoMatchBehind(text, e, o + k + 1, RunBack(st, w[k + 1..]).value);
  }

  /** The search for the partner of text[e - 1], after the text from b on has been scanned. */
  ghost predicate BackwardPending(text: string, e: int, b: int, rest: Option<seq<char>>) {
    if rest.None? then NoMatchTo(text, e - 1)
    else rest.value != [] && rest.value[0] != '>' && OpenDownTo(text, e, b, Erase(rest.value, '>'))
  }

  lemma BackwardStep(text: string, e: int, o: int, st: seq<char>, w: string, start: int, rest: Option<seq<char>>)
    requires 0 <= o && OpenDownTo(text, e, o + |w|, st) && text[o..o + |w|] == w
    requires e > 0 && IsClose(text[e - 1])
    requires BackwardVerdict(st, w, start, rest) && (start >= 0 ==> rest.None?)
    requires rest.Some? ==> rest.value != [] && rest.value[0] != '>'
    ensures start >= 0 ==> Matches(text, o + start, e - 1)
    ensures start < 0 ==> BackwardPending(text, e, o, rest)
  {
    if start >= 0 {
      BackwardFound(text, e, o, st, w, start);
    } else if rest.None? {
      var k :| StuckBackAt(st, w, k);
      BackwardStuck(text, e, o, st, w, k);
    } else {
      assert w[0..] == w;
      OpenDownToExtends(text, e, o, st, w, 0);
    }
  }

  lemma LineHead(lines: seq<string>, l: nat, p: nat)
    requires l < |lines| && p <= |lines[l]|
    ensures At(lines, l, p) <= |Flat(lines)|
    ensures Flat(lines)[LineStart(lines, l)..At(lines, l, p)] == lines[l][..p]
    ensures p > 0 ==> Flat(lines)[At(lines, l, p) - 1] == lines[l][p - 1]
  {
    LineInFlat(lines, l);
    var whole := Flat(lines)[LineStart(lines, l)..LineStart(lines, l + 1)];
    assert whole[..p] == Flat(lines)[LineStart(lines, l)..At(lines, l, p)];
    if p > 0 { assert whole[p - 1] == lines[l][p - 1]; }
  }

  lemma WholeLine(lines: seq<string>, l: nat)
    requires l < |lines|
    ensures lines[l][..|lines[l]|] == lines[l]
    ensures LineStart(lines, l + 1) == LineStart(lines, l) + |lines[l]| <= |Flat(lines)|
    ensures Flat(lines)[LineStart(lines, l)..LineStart(lines, l) + |lines[l]|] == lines[l]
  {
    LineInFlat(lines, l);
  }

  /** The answers of ReverseCloseExpression that are right for the bracket at (linenum, pos). */
  ghost predicate Reopens(lines: seq<string>, linenum: nat, pos: nat, startLine: nat, startPos: int)
    requires linenum < |lines| && pos < |lines[linenum]|
  {
    if startPos == -1 then startLine == 0 && NoMatchTo(Flat(lines), At(lines, linenum, pos))
    else
      && startLine < |lines| && 0 <= startPos < |lines[startLine]|
      && Matches(Flat(lines), At(lines, startLine, startPos), At(lines, linenum, pos))
  }

  /** One line of the backward search, read from its last column. */
  lemma BackwardLine(lines: seq<string>, linenum: nat, pos: nat, n: nat, st: seq<char>, width: nat,
                     start: int, rest: Option<seq<char>>)
    requires linenum < |lines| && pos < |lines[linenum]| && IsClose(lines[linenum][pos])
    requires n < |lines| && width <= |lines[n]|
    requires OpenDownTo(Flat(lines), At(lines, linenum, pos + 1), At(lines, n, width), st)
    requires BackwardVerdict(st, lines[n][..width], start, rest) && (start >= 0 ==> rest.None?)
    requires rest.Some? ==> rest.value != [] && rest.value[0] != '>'
    ensures start >= 0 ==> start < width && Reopens(lines, linenum, pos, n, start)
    ensures start < 0 ==> BackwardPending(Flat(lines), At(lines, linenum, pos + 1), LineStart(lines, n), rest)
  {
    hide RunBack, Flat, Run, OpenDownTo, NoMatchTo, Matches, BackwardPending;
    var text, e, o, w := Flat(lines), At(lines, linenum, pos + 1), LineStart(lines, n), lines[n][..width];
    assert e > 0 && IsClose(text[e - 1]) by { LineHead(lines, linenum, pos + 1); }
    assert text[o..o + |w|] == w by { LineHead(lines, n, width); }
    BackwardStep(text, e, o, st, w, start, rest);
  }

  lemma BackwardEnd(lines: seq<string>, linenum: nat, pos: nat, rest: Option<seq<char>>)
    requires linenum < |lines| && pos < |lines[linenum]|
    requires BackwardPending(Flat(lines), At(lines, linenum, pos + 1), 0, rest)
    ensures Reopens(lines, linenum, pos, 0, -1)
  {
    if rest.Some? {
      NoMatchBehind(Flat(lines), At(lines, linenum, pos + 1), 0, Erase(rest.value, '>'));
    }
  }

  /** Lines read backward from column i of line n. */
  function ScanLinesBack(lines: seq<string>, n: nat, i: int, stack: seq<char>): (r: Scan)
    requires n < |lines| && -1 <= i < |lines[n]|
    ensures r.EndsAt? ==> r.line <= n && r.pos < |lines[r.line]|
  {
    match ScanLineBack(lines[n], i, stack)
    case EndsAt(_, p) => EndsAt(n, p)
    case NeverEnds => NeverEnds
    case StillOpen(rest) =>
      if rest == [] then NeverEnds
      else if n == 0 then StillOpen(rest)
      else ScanLinesBack(lines, n - 1, |lines[n - 1]| - 1, rest)
  }

  /** What the search will find by what is open before line n. */
  function ResumedBack(lines: seq<string>, n: nat, stack: Option<seq<char>>): Scan
    requires n <= |lines|
  {
    if stack.None? || stack.value == [] then NeverEnds
    else if n == 0 then StillOpen(stack.value)
    else ScanLinesBack(lines, n - 1, |lines[n - 1]| - 1, stack.value)
  }

  lemma FirstLineStarts(lines: seq<string>)
    ensures LineStart(lines, 0) == 0
  {
    assert lines[..0] == [];
  }

  lemma ScanLinesBackTurn(lines: seq<string>, n: nat, i: int, stack: seq<char>)
    requires n < |lines| && -1 <= i < |lines[n]|
    ensures ScanLinesBack(lines, n, i, stack) ==
      match ScanLineBack(lines[n], i, stack)
      case EndsAt(_, p) => EndsAt(n, p)
      case NeverEnds => NeverEnds
      case StillOpen(rest) => ResumedBack(lines, n, Some(rest))
  {
    hide ScanLineBack;
  }

  method ReverseCloseExpression(lines: seq<string>, linenum: nat, pos: nat)
    returns (line: string, startLine: nat, startPos: int)
    requires linenum < |lines| && pos < |lines[linenum]|
    ensures IsClose(lines[linenum][pos]) ==> Reopens(lines, linenum, pos, startLine, startPos)
    ensures startPos != -1 ==> startLine < |lines| && 0 <= startPos < |lines[startLine]| && line == lines[startLine]
    ensures startPos == -1 ==> startLine == 0
    ensures !IsClose(lines[linenum][pos]) && lines[linenum][pos] != '>' ==> startPos == -1
    ensures IsClose(lines[linenum][pos]) || lines[linenum][pos] == '>' ==>
      match ScanLinesBack(lines, linenum, pos, [])
      case EndsAt(l, p) => startLine == l && startPos == p
      case _ => startPos == -1
  {
    hide ScanLineBack, LineStart, Flat, BackwardVerdict, OpenDownTo, Erase, NoMatchTo, Matches, StepBackward,
      Reopens, ScanLinesBack;
    ScanLinesBackTurn(lines, linenum, pos, []);
    line := lines[linenum];
    if !IsClose(line[pos]) && line[pos] != '>' {
      return line, 0, -1;
    }
    ghost var bracket := IsClose(line[pos]);
    ScanStarts(lines, linenum, pos);
    EraseNothing('>');
    var n := linenum;
    var start, stack := FindStartOfExpressionInLine(line, pos, []);
    if bracket { BackwardLine(lines, linenum, pos, n, [], pos + 1, start, stack); }
    if start > -1 {
      return line, n, start;
    }
    while stack.Some? && stack.value != [] && n > 0
      invariant 0 <= n <= linenum
      invariant bracket ==> BackwardPending(Flat(lines), At(lines, linenum, pos + 1), LineStart(lines, n), stack)
      invariant ScanLinesBack(lines, linenum, pos, []) == ResumedBack(lines, n, stack)
      decreases n
    {
      ghost var st0 := Erase(stack.value, '>');
      n := n - 1;
      line := lines[n];
      WholeLine(lines, n);
      ScanLinesBackTurn(lines, n, |line| - 1, stack.value);
      start, stack := FindStartOfExpressionInLine(line, |line| - 1, stack.value);
      if bracket { BackwardLine(lines, linenum, pos, n, st0, |line|, start, stack); }
      if start > -1 {
        return line, n, start;
      }
    }
    if bracket {
      FirstLineStarts(lines);
      BackwardEnd(lines, linenum, pos, stack);
    }
    return line, 0, -1;
  }

  // ----- Round trips -----

  /** Closing an opening bracket and reopening the closer found leads back to it. */
  method ReopenAfterClose(lines: seq<string>, linenum: nat, pos: nat)
    returns (closed: bool, startLine: nat, startPos: int)
    requires linenum < |lines| && pos < |lines[linenum]| && IsOpen(lines[linenum][pos])
    ensures closed ==> startLine == linenum && startPos == pos
    ensures closed <==> exists j :: Matches(Flat(lines), At(lines, linenum, pos), j)
  {
    hide Flat, LineStart, IsPrime, ScanFrom, Matches;
    var _, endLine, endPos := CloseExpression(lines, linenum, pos);
    if endPos == -1 {
      return false, 0, -1;
    }
    var text, i, j := Flat(lines), At(lines, linenum, pos), At(lines, endLine, endPos - 1);
    LineHead(lines, endLine, endPos);
    ClosedByCloser(text, i, j);
    var _, l, p := ReverseCloseExpression(lines, endLine, endPos - 1);
    MatchIsUnique(text, i, j, At(lines, l, p), j);
    PositionsAreDistinct(lines, linenum, pos, l, p);
    return true, l, p;
  }

  /** And the other way round, from a closing bracket. */
  method CloseAfterReopen(lines: seq<string>, linenum: nat, pos: nat)
    returns (found: bool, endLine: nat, endPos: int)
    requires linenum < |lines| && pos < |lines[linenum]| && IsClose(lines[linenum][pos])
    ensures found ==> endLine == linenum && endPos == pos + 1
    ensures found <==> exists i :: Matches(Flat(lines), i, At(lines, linenum, pos))
  {
    hide Flat, LineStart, IsPrime, ScanFrom, Matches;
    var _, startLine, startPos := ReverseCloseExpression(lines, linenum, pos);
    if startPos == -1 {
      return false, 0, -1;
    }
    var text, i, j := Flat(lines), At(lines, startLine, startPos), At(lines, linenum, pos);
    LineTail(lines, startLine, startPos);
    ClosedByCloser(text, i, j);
    var _, l, q := CloseExpression(lines, startLine, startPos);
    MatchIsUnique(text, i, j, i, At(lines, l, q - 1));
    PositionsAreDistinct(lines, linenum, pos, l, q - 1);
    return true, l, q;
  }

  lemma ClosedByCloser(text: string, i: int, j: int)
    requires Matches(text, i, j)
    ensures IsOpen(text[i]) && IsClose(text[j])
  {
    PrimeIsPrimeBack(text[i..j + 1]);
    assert text[i..j + 1][0] == text[i] && text[i..j + 1][j - i] == text[j];
  }

  // ----- _GetTextInside -----

  lemma MirrorTop(st: seq<char>, c: char)
    requires AllOpen(st) && st != []
    ensures Mirror(st)[|st| - 1] == c <==> Pairs(st[|st| - 1], c)
    ensures Mirror(st[..|st| - 1]) == Mirror(st)[..|st| - 1]
    ensures Mirror(st + [c]) == Mirror(st) + [Flip(c)]
  {
  }

  lemma ScanGrows(text: string, a: int, p: int, st: seq<char>)
    requires OpenUpTo(text, a, p, st) && p < |text|
    ensures Run([], text[a..p + 1]) == PushPop(st, text[p])
    ensures PushPop(st, text[p]).Some? && PushPop(st, text[p]).value != [] ==>
      OpenUpTo(text, a, p + 1, PushPop(st, text[p]).value)
  {
    assert text[a..p + 1][..p - a] == text[a..p];
    if LeavesOpen(PushPop(st, text[p])) {
      assert forall k :: a < k <= p ==> OpenBetween(text, a, k);
    }
  }

  lemma ScanCloses(text: string, a: int, p: int, st: seq<char>)
    requires OpenUpTo(text, a, p, st) && a < p < |text| && IsOpen(text[a])
    requires PushPop(st, text[p]) == Some([])
    ensures Matches(text, a, p)
  {
    ScanGrows(text, a, p, st);
    var w := text[a..p + 1];
    forall k | 0 < k < |w|
      ensures OpenAt([], w, k)
    {
      assert OpenBetween(text, a, a + k) && w[..k] == text[a..a + k];
    }
  }

  /** The answers of GetTextInside that are right where the start pattern ends at `start`. */
  ghost predicate IsTextInside(text: string, start: nat, inside: Option<string>) {
    if inside.None? then NoMatchFrom(text, start - 1)
    else exists j :: Matches(text, start - 1, j) && start <= j < |text| && inside.value == text[start..j]
  }

  /** `matchEnd`: where the match of the start pattern ends, behind an opening bracket, if
      there is one. */
  method GetTextInside(text: string, matchEnd: Option<nat>) returns (inside: Option<string>)
    requires matchEnd.Some? ==> 0 < matchEnd.value <= |text| && IsOpen(text[matchEnd.value - 1])
    ensures if matchEnd.None? then inside.None? else IsTextInside(text, matchEnd.value, inside)
  {
    if matchEnd.None? {
      return None;
    }
    var start := matchEnd.value;
    var expected := [Flip(text[start - 1])];
    var position := start;
    ghost var a := start - 1;
    ghost var open := [text[a]];
    assert text[a..a] == [] && [] + [text[a]] == open;
    ScanGrows(text, a, a, []);
    assert expected == Mirror(open);
    hide Run, Mirror;
    while expected != [] && position < |text|
      invariant start <= position <= |text|
      invariant expected == Mirror(open) && AllOpen(open)
      invariant open != [] ==> OpenUpTo(text, a, position, open)
      invariant open == [] ==> Matches(text, a, position - 1)
      decreases |text| - position
    {
      var c := text[position];
      ScanGrows(text, a, position, open);
      MirrorTop(open, c);
      if c == expected[|expected| - 1] {
        expected := expected[..|expected| - 1];
        if |open| == 1 { ScanCloses(text, a, position, open); }
        open := open[..|open| - 1];
      } else if IsClose(c) {
        NoMatchAhead(text, a, position, open);
        return None;
      } else if IsOpen(c) {
        expected := expected + [Flip(c)];
        open := open + [c];
      }
      position := position + 1;
    }
    if expected != [] {
      NoMatchAhead(text, a, |text|, open);
      return None;
    }
    return Some(text[start..position - 1]);
  }

  lemma OneLine(text: string)
    ensures Flat([text]) == text && LineStart([text], 0) == 0
  {
    assert [text][..0] == [];
  }

  /** On one line the two searches agree: the text is what lies before the closer found. */
  lemma TextInsideIsClosed(text: string, start: nat, inside: Option<string>, endLine: nat, endPos: int)
    requires 0 < start <= |text| && IsOpen(text[start - 1])
    requires IsTextInside(text, start, inside) && Closes([text], 0, start - 1, endLine, endPos)
    ensures inside.Some? <==> endPos != -1
    ensures inside.Some? ==> start < endPos <= |text| && inside.value == text[start..endPos - 1]
  {
    OneLine(text);
    hide Flat, LineStart, Matches;
    if inside.Some? && endPos != -1 {
      var j :| Matches(text, start - 1, j) && start <= j < |text| && inside.value == text[start..j];
      MatchIsUnique(text, start - 1, j, start - 1, endPos - 1);
    }
  }
}
