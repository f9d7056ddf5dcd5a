/** Removal of multi-line comments, in place, from a file's lines (tools/cpplint.py). */
module LintComments {
  import opened Wrappers
  import Text = LintBrackets

  const BLANK := "/**/"

  function TrimLeft(s: string): string {
    if s != [] && Text.IsSpace(s[0]) then TrimLeft(s[1..]) else s
  }

  function Strip(s: string): string { TrimLeft(Text.TrimRight(s)) }

  predicate AllSpace(s: string) { forall i :: 0 <= i < |s| ==> Text.IsSpace(s[i]) }

  /** Stripping takes the white space off both ends, and nothing else. */
  lemma StripIsMiddle(pre: string, middle: string, post: string)
    requires AllSpace(pre) && AllSpace(post)
    requires middle != [] ==> !Text.IsSpace(middle[0]) && !Text.IsSpace(middle[|middle| - 1])
    ensures Strip(pre + middle + post) == middle
  {
    TrimRightDrops(pre + middle, post);
    if middle == [] {
      TrimRightDrops([], pre);
      assert [] + pre == pre && pre + middle == pre;
    } else {
      assert (pre + middle)[|pre + middle| - 1] == middle[|middle| - 1];
      TrimLeftDrops(pre, middle);
    }
  }

  lemma {:induction false} TrimRightDrops(s: string, post: string)
    requires AllSpace(post)
    ensures Text.TrimRight(s + post) == Text.TrimRight(s)
  {
    if post == [] {
      assert s + post == s;
    } else {
      assert (s + post)[..|s + post| - 1] == s + post[..|post| - 1];
      TrimRightDrops(s, post[..|post| - 1]);
    }
  }

  lemma {:induction false} TrimLeftDrops(pre: string, s: string)
    requires AllSpace(pre)
    ensures TrimLeft(pre + s) == TrimLeft(s)
  {
    if pre == [] {
      assert pre + s == s;
    } else {
      assert (pre + s)[1..] == pre[1..] + s;
      TrimLeftDrops(pre[1..], s);
    }
  }

  // find of a comment's end, from index k
  function Find(s: string, k: nat): (r: int)
    ensures r == -1 || (k <= r < |s| - 1 && s[r] == '*' && s[r + 1] == '/')
    ensures forall i :: k <= i < (if r == -1 then |s| - 1 else r) ==> !(s[i] == '*' && s[i + 1] == '/')
    decreases |s| - k
  {
    if k >= |s| - 1 then -1 else if s[k] == '*' && s[k + 1] == '/' then k else Find(s, k + 1)
  }

  /** A comment opens on this line and goes on beyond it. */
  predicate Opens(line: string) {
    var t := Strip(line);
    && |t| >= 2 && t[0] == '/' && t[1] == '*'
    && forall i :: 2 <= i < |t| - 1 ==> !(t[i] == '*' && t[i + 1] == '/')
  }

  predicate Closes(line: string) {
    var t := Strip(line);
    |t| >= 2 && t[|t| - 2] == '*' && t[|t| - 1] == '/'
  }

  lemma {:induction false} TrimRightSplits(s: string) returns (post: string)
    ensures AllSpace(post) && s == Text.TrimRight(s) + post
    ensures var t := Text.TrimRight(s); t != [] ==> !Text.IsSpace(t[|t| - 1])
  {
    post := [];
    if s != [] && Text.IsSpace(s[|s| - 1]) {
      var front := TrimRightSplits(s[..|s| - 1]);
      post := front + [s[|s| - 1]];
    }
  }

  lemma {:induction false} TrimLeftSplits(s: string) returns (pre: string)
    ensures AllSpace(pre) && s == pre + TrimLeft(s)
    ensures TrimLeft(s) != [] ==> !Text.IsSpace(TrimLeft(s)[0])
  {
    pre := [];
    if s != [] && Text.IsSpace(s[0]) {
      var rest := TrimLeftSplits(s[1..]);
      pre := [s[0]] + rest;
      assert s == [s[0]] + s[1..];
      assert pre + TrimLeft(s) == [s[0]] + (rest + TrimLeft(s));
    }
  }

  /** Every line is what it strips to, between white space. */
  lemma StripSplits(line: string) returns (pre: string, post: string)
    ensures AllSpace(pre) && AllSpace(post) && line == pre + Strip(line) + post
    ensures var t := Strip(line); t != [] ==> !Text.IsSpace(t[0]) && !Text.IsSpace(t[|t| - 1])
  {
    post := TrimRightSplits(line);
    pre := TrimLeftSplits(Text.TrimRight(line));
    var t, front := Strip(line), Text.TrimRight(line);
    if t != [] { assert t[|t| - 1] == front[|front| - 1]; }
  }

  predicate HasEnd(s: string) { exists i :: 0 <= i < |s| - 1 && s[i] == '*' && s[i + 1] == '/' }

  /** The line, but for white space before it, is the opening of a comment and the text of
      `rest`, in which no comment ends. */
  predicate IsOpening(line: string, pre: string, rest: string) {
    AllSpace(pre) && line == pre + "/*" + rest && !HasEnd(rest)
  }

  /** The line ends with a comment's end, but for white space. */
  predicate IsClosing(line: string, rest: string, post: string) {
    AllSpace(post) && line == rest + "*/" + post
  }

  lemma SpaceHasNoEnd(s: string, post: string)
    requires AllSpace(post)
    ensures HasEnd(s + post) <==> HasEnd(s)
  {
    if i :| 0 <= i < |s| - 1 && s[i] == '*' && s[i + 1] == '/' {
      assert (s + post)[i] == '*' && (s + post)[i + 1] == '/';
    }
  }

  /** A line opens a comment that goes on exactly when, behind white space, it begins with
      the comment's opening and holds no end of one after that. */
  lemma OpensIffOpening(line: string)
    ensures Opens(line) <==> exists pre, rest :: IsOpening(line, pre, rest)
  {
    hide Strip;
    var t := Strip(line);
    var pre, post := StripSplits(line);
    if Opens(line) {
      SpaceHasNoEnd(t[2..], post);
      assert line == pre + "/*" + (t[2..] + post);
      assert forall i :: 0 <= i < |t[2..]| ==> t[2..][i] == t[i + 2];
      assert IsOpening(line, pre, t[2..] + post);
    }
    if before, rest :| IsOpening(line, before, rest) {
      OpeningOpens(line, before, rest);
    }
  }

  lemma OpeningOpens(line: string, pre: string, rest: string)
    requires IsOpening(line, pre, rest)
    ensures Opens(line)
  {
    hide Strip;
    var post := TrimRightSplits(rest);
    var trimmed := Text.TrimRight(rest);
    var t := "/*" + trimmed;
    assert t[|t| - 1] == if trimmed == [] then '*' else trimmed[|trimmed| - 1];
    StripIsMiddle(pre, t, post);
    assert line == pre + t + post;
    SpaceHasNoEnd(trimmed, post);
    forall i | 2 <= i < |t| - 1
      ensures !(t[i] == '*' && t[i + 1] == '/')
    {
      assert t[i] == trimmed[i - 2] && t[i + 1] == trimmed[i - 1];
    }
  }

  /** A line closes a comment exactly when it ends with the end of one, white space apart. */
  lemma ClosesIffClosing(line: string)
    ensures Closes(line) <==> exists rest, post :: IsClosing(line, rest, post)
  {
    hide Strip;
    var t := Strip(line);
    var pre, post := StripSplits(line);
    if Closes(line) {
      assert line == (pre + t[..|t| - 2]) + "*/" + post;
      assert IsClosing(line, pre + t[..|t| - 2], post);
    }
    if rest, after :| IsClosing(line, rest, after) {
      ClosingCloses(line, rest, after);
    }
  }

  lemma ClosingCloses(line: string, rest: string, post: string)
    requires IsClosing(line, rest, post)
    ensures Closes(line)
  {
    hide Strip;
    var pre := TrimLeftSplits(rest);
    var t := TrimLeft(rest) + "*/";
    StripIsMiddle(pre, t, post);
    assert line == pre + t + post;
  }

  lemma BlankIsNoStart()
    ensures !Opens(BLANK) && Closes(BLANK)
  {
    assert Text.TrimRight(BLANK) == BLANK;
    assert Strip(BLANK) == BLANK;
    assert BLANK[2] == '*' && BLANK[3] == '/';
  }

  ghost predicate NoneOpens(lines: seq<string>, from: nat, to: nat) {
    forall k :: from <= k < to && k < |lines| ==> !Opens(lines[k])
  }

  ghost predicate NoneCloses(lines: seq<string>, from: nat, to: nat) {
    forall k :: from <= k < to && k < |lines| ==> !Closes(lines[k])
  }

  function NextStart(lines: seq<string>, i: nat): (b: nat)
    requires i <= |lines|
    ensures i <= b <= |lines| && NoneOpens(lines, i, b)
    ensures b < |lines| ==> Opens(lines[b])
    decreases |lines| - i
  {
    if i < |lines| && !Opens(lines[i]) then NextStart(lines, i + 1) else i
  }

  function NextEnd(lines: seq<string>, i: nat): (e: nat)
    requires i <= |lines|
    ensures i <= e <= |lines| && NoneCloses(lines, i, e)
    ensures e < |lines| ==> Closes(lines[e])
    decreases |lines| - i
  {
    if i < |lines| && !Closes(lines[i]) then NextEnd(lines, i + 1) else i
  }

  function Blanked(lines: seq<string>, from: nat, to: nat): (r: seq<string>)
    requires from <= to <= |lines|
    ensures |r| == |lines|
  {
    seq(|lines|, k requires 0 <= k < |lines| => if from <= k < to then BLANK else lines[k])
  }

  /** The lines after the pass has gone on from line i to its end. */
  function Cleaned(lines: seq<string>, i: nat): (r: seq<string>)
    requires i <= |lines|
    ensures |r| == |lines|
    decreases |lines| - i
  {
    var b := NextStart(lines, i);
    if b == |lines| then lines
    else
      var e := NextEnd(lines, b);
      if e == |lines| then lines else Cleaned(Blanked(lines, b, e + 1), e + 1)
  }

  /** The line number reported as the start of a comment that never ends. */
  function Reported(lines: seq<string>, i: nat): Option<nat>
    requires i <= |lines|
    decreases |lines| - i
  {
    var b := NextStart(lines, i);
    if b == |lines| then None
    else
      var e := NextEnd(lines, b);
      if e == |lines| then Some(b + 1) else Reported(Blanked(lines, b, e + 1), e + 1)
  }

  /** One round of the pass. */
  lemma PassStep(lines: seq<string>, i: nat, b: nat, e: nat)
    requires i <= |lines| && b == NextStart(lines, i) && e == NextEnd(lines, b)
    ensures b == |lines| ==> Cleaned(lines, i) == lines && Reported(lines, i) == None
    ensures b < |lines| && e == |lines| ==> Cleaned(lines, i) == lines && Reported(lines, i) == Some(b + 1)
    ensures b < |lines| && e < |lines| ==>
      && Cleaned(lines, i) == Cleaned(Blanked(lines, b, e + 1), e + 1)
      && Reported(lines, i) == Reported(Blanked(lines, b, e + 1), e + 1)
  {
    hide NextStart, NextEnd, Blanked, Opens, Closes;
  }

  method FindNextMultiLineCommentStart(lines: array<string>, start: nat) returns (lineix: nat)
    requires start <= lines.Length
    ensures lineix == NextStart(lines[..], start)
  {
    lineix := start;
    while lineix < lines.Length
      invariant start <= lineix <= lines.Length
      invariant NextStart(lines[..], start) == NextStart(lines[..], lineix)
    {
      var stripped := Strip(lines[lineix]);
      if "/*" <= stripped {
        if Find(stripped, 2) < 0 {
          return;
        }
      }
      lineix := lineix + 1;
    }
  }

  method FindNextMultiLineCommentEnd(lines: array<string>, start: nat) returns (lineix: nat)
    requires start <= lines.Length
    ensures lineix == NextEnd(lines[..], start)
  {
    lineix := start;
    while lineix < lines.Length
      invariant start <= lineix <= lines.Length
      invariant NextEnd(lines[..], start) == NextEnd(lines[..], lineix)
    {
      var stripped := Strip(lines[lineix]);
      if |stripped| >= 2 && stripped[|stripped| - 2..] == "*/" {
        return;
      }
      lineix := lineix + 1;
    }
  }

  method RemoveMultiLineCommentsFromRange(lines: array<string>, begin: nat, end: nat)
    requires begin <= end <= lines.Length
    modifies lines
    ensures lines[..] == Blanked(old(lines[..]), begin, end)
  {
    for i := begin to end
      invariant forall k :: 0 <= k < lines.Length ==>
        lines[k] == if begin <= k < i then BLANK else old(lines[k])
    {
      lines[i] := BLANK;
    }
  }

  method RemoveMultiLineComments(lines: array<string>) returns (error: Option<nat>)
    modifies lines
    ensures lines[..] == Cleaned(old(lines[..]), 0)
    ensures error == Reported(old(lines[..]), 0)
  {
    hide Opens, Closes, NextStart, NextEnd, Cleaned, Reported, Blanked;
    var lineix := 0;
    while lineix < lines.Length
      invariant 0 <= lineix <= lines.Length
      invariant Cleaned(lines[..], lineix) == Cleaned(old(lines[..]), 0)
      invariant Reported(lines[..], lineix) == Reported(old(lines[..]), 0)
      decreases lines.Length - lineix
    {
      ghost var now := lines[..];
      PassStep(now, lineix, NextStart(now, lineix), NextEnd(now, NextStart(now, lineix)));
      var begin := FindNextMultiLineCommentStart(lines, lineix);
      if begin >= lines.Length {
        return None;
      }
      var end := FindNextMultiLineCommentEnd(lines, begin);
      if end >= lines.Length {
        return Some(begin + 1);
      }
      RemoveMultiLineCommentsFromRange(lines, begin, end + 1);
      lineix := end + 1;
    }
    ghost var now := lines[..];
    PassStep(now, lineix, NextStart(now, lineix), NextEnd(now, NextStart(now, lineix)));
    return None;
  }

  // ----- What the pass is for -----

  lemma StartSkips(lines: seq<string>, i: nat, b: nat)
    requires i <= b <= |lines| && NoneOpens(lines, i, b)
    ensures NextStart(lines, i) == NextStart(lines, b)
    decreases b - i
  {
    if i < b { StartSkips(lines, i + 1, b); }
  }

  /** A second pass changes nothing and reports the same unterminated comment. */
  lemma {:induction false} CleaningIsIdempotent(lines: seq<string>, i: nat)
    requires i <= |lines| && NoneOpens(lines, 0, i)
    ensures Cleaned(Cleaned(lines, i), 0) == Cleaned(lines, i)
    ensures Reported(Cleaned(lines, i), 0) == Reported(lines, i)
    decreases |lines| - i
  {
    hide Opens, Closes, Cleaned, Reported, NextStart, NextEnd;
    var b := NextStart(lines, i);
    var e := NextEnd(lines, b);
    PassStep(lines, i, b, e);
    if b < |lines| && e < |lines| {
      BlankIsNoStart();
      CleaningIsIdempotent(Blanked(lines, b, e + 1), e + 1);
    } else {
      StartSkips(lines, 0, b);
      StartSkips(lines, i, b);
      PassStep(lines, 0, b, e);
    }
  }

  /** No comment that has an end is left: from a line that still opens one, none closes. */
  lemma {:induction false} NoTerminatedCommentIsLeft(lines: seq<string>, i: nat, b: nat)
    requires i <= |lines| && NoneOpens(lines, 0, i)
    requires b < |lines| && Opens(Cleaned(lines, i)[b])
    ensures NoneCloses(Cleaned(lines, i), b, |lines|)
    ensures Reported(lines, i).Some? && Reported(lines, i).value <= b + 1
    decreases |lines| - i
  {
    hide Opens, Closes;
    var s := NextStart(lines, i);
    if s < |lines| && NextEnd(lines, s) < |lines| {
      BlankIsNoStart();
      NoTerminatedCommentIsLeft(Blanked(lines, s, NextEnd(lines, s) + 1), NextEnd(lines, s) + 1, b);
    }
  }

  /** Line k lies in a comment that opens on line b and first closes on line e. */
  ghost predicate InComment(lines: seq<string>, k: nat, b: nat, e: nat) {
    b <= k <= e < |lines| && Opens(lines[b]) && Closes(lines[e]) && NoneCloses(lines, b, e)
  }

  lemma {:induction false} PassGoesForward(lines: seq<string>, i: nat)
    requires i <= |lines|
    ensures forall k :: 0 <= k < i ==> Cleaned(lines, i)[k] == lines[k]
    decreases |lines| - i
  {
    hide Opens, Closes;
    var b := NextStart(lines, i);
    if b < |lines| && NextEnd(lines, b) < |lines| {
      PassGoesForward(Blanked(lines, b, NextEnd(lines, b) + 1), NextEnd(lines, b) + 1);
    }
  }

  /** Only lines of comments are touched, and they become dummy comments. */
  lemma {:induction false} OnlyCommentsChange(lines: seq<string>, i: nat, k: nat) returns (b: nat, e: nat)
    requires i <= |lines| && k < |lines| && Cleaned(lines, i)[k] != lines[k]
    ensures i <= b && InComment(lines, k, b, e) && Cleaned(lines, i)[k] == BLANK
    decreases |lines| - i
  {
    hide Opens, Closes, NextStart, NextEnd;
    b, e := NextStart(lines, i), NextEnd(lines, NextStart(lines, i));
    var from := e + 1;
    var next := Blanked(lines, b, from);
    assert Cleaned(lines, i) == Cleaned(next, from);
    hide Cleaned;
    PassGoesForward(next, from);
    if k < from {
      assert next[k] != lines[k];
    } else {
      b, e := OnlyCommentsChange(next, from, k);
      assert forall j :: from <= j < |lines| ==> next[j] == lines[j];
    }
  }

  // ----- One reading from top to bottom -----

  /** Read line after line: a comment is going on before line k. */
  predicate GoingOn(lines: seq<string>, k: nat)
    requires k <= |lines|
  {
    k > 0 && (GoingOn(lines, k - 1) || Opens(lines[k - 1])) && !Closes(lines[k - 1])
  }

  predicate IsComment(lines: seq<string>, k: nat)
    requires k < |lines|
  {
    GoingOn(lines, k) || Opens(lines[k])
  }

  /** The line on which the comment that goes on before line k was opened. */
  function StartOf(lines: seq<string>, k: nat): (b: nat)
    requires k <= |lines| && GoingOn(lines, k)
    ensures b < k
  {
    if GoingOn(lines, k - 1) then StartOf(lines, k - 1) else k - 1
  }

  lemma {:induction false} NoneGoesOn(lines: seq<string>, i: nat, b: nat)
    requires i <= b <= |lines| && NoneOpens(lines, i, b) && !GoingOn(lines, i)
    ensures forall k :: i <= k <= b ==> !GoingOn(lines, k)
    decreases b
  {
    hide Opens, Closes;
    if b > i { NoneGoesOn(lines, i, b - 1); }
  }

  lemma {:induction false} CommentGoesOn(lines: seq<string>, b: nat, e: nat)
    requires b < e <= |lines| && Opens(lines[b]) && NoneCloses(lines, b, e) && !GoingOn(lines, b)
    ensures forall k :: b < k <= e ==> GoingOn(lines, k)
    ensures StartOf(lines, e) == b
    decreases e
  {
    hide Opens, Closes;
    assert !Closes(lines[e - 1]);
    if e > b + 1 { CommentGoesOn(lines, b, e - 1); }
  }

  /** From line i on, `lines` is the file `all`, in which no comment goes on there: what the
      pass makes of it, and what it reports. */
  ghost predicate PassIs(all: seq<string>, lines: seq<string>, i: nat)
    requires i <= |all| == |lines|
  {
    var end := if GoingOn(all, |all|) then StartOf(all, |all|) else |all|;
    && (GoingOn(all, |all|) ==> i <= end && Reported(lines, i) == Some(end + 1))
    && (!GoingOn(all, |all|) ==> Reported(lines, i) == None)
    && (forall k :: 0 <= k < |all| ==>
         Cleaned(lines, i)[k] == if k < i then lines[k] else if k < end && IsComment(all, k) then "/**/" else all[k])
  }

  lemma SameSearch(all: seq<string>, lines: seq<string>, i: nat)
    requires i <= |all| == |lines| && forall k :: i <= k < |all| ==> lines[k] == all[k]
    ensures NextStart(lines, i) == NextStart(all, i) && NextEnd(lines, i) == NextEnd(all, i)
    decreases |all| - i
  {
    hide Opens, Closes;
    if i < |all| { SameSearch(all, lines, i + 1); }
  }

  lemma {:induction false} PassReadsOn(all: seq<string>, lines: seq<string>, i: nat)
    requires i <= |all| == |lines| && (forall k :: i <= k < |all| ==> lines[k] == all[k]) && !GoingOn(all, i)
    ensures PassIs(all, lines, i)
    decreases |all| - i
  {
    hide Opens, Closes, NextStart, NextEnd, Cleaned, Reported, StartOf, GoingOn;
    var b := NextStart(lines, i);
    SameSearch(all, lines, i);
    var e := NextEnd(lines, b);
    SameSearch(all, lines, b);
    PassStep(lines, i, b, e);
    NoneGoesOn(all, i, b);
    if b < |all| && e < |all| {
      OneComment(all, b, e);
      var next := Blanked(lines, b, e + 1);
      assert forall k :: 0 <= k < |all| ==> next[k] == if b <= k <= e then "/**/" else lines[k];
      hide Blanked, IsComment;
      assert forall k :: i <= k < b ==> !IsComment(all, k) by { NoneIsComment(all, i, b); }
      PassReadsOn(all, next, e + 1);
      PassGoesForward(next, e + 1);
    } else if b < |all| {
      CommentGoesOn(all, b, |all|);
    }
  }

  lemma NoneIsComment(all: seq<string>, i: nat, b: nat)
    requires i <= b <= |all| && NoneOpens(all, i, b) && forall k :: i <= k <= b ==> !GoingOn(all, k)
    ensures forall k :: i <= k < b ==> !IsComment(all, k)
  {
    hide Opens, GoingOn;
  }

  lemma OneComment(all: seq<string>, b: nat, e: nat)
    requires b <= e < |all| && Opens(all[b]) && NoneCloses(all, b, e) && Closes(all[e]) && !GoingOn(all, b)
    ensures !GoingOn(all, e + 1) && forall k :: b <= k <= e ==> IsComment(all, k)
  {
    hide Opens, Closes;
    if b < e { CommentGoesOn(all, b, e); }
    hide GoingOn;
  }

  /** The pass is one reading of the file: every line of a comment that ends becomes the
      dummy, every other line stays, and the comment that goes on to the end of the file, if
      there is one, is reported and kept. */
  lemma PassIsOneReading(lines: seq<string>)
    ensures PassIs(lines, lines, 0)
  {
    PassReadsOn(lines, lines, 0);
    hide PassIs;
  }
}
