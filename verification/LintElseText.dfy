/** A file whose #else text decides what the lint tool's tracker ends with. */
module LintElseText {
  import opened LintBlocks
  import opened LintNesting
  import opened LintRegions
  import opened Wrappers
  import Ahead = LintTemplates

  function Bare(text: string, directive: Directive, tokens: seq<Token>): (line: Line)
    ensures IsBare(line, directive, tokens)
  {
    Line(text, directive, 0, false, [], None, false, Tail(None, tokens))
  }

  /** A line on which nothing but these tokens is found. */
  predicate IsBare(line: Line, directive: Directive, tokens: seq<Token>) {
    line == Line(line.text, directive, 0, false, [], None, false, Tail(None, tokens))
  }

  function IfLine(): (line: Line)
    ensures IsBare(line, If, [])
  {
    Bare("#if A", If, [])
  }

  function ClassLine(): Line {
    Bare("class Foo", NoDirective, []).(classDecl := Some(ClassDecl("Foo", false, 9, Tail(None, []))))
  }

  function ElseLine(): (line: Line)
    ensures IsBare(line, Else, [])
  {
    Bare("#else", Else, [])
  }

  function CharLine(c: char): (line: Line)
    ensures IsBare(line, NoDirective, if c == ';' then [Semicolon] else [])
  {
    Bare([c], NoDirective, if c == ';' then [Semicolon] else [])
  }

  function EndifLine(): (line: Line)
    ensures IsBare(line, Endif, [])
  {
    Bare("#endif", Endif, [])
  }

  function BraceLine(): (line: Line)
    ensures IsBare(line, NoDirective, [OPENING])
  {
    Bare("{", NoDirective, [OPENING])
  }

  const OPENING := OpenBrace(false, false)

  /** A class whose brace comes after a conditional, with one character after the #else. */
  function SixLines(c: char): seq<Line> { [IfLine(), ClassLine(), ElseLine(), CharLine(c), EndifLine(), BraceLine()] }

  function FooBlock(): Block { ClassBlock(ClassDecl("Foo", false, 9, Tail(None, [])), 1) }

  lemma SixVerdicts(c: char)
    requires c == ';' || c == '>'
    ensures Inside(SixLines(c), 1) == (c == '>')
  {
    var texts := Texts(SixLines(c)[1..]);
    assert texts == ["class Foo", "#else", [c], "#endif", "{"];
    assert texts[1..] == ["#else", [c], "#endif", "{"] && texts[1..][1..] == [[c], "#endif", "{"];
    Ahead.ElseIsQuiet([]);
    Ahead.DecidesThere(texts[1..][1..], 0, c);
    hide Ahead.NextDeciding, Texts;
    assert |texts[0]| == 9 && |texts[1]| == 5;
    assert Ahead.LookAhead(texts, 9) == Ahead.LookAhead(texts[1..], 0) == Ahead.LookAhead(texts[1..][1..], 0);
  }

  // ----- What counts -----

  lemma SixKept()
    ensures Kept(SixLines(';')) == Kept(SixLines('>'))
  {
    var before, rest := [IfLine(), ClassLine()], [EndifLine(), BraceLine()];
    OpenBeforeElse(before);
    hide IfLine, ClassLine, ElseLine, CharLine, EndifLine, BraceLine, OpenFrom, KeptFrom, IsRegion, Kept;
    assert forall c :: SixLines(c) == before + [ElseLine(), CharLine(c)] + rest;
    TwoLinesAreRegion([false], ElseLine(), CharLine(';'));
    TwoLinesAreRegion([false], ElseLine(), CharLine('>'));
    RegionsAlike(before, [ElseLine(), CharLine(';')], [ElseLine(), CharLine('>')], rest);
  }

  lemma OpenBeforeElse(before: seq<Line>)
    requires before == [IfLine(), ClassLine()]
    ensures OpenAfter(before, 2) == [false]
  {
    assert OpenFrom([], before, 1) == [false];
  }

  // ----- The tracker -----

  lemma NothingInnermost(stack: seq<Block>)
    ensures CheckBegin(stack, false) == stack && SetAccess(stack, None) == stack
  {
    if stack != [] { assert SetTop(stack, stack[|stack| - 1]) == stack; }
  }

  /** A line with no declaration, on an empty stack or below a class that awaits its brace. */
  lemma BareOnStack(line: Line, d: Directive, tokens: seq<Token>, n: nat, stack: seq<Block>)
    requires IsBare(line, d, tokens) && |tokens| <= 1 && (stack == [] || stack == [FooBlock()])
    ensures BlocksAfter(stack, line, n, false) == if tokens == [] then stack else Apply(stack, EventOf(tokens[0], n))
  {
    assert CountParentheses(stack, line) == stack;
    NothingInnermost(stack);
    hide CountParentheses, CheckBegin, SetAccess, Apply, EventOf, FooBlock;
    assert tokens != [] ==> ApplyAll(stack, EventsOf(tokens, n), 1) == Apply(stack, EventOf(tokens[0], n));
  }

  lemma ClassOnStack(inside: bool)
    ensures BlocksAfter([], ClassLine(), 1, inside) == if inside then [] else [FooBlock()]
  {
    var s := WithClass([], ClassLine(), 1, inside);
    NothingInnermost(s);
    hide ClassBlock, CheckBegin, SetAccess;
    assert BeforeClass([], ClassLine(), 1) == [];
  }

  lemma BareUpdate(lines: seq<Line>, m: nat, s: Nesting, d: Directive, tokens: seq<Token>, p: Nesting)
    requires m < |lines| && IsBare(lines[m], d, tokens) && |tokens| <= 1
    requires Process(lines, m) == s && p == Preprocess(s, d) && (p.stack == [] || p.stack == [FooBlock()])
    ensures Process(lines, m + 1) ==
      Nesting(if tokens == [] then p.stack else Apply(p.stack, EventOf(tokens[0], m)), p.ppStack)
  {
    BareOnStack(lines[m], d, tokens, m, p.stack);
    hide BlocksAfter, Preprocess, Apply, EventOf, FooBlock, Verdict;
  }

  lemma ClassUpdate(lines: seq<Line>, s: Nesting, inside: bool)
    requires 1 < |lines| && lines[1] == ClassLine() && Process(lines, 1) == s && s.stack == []
    requires Inside(lines, 1) == inside
    ensures Process(lines, 2) == s.(stack := if inside then [] else [FooBlock()])
  {
    ClassOnStack(inside);
    hide BlocksAfter, FooBlock, Inside;
  }

  const FIRST_BRANCH := PreprocessorInfo([], [], false)

  function Checked(stack: seq<Block>): PreprocessorInfo { PreprocessorInfo([], stack, true) }

  lemma ThroughClass(c: char)
    requires c == ';' || c == '>'
    ensures Process(SixLines(c), 2) == Nesting(if c == ';' then [FooBlock()] else [], [FIRST_BRANCH])
  {
    hide IfLine, ClassLine, ElseLine, CharLine, EndifLine, BraceLine, BlocksAfter, FooBlock, Inside;
    var lines := SixLines(c);
    assert Process(lines, 0) == Nesting([], []);
    hide Process;
    SixVerdicts(c);
    BareUpdate(lines, 0, Nesting([], []), If, [], Nesting([], [FIRST_BRANCH]));
    ClassUpdate(lines, Nesting([], [FIRST_BRANCH]), c == '>');
  }

  lemma ThroughElse(c: char, stack: seq<Block>)
    requires Process(SixLines(c), 2) == Nesting(stack, [FIRST_BRANCH])
    ensures Process(SixLines(c), 4) == Nesting([], [Checked(stack)])
  {
    hide IfLine, ClassLine, ElseLine, CharLine, EndifLine, BraceLine, BlocksAfter, FooBlock, Process;
    var lines := SixLines(c);
    BareUpdate(lines, 2, Nesting(stack, [FIRST_BRANCH]), Else, [], Nesting([], [Checked(stack)]));
    BareUpdate(lines, 3, Nesting([], [Checked(stack)]), NoDirective,
               if c == ';' then [Semicolon] else [], Nesting([], [Checked(stack)]));
  }

  lemma ThroughBrace(c: char, stack: seq<Block>)
    requires Process(SixLines(c), 4) == Nesting([], [Checked(stack)]) && (stack == [] || stack == [FooBlock()])
    ensures Process(SixLines(c), 6).stack == Apply(stack, EventOf(OPENING, 5))
  {
    hide IfLine, ClassLine, ElseLine, CharLine, EndifLine, BraceLine, BlocksAfter, FooBlock, Process, Apply, EventOf;
    var lines := SixLines(c);
    BareUpdate(lines, 4, Nesting([], [Checked(stack)]), Endif, [], Nesting(stack, []));
    BareUpdate(lines, 5, Nesting(stack, []), NoDirective, [OPENING], Nesting(stack, []));
  }

  lemma SixStates(c: char)
    requires c == ';' || c == '>'
    ensures Process(SixLines(c), 6).stack ==
      if c == ';' then [FooBlock().(seenOpenBrace := true)] else [NewBlock(Plain, 5, true)]
  {
    hide Process, SixLines;
    var stack := if c == ';' then [FooBlock()] else [];
    ThroughClass(c);
    ThroughElse(c, stack);
    ThroughBrace(c, stack);
  }

  /** One character of #else text decides whether the block that stays open is the class. */
  lemma ElseTextCanMatter()
    ensures Kept(SixLines(';')) == Kept(SixLines('>'))
    ensures Process(SixLines(';'), 6).stack == [FooBlock().(seenOpenBrace := true)]
    ensures Process(SixLines('>'), 6).stack == [NewBlock(Plain, 5, true)]
  {
    hide Process, Kept, SixLines, FooBlock;
    SixStates(';');
    SixStates('>');
    SixKept();
  }
}
