/** The blocks that the lint tool's tracker keeps on its stack, and what one line of a file
    does to them (the _BlockInfo classes and NestingState in tools/cpplint.py).

    A line comes as its text and as what the regular expressions find in it: the
    preprocessor directive, the balance of parentheses, the namespaces and the class it
    declares, and the braces, semicolons and closing parentheses left. */
module LintBlocks {
  import opened Wrappers

  // ----- Blocks -----

  datatype Asm = NoAsm | InsideAsm | EndAsm | BlockAsm

  datatype Kind =
    | Plain
    | ExternC
    | Namespace(name: string)
    | Class(name: string, isStruct: bool, access: string, isDerived: bool)

  datatype Block = Block(kind: Kind, startingLine: nat, seenOpenBrace: bool, openParentheses: int, inlineAsm: Asm)

  function NewBlock(kind: Kind, line: nat, seenOpenBrace: bool): Block {
    Block(kind, line, seenOpenBrace, 0, NoAsm)
  }

  // ----- Lines -----

  datatype Directive = If | Else | Endif | NoDirective

  /** startsAsm: what is left of the line at the brace begins an assembly block. */
  datatype Token = OpenBrace(externC: bool, startsAsm: bool) | CloseBrace | Semicolon | CloseParen

  /** What remains of a line once its declarations are taken off. */
  datatype Tail = Tail(access: Option<string>, tokens: seq<Token>)

  datatype NamespaceDecl = NamespaceDecl(name: string, opens: bool)

  /** `end`: the column at which the look-ahead for template arguments begins.  The tracker
      counts it up to the end of the declared name, in what is left of the line behind its
      namespaces, and uses it as a column of the whole line; here it may be any. */
  datatype ClassDecl = ClassDecl(name: string, isStruct: bool, end: nat, rest: Tail)

  datatype Line = Line(
    text: string,
    directive: Directive,
    depthChange: int,
    matchesAsm: bool,
    namespaces: seq<NamespaceDecl>,
    classDecl: Option<ClassDecl>,
    bareColon: bool,
    tail: Tail)

  // ----- The effect of one line on the block stack -----

  function Pop(stack: seq<Block>): seq<Block> {
    if stack == [] then [] else stack[..|stack| - 1]
  }

  function SetTop(stack: seq<Block>, b: Block): seq<Block> {
    Pop(stack) + [b]
  }

  predicate SeenOpenBrace(stack: seq<Block>) {
    stack == [] || stack[|stack| - 1].seenOpenBrace
  }

  /** The parentheses and the inline assembly of a block after a line. */
  function Counted(b: Block, line: Line): Block {
    var open := b.openParentheses + line.depthChange;
    var asm :=
      if b.inlineAsm == NoAsm || b.inlineAsm == EndAsm then
        if line.depthChange != 0 && open == 1 && line.matchesAsm then InsideAsm else NoAsm
      else if b.inlineAsm == InsideAsm && open == 0 then EndAsm
      else b.inlineAsm;
    b.(openParentheses := open, inlineAsm := asm)
  }

  function CountParentheses(stack: seq<Block>, line: Line): seq<Block> {
    if stack == [] then [] else SetTop(stack, Counted(stack[|stack| - 1], line))
  }

  function NamespaceBlock(d: NamespaceDecl, number: nat): Block { NewBlock(Namespace(d.name), number, d.opens) }

  function PushNamespaces(stack: seq<Block>, ns: seq<NamespaceDecl>, number: nat, m: nat): seq<Block>
    requires m <= |ns|
  {
    if m == 0 then stack else PushNamespaces(stack, ns, number, m - 1) + [NamespaceBlock(ns[m - 1], number)]
  }

  /** `inside`: the look-ahead takes the declared name for a template argument. */
  predicate AcceptsClass(stack: seq<Block>, line: Line, inside: bool) {
    line.classDecl.Some? && (stack == [] || stack[|stack| - 1].openParentheses == 0) && !inside
  }

  function ClassBlock(d: ClassDecl, number: nat): Block {
    NewBlock(Class(d.name, d.isStruct, if d.isStruct then "public" else "private", false), number, false)
  }

  function WithClass(stack: seq<Block>, line: Line, number: nat, inside: bool): seq<Block> {
    if AcceptsClass(stack, line, inside) then stack + [ClassBlock(line.classDecl.value, number)] else stack
  }

  function TailAfter(stack: seq<Block>, line: Line, inside: bool): Tail {
    if AcceptsClass(stack, line, inside) then line.classDecl.value.rest else line.tail
  }

  /** A colon before its brace makes a class derived. */
  function Begun(b: Block, bareColon: bool): Block {
    if !b.seenOpenBrace && b.kind.Class? && bareColon then b.(kind := b.kind.(isDerived := true)) else b
  }

  function CheckBegin(stack: seq<Block>, bareColon: bool): seq<Block> {
    if stack == [] then [] else SetTop(stack, Begun(stack[|stack| - 1], bareColon))
  }

  function Accessed(b: Block, access: Option<string>): Block {
    if b.kind.Class? && access.Some? then b.(kind := b.kind.(access := access.value)) else b
  }

  function SetAccess(stack: seq<Block>, access: Option<string>): seq<Block> {
    if stack == [] then [] else SetTop(stack, Accessed(stack[|stack| - 1], access))
  }

  /** What declarations, braces and semicolons do: a declared head waits for its brace, or
      is dropped by a semicolon; a brace without a head opens a block of its own. */
  datatype Event = Head(block: Block) | Brace(block: Block) | Close | Semi

  function Apply(stack: seq<Block>, e: Event): seq<Block> {
    match e
    case Head(b) => stack + [b]
    case Brace(b) =>
      if !SeenOpenBrace(stack) then SetTop(stack, stack[|stack| - 1].(seenOpenBrace := true)) else stack + [b]
    case Close => Pop(stack)
    case Semi => if SeenOpenBrace(stack) then stack else Pop(stack)
  }

  function ApplyAll(stack: seq<Block>, es: seq<Event>, m: nat): seq<Block>
    requires m <= |es|
  {
    if m == 0 then stack else Apply(ApplyAll(stack, es, m - 1), es[m - 1])
  }

  function EventOf(t: Token, number: nat): Event {
    match t
    case OpenBrace(externC, startsAsm) =>
      if externC then Brace(NewBlock(ExternC, number, true))
      else Brace(NewBlock(Plain, number, true).(inlineAsm := if startsAsm then BlockAsm else NoAsm))
    case CloseBrace => Close
    case Semicolon => Semi
    case CloseParen => Semi
  }

  function EventsOf(ts: seq<Token>, number: nat): (es: seq<Event>)
    ensures |es| == |ts| && forall i :: 0 <= i < |ts| ==> es[i] == EventOf(ts[i], number)
  {
    if ts == [] then [] else EventsOf(ts[..|ts| - 1], number) + [EventOf(ts[|ts| - 1], number)]
  }

  function ConsumeAll(stack: seq<Block>, ts: seq<Token>, number: nat): seq<Block> {
    ApplyAll(stack, EventsOf(ts, number), |ts|)
  }

  /** The stack once the parentheses are counted and the namespaces pushed. */
  function BeforeClass(stack: seq<Block>, line: Line, number: nat): seq<Block> {
    PushNamespaces(CountParentheses(stack, line), line.namespaces, number, |line.namespaces|)
  }

  function BlocksAfter(stack: seq<Block>, line: Line, number: nat, inside: bool): seq<Block> {
    var s := BeforeClass(stack, line, number);
    var tail := TailAfter(s, line, inside);
    var head := CheckBegin(WithClass(s, line, number, inside), line.bareColon);
    ConsumeAll(SetAccess(head, tail.access), tail.tokens, number)
  }

  // ----- The stack is the open braces -----

  predicate WellMade(es: seq<Event>) {
    forall p :: 0 <= p < |es| ==>
      (es[p].Head? ==> !es[p].block.seenOpenBrace) && (es[p].Brace? ==> es[p].block.seenOpenBrace)
  }

  /** Braces open after the first m events, by counting alone. */
  function Depth(es: seq<Event>, m: nat): int
    requires m <= |es|
  {
    if m == 0 then 0
    else Depth(es, m - 1) + if es[m - 1].Brace? then 1 else if es[m - 1].Close? then -1 else 0
  }

  /** No brace is closed that was not opened. */
  ghost predicate NeverBelow(es: seq<Event>) { forall m :: 0 <= m <= |es| ==> Depth(es, m) >= 0 }

  /** What follows a declared head is its brace, or the semicolon or parenthesis that ends it. */
  predicate Clean(es: seq<Event>) {
    forall p :: 0 <= p < |es| - 1 && es[p].Head? ==> es[p + 1].Brace? || es[p + 1].Semi?
  }

  /** The last of the first m events that opened a brace at depth d, or -1. */
  function LastRise(es: seq<Event>, m: nat, d: int): (p: int)
    requires m <= |es|
    ensures p == -1 || (0 <= p < m && es[p].Brace? && Depth(es, p) == d)
    ensures forall q :: p < q < m && es[q].Brace? ==> Depth(es, q) != d
  {
    if m == 0 then -1
    else if es[m - 1].Brace? && Depth(es, m - 1) == d then m - 1
    else LastRise(es, m - 1, d)
  }

  /** The block that the brace at p opens: that of the head before it, if there is one. */
  function BlockAt(es: seq<Event>, p: nat): Block
    requires p < |es| && es[p].Brace?
  {
    if p > 0 && es[p - 1].Head? then es[p - 1].block.(seenOpenBrace := true) else es[p].block
  }

  /** The block of the brace still open at depth d after m events. */
  function OpenAt(es: seq<Event>, m: nat, d: int): Block
    requires m <= |es|
  {
    var p := LastRise(es, m, d);
    if p >= 0 then BlockAt(es, p) else NewBlock(Plain, 0, true)
  }

  function OpenBlocks(es: seq<Event>, m: nat, depth: nat): (bs: seq<Block>)
    requires m <= |es|
    ensures |bs| == depth && forall d :: 0 <= d < depth ==> bs[d] == OpenAt(es, m, d)
  {
    if depth == 0 then [] else OpenBlocks(es, m, depth - 1) + [OpenAt(es, m, depth - 1)]
  }

  /** The head that waits for its brace after m events, if one does. */
  function Waiting(es: seq<Event>, m: nat): seq<Block>
    requires m <= |es|
  {
    if m > 0 && es[m - 1].Head? then [es[m - 1].block] else []
  }

  lemma {:induction false} DepthHasRises(es: seq<Event>, m: nat, d: int)
    requires m <= |es| && 0 <= d < Depth(es, m)
    ensures LastRise(es, m, d) >= 0
  {
    if d < Depth(es, m - 1) { DepthHasRises(es, m - 1, d); }
  }

  lemma OpenIsSeen(es: seq<Event>, m: nat, d: int)
    requires m <= |es| && WellMade(es)
    ensures OpenAt(es, m, d).seenOpenBrace
  {
  }

  lemma SameRises(es: seq<Event>, m: nat, depth: nat)
    requires m < |es| && (es[m].Brace? ==> depth <= Depth(es, m))
    ensures OpenBlocks(es, m + 1, depth) == OpenBlocks(es, m, depth)
  {
  }

  lemma PrefixOfOpen(es: seq<Event>, m: nat, depth: nat)
    requires m <= |es| && depth > 0
    ensures OpenBlocks(es, m, depth)[..depth - 1] == OpenBlocks(es, m, depth - 1)
  {
  }

  /** What each event does on a stack whose top has its brace, below a waiting head or none. */
  lemma ApplyBelow(s: seq<Block>, w: seq<Block>, b: Block)
    requires SeenOpenBrace(s) && |w| <= 1 && (w != [] ==> !w[0].seenOpenBrace)
    ensures Apply(s + w, Brace(b)) == s + [if w == [] then b else w[0].(seenOpenBrace := true)]
    ensures Apply(s + w, Semi) == s
    ensures s != [] ==> Apply(s + [], Close) == s[..|s| - 1]
    ensures Apply(s + [], Head(b)) == s + [b]
  {
    assert s + [] == s;
    if w != [] { assert (s + w)[..|s|] == s; }
  }

  lemma OpenStackSeen(base: seq<Block>, es: seq<Event>, m: nat, depth: nat)
    requires m <= |es| && WellMade(es) && SeenOpenBrace(base)
    ensures SeenOpenBrace(base + OpenBlocks(es, m, depth))
  {
    if depth > 0 {
      OpenIsSeen(es, m, depth - 1);
    } else {
      assert base + [] == base;
    }
  }

  /** The stack by the open braces. */
  function OpenStack(base: seq<Block>, es: seq<Event>, m: nat): seq<Block>
    requires m <= |es| && Depth(es, m) >= 0
  {
    base + OpenBlocks(es, m, Depth(es, m)) + Waiting(es, m)
  }

  lemma NoneWaits(es: seq<Event>, m: nat)
    requires m < |es| && Clean(es)
    ensures es[m].Close? || es[m].Head? ==> Waiting(es, m) == []
    ensures !es[m].Head? ==> Waiting(es, m + 1) == []
  {
  }

  lemma OneMore(base: seq<Block>, bs: seq<Block>, b: Block)
    ensures base + (bs + [b]) + [] == base + bs + [b]
  {
  }

  lemma OneLess(base: seq<Block>, bs: seq<Block>)
    requires bs != []
    ensures Apply(base + bs + [], Close) == base + bs[..|bs| - 1] + []
  {
    assert base + bs + [] == base + bs;
    assert (base + bs)[..|base + bs| - 1] == base + bs[..|bs| - 1];
  }

  lemma BraceStep(base: seq<Block>, es: seq<Event>, m: nat)
    requires m < |es| && WellMade(es) && Clean(es) && SeenOpenBrace(base) && es[m].Brace? && Depth(es, m) >= 0
    ensures Apply(OpenStack(base, es, m), es[m]) == OpenStack(base, es, m + 1)
  {
    var d, b := Depth(es, m), BlockAt(es, m);
    OpenStackSeen(base, es, m, d);
    NoneWaits(es, m);
    WaitsForBrace(es, m);
    OneMoreRise(es, m);
    hide LastRise, OpenAt, OpenBlocks, Apply, WellMade, Clean, BlockAt, Waiting;
    ApplyBelow(base + OpenBlocks(es, m, d), Waiting(es, m), es[m].block);
    OneMore(base, OpenBlocks(es, m, d), b);
  }

  lemma WaitsForBrace(es: seq<Event>, m: nat)
    requires m < |es| && WellMade(es) && es[m].Brace?
    ensures var w := Waiting(es, m);
      && |w| <= 1 && (w != [] ==> !w[0].seenOpenBrace)
      && BlockAt(es, m) == if w == [] then es[m].block else w[0].(seenOpenBrace := true)
  {
  }

  lemma OneMoreRise(es: seq<Event>, m: nat)
    requires m < |es| && es[m].Brace? && Depth(es, m) >= 0
    ensures Depth(es, m + 1) == Depth(es, m) + 1
    ensures OpenBlocks(es, m + 1, Depth(es, m) + 1) == OpenBlocks(es, m, Depth(es, m)) + [BlockAt(es, m)]
  {
    SameRises(es, m, Depth(es, m));
    assert OpenAt(es, m + 1, Depth(es, m)) == BlockAt(es, m);
  }

  lemma CloseStep(base: seq<Block>, es: seq<Event>, m: nat)
    requires m < |es| && WellMade(es) && Clean(es) && SeenOpenBrace(base) && es[m].Close?
    requires Depth(es, m) >= 0 && Depth(es, m + 1) >= 0
    ensures Apply(OpenStack(base, es, m), es[m]) == OpenStack(base, es, m + 1)
  {
    var d := Depth(es, m);
    assert Depth(es, m + 1) == d - 1;
    NoneWaits(es, m);
    SameRises(es, m, d - 1);
    PrefixOfOpen(es, m, d);
    hide LastRise, OpenAt, OpenBlocks, Apply, WellMade, Clean, Waiting, Depth;
    OneLess(base, OpenBlocks(es, m, d));
  }

  lemma OtherStep(base: seq<Block>, es: seq<Event>, m: nat)
    requires m < |es| && WellMade(es) && Clean(es) && SeenOpenBrace(base) && (es[m].Head? || es[m].Semi?)
    requires Depth(es, m) >= 0
    ensures Depth(es, m + 1) == Depth(es, m)
    ensures Apply(OpenStack(base, es, m), es[m]) == OpenStack(base, es, m + 1)
  {
    var d := Depth(es, m);
    var bs := OpenBlocks(es, m, d);
    OpenStackSeen(base, es, m, d);
    ApplyBelow(base + bs, Waiting(es, m), if es[m].Head? then es[m].block else NewBlock(Plain, 0, true));
    SameRises(es, m, d);
    hide LastRise, OpenAt, OpenBlocks, Apply, WellMade;
    assert es[m].Head? ==> Waiting(es, m) == [];
    assert base + bs + [] == base + bs;
  }

  /** After any events, with heads followed by their braces and no brace closed too often,
      the stack is what was there before, then the blocks of the braces still open, each
      with what its head declared, then the head that waits. */
  lemma {:induction false} StackIsOpenBraces(base: seq<Block>, es: seq<Event>, m: nat)
    requires m <= |es| && WellMade(es) && Clean(es) && NeverBelow(es) && SeenOpenBrace(base)
    ensures Depth(es, m) >= 0 && ApplyAll(base, es, m) == OpenStack(base, es, m)
  {
    hide OpenStack, Apply, WellMade, Clean, NeverBelow, Depth;
    NotBelow(es, m);
    if m == 0 {
      NothingOpen(base, es);
    } else {
      NotBelow(es, m - 1);
      StackIsOpenBraces(base, es, m - 1);
      match es[m - 1] {
        case Brace(_) => BraceStep(base, es, m - 1);
        case Close => CloseStep(base, es, m - 1);
        case _ => OtherStep(base, es, m - 1);
      }
    }
  }

  lemma NotBelow(es: seq<Event>, m: nat)
    requires m <= |es| && NeverBelow(es)
    ensures Depth(es, m) >= 0
  {
  }

  lemma NothingOpen(base: seq<Block>, es: seq<Event>)
    ensures OpenStack(base, es, 0) == base
  {
    assert base + [] + [] == base;
  }

  // ----- Braces, semicolons and closing parentheses -----

  /** Opening braces less closing ones among the first m tokens. */
  function Braces(ts: seq<Token>, m: nat): int
    requires m <= |ts|
  {
    if m == 0 then 0
    else
      match ts[m - 1]
      case OpenBrace(_, _) => Braces(ts, m - 1) + 1
      case CloseBrace => Braces(ts, m - 1) - 1
      case _ => Braces(ts, m - 1)
  }

  ghost predicate NeverBelowBraces(ts: seq<Token>) { forall m :: 0 <= m <= |ts| ==> Braces(ts, m) >= 0 }

  lemma {:induction false} DepthIsBraces(ts: seq<Token>, number: nat, m: nat)
    requires m <= |ts|
    ensures Depth(EventsOf(ts, number), m) == Braces(ts, m)
  {
    if m > 0 { DepthIsBraces(ts, number, m - 1); }
  }

  /** For braces, semicolons and parentheses alone: what is closed as often as it is opened
      leaves the stack as it was, and meanwhile what was there is not touched. */
  lemma TokensKeepStack(stack: seq<Block>, ts: seq<Token>, number: nat)
    requires SeenOpenBrace(stack) && NeverBelowBraces(ts)
    ensures var s := ConsumeAll(stack, ts, number);
      && |s| == |stack| + Braces(ts, |ts|) && s[..|stack|] == stack
      && (forall i :: |stack| <= i < |s| ==> s[i].seenOpenBrace)
      && (Braces(ts, |ts|) == 0 ==> s == stack)
  {
    var es := EventsOf(ts, number);
    TokensAreClean(ts, number);
    DepthIsBraces(ts, number, |ts|);
    hide Clean, WellMade, NeverBelow, LastRise, OpenAt, Apply, EventOf;
    StackIsOpenBraces(stack, es, |ts|);
    var s, d := ConsumeAll(stack, ts, number), Depth(es, |ts|);
    assert Waiting(es, |ts|) == [];
    assert s == stack + OpenBlocks(es, |ts|, d) + [];
    forall i | |stack| <= i < |s|
      ensures s[i].seenOpenBrace
    {
      assert s[i] == OpenAt(es, |ts|, i - |stack|);
      OpenIsSeen(es, |ts|, i - |stack|);
    }
  }

  lemma TokensAreClean(ts: seq<Token>, number: nat)
    requires NeverBelowBraces(ts)
    ensures var es := EventsOf(ts, number);
      && WellMade(es) && Clean(es) && NeverBelow(es) && forall i :: 0 <= i < |es| ==> !es[i].Head?
  {
    var es := EventsOf(ts, number);
    forall m | 0 <= m <= |ts|
      ensures Depth(es, m) >= 0
    {
      DepthIsBraces(ts, number, m);
    }
  }

  /** A head waits for its brace at the top of the stack. */
  predicate Awaits(stack: seq<Block>) { stack != [] && !stack[|stack| - 1].seenOpenBrace }

  /** A closing brace drops one block if there is one, whatever it is; a semicolon or a
      closing parenthesis drops a waiting head and nothing else. */
  lemma ClosingSays(stack: seq<Block>, t: Token, number: nat)
    requires !t.OpenBrace?
    ensures ConsumeAll(stack, [t], number) ==
      if (t == CloseBrace && stack != []) || Awaits(stack) then stack[..|stack| - 1] else stack
  {
    OneToken(stack, t, number);
  }

  lemma OneToken(stack: seq<Block>, t: Token, number: nat)
    ensures ConsumeAll(stack, [t], number) == Apply(stack, EventOf(t, number))
  {
    hide Apply, EventOf;
    assert EventsOf([t], number) == [EventOf(t, number)];
    assert ApplyAll(stack, [EventOf(t, number)], 0) == stack;
  }

  /** An opening brace is the waiting head's, which is otherwise as declared; without one it
      opens a block: of linkage for an extern, of assembly if the line says so, else plain. */
  lemma OpeningSays(stack: seq<Block>, t: Token, number: nat)
    requires t.OpenBrace?
    ensures var s := ConsumeAll(stack, [t], number);
      if Awaits(stack) then s == stack[..|stack| - 1] + [stack[|stack| - 1].(seenOpenBrace := true)]
      else
        && |s| == |stack| + 1 && s[..|stack|] == stack
        && (s[|stack|].kind == ExternC <==> t.externC) && (s[|stack|].kind == Plain <==> !t.externC)
        && (s[|stack|].inlineAsm == BlockAsm <==> !t.externC && t.startsAsm)
        && (s[|stack|].inlineAsm != BlockAsm ==> s[|stack|].inlineAsm == NoAsm)
        && s[|stack|].seenOpenBrace && s[|stack|].startingLine == number && s[|stack|].openParentheses == 0
  {
    OneToken(stack, t, number);
  }

  /** The tokens of a line act one after the other. */
  lemma TokensInTurn(stack: seq<Block>, ts: seq<Token>, t: Token, number: nat)
    ensures ConsumeAll(stack, [], number) == stack
    ensures ConsumeAll(stack, ts + [t], number) == ConsumeAll(ConsumeAll(stack, ts, number), [t], number)
  {
    var es, e := EventsOf(ts, number), EventOf(t, number);
    assert (ts + [t])[..|ts|] == ts && [t][..0] == [];
    assert EventsOf(ts + [t], number) == es + [e] && EventsOf([t], number) == [e];
    hide Apply;
    ApplyPrefix(stack, es, [e], |ts|);
    assert ApplyAll(ConsumeAll(stack, ts, number), [e], 1) == Apply(ConsumeAll(stack, ts, number), e);
  }

  // ----- Declarations -----

  lemma {:induction false} NamespacesSay(stack: seq<Block>, ns: seq<NamespaceDecl>, number: nat, m: nat)
    requires m <= |ns|
    ensures var s := PushNamespaces(stack, ns, number, m);
      && |s| == |stack| + m && s[..|stack|] == stack
      && forall i :: 0 <= i < m ==>
           s[|stack| + i] == Block(Namespace(ns[i].name), number, ns[i].opens, 0, NoAsm)
  {
    if m > 0 { NamespacesSay(stack, ns, number, m - 1); }
  }

  /** A class opens a block exactly if it stands outside the parentheses of the block that
      is then innermost and outside a template's argument list: with the access that its
      keyword implies unless the line changes it, derived if the line has a bare colon. */
  lemma ClassSays(stack: seq<Block>, line: Line, number: nat, inside: bool)
    requires line.classDecl.Some? && line.namespaces == []
    requires line.classDecl.value.rest.tokens == [] && line.tail.tokens == []
    ensures var s, d := BlocksAfter(stack, line, number, inside), line.classDecl.value;
      if (stack == [] || stack[|stack| - 1].openParentheses + line.depthChange == 0) && !inside then
        && |s| == |stack| + 1 && (stack != [] ==> s[..|stack| - 1] == stack[..|stack| - 1])
        && (forall i :: 0 <= i < |stack| ==> s[i].kind == stack[i].kind && s[i].seenOpenBrace == stack[i].seenOpenBrace)
        && s[|stack|] == Block(
             Class(d.name, d.isStruct,
                   if d.rest.access.Some? then d.rest.access.value else if d.isStruct then "public" else "private",
                   line.bareColon),
             number, false, 0, NoAsm)
      else |s| == |stack|
  {
    hide Counted, Begun, Accessed, CountParentheses, CheckBegin, SetAccess;
    var counted := CountParentheses(stack, line);
    InnermostSays(stack, line);
    var pushed := WithClass(counted, line, number, inside);
    var begun := CheckBegin(pushed, line.bareColon);
    var tail := TailAfter(counted, line, inside);
    ChangedTop(pushed, line.bareColon, tail.access);
    assert BeforeClass(stack, line, number) == counted;
    assert BlocksAfter(stack, line, number, inside) == SetAccess(begun, tail.access);
    if |pushed| > |stack| {
      assert pushed == counted + [ClassBlock(line.classDecl.value, number)];
      ClassBegins(ClassBlock(line.classDecl.value, number), line.bareColon, tail.access);
    }
  }

  lemma InnermostSays(stack: seq<Block>, line: Line)
    ensures var s := CountParentheses(stack, line);
      && |s| == |stack| && (stack != [] ==> s[..|stack| - 1] == stack[..|stack| - 1])
      && (stack != [] ==> s[|stack| - 1].openParentheses == stack[|stack| - 1].openParentheses + line.depthChange)
      && forall i :: 0 <= i < |stack| ==> s[i].kind == stack[i].kind && s[i].seenOpenBrace == stack[i].seenOpenBrace
  {
  }

  lemma ChangedTop(stack: seq<Block>, bareColon: bool, access: Option<string>)
    ensures var s := SetAccess(CheckBegin(stack, bareColon), access);
      && |s| == |stack|
      && (stack != [] ==> s == stack[..|stack| - 1] + [Accessed(Begun(stack[|stack| - 1], bareColon), access)])
  {
    hide Accessed, Begun;
  }

  lemma ClassBegins(b: Block, bareColon: bool, access: Option<string>)
    requires b.kind.Class? && !b.seenOpenBrace && !b.kind.isDerived
    ensures Accessed(Begun(b, bareColon), access) ==
      b.(kind := Class(b.kind.name, b.kind.isStruct, if access.Some? then access.value else b.kind.access, bareColon))
  {
  }

  // ----- A line as events -----

  /** What declarations and braces fix of a block: the rest changes while it is innermost. */
  function Core(b: Block): Block {
    var kind := if b.kind.Class? then Class(b.kind.name, b.kind.isStruct, "", false) else b.kind;
    Block(kind, b.startingLine, b.seenOpenBrace, 0, NoAsm)
  }

  function Cores(stack: seq<Block>): (cs: seq<Block>)
    ensures |cs| == |stack| && forall i :: 0 <= i < |stack| ==> cs[i] == Core(stack[i])
  {
    if stack == [] then [] else Cores(stack[..|stack| - 1]) + [Core(stack[|stack| - 1])]
  }

  function CoreEvent(e: Event): Event {
    match e
    case Head(b) => Head(Core(b))
    case Brace(b) => Brace(Core(b))
    case Close => Close
    case Semi => Semi
  }

  function CoreEvents(es: seq<Event>): (cs: seq<Event>)
    ensures |cs| == |es| && forall i :: 0 <= i < |es| ==> cs[i] == CoreEvent(es[i])
  {
    if es == [] then [] else CoreEvents(es[..|es| - 1]) + [CoreEvent(es[|es| - 1])]
  }

  /** A namespace is a head, followed by its brace when that is on the same line. */
  function NamespaceEvent(d: NamespaceDecl, number: nat): seq<Event> {
    [Head(NewBlock(Namespace(d.name), number, false))] + if d.opens then [Brace(NewBlock(Plain, number, true))] else []
  }

  function NamespaceEvents(ns: seq<NamespaceDecl>, number: nat, m: nat): seq<Event>
    requires m <= |ns|
  {
    if m == 0 then [] else NamespaceEvents(ns, number, m - 1) + NamespaceEvent(ns[m - 1], number)
  }

  /** `accepted`: the class declared on the line is taken for one. */
  function LineEvents(line: Line, number: nat, accepted: bool): seq<Event>
    requires accepted ==> line.classDecl.Some?
  {
    NamespaceEvents(line.namespaces, number, |line.namespaces|)
    + (if accepted then [Head(ClassBlock(line.classDecl.value, number))] else [])
    + EventsOf((if accepted then line.classDecl.value.rest else line.tail).tokens, number)
  }

  lemma {:induction false} ApplyPrefix(stack: seq<Block>, es: seq<Event>, more: seq<Event>, m: nat)
    requires m <= |es|
    ensures ApplyAll(stack, es + more, m) == ApplyAll(stack, es, m)
  {
    if m > 0 { ApplyPrefix(stack, es, more, m - 1); }
  }

  lemma {:induction false} ApplyInTurn(stack: seq<Block>, es: seq<Event>, more: seq<Event>, m: nat)
    requires m <= |more|
    ensures ApplyAll(stack, es + more, |es| + m) == ApplyAll(ApplyAll(stack, es, |es|), more, m)
  {
    if m == 0 {
      ApplyPrefix(stack, es, more, |es|);
    } else {
      ApplyInTurn(stack, es, more, m - 1);
      hide Apply;
      assert (es + more)[|es| + m - 1] == more[m - 1];
    }
  }

  lemma CoresOfMore(stack: seq<Block>, b: Block)
    ensures Cores(stack + [b]) == Cores(stack) + [Core(b)]
    ensures Cores(Pop(stack)) == Pop(Cores(stack))
    ensures SeenOpenBrace(Cores(stack)) == SeenOpenBrace(stack)
  {
  }

  lemma CoresApply(stack: seq<Block>, e: Event)
    ensures Cores(Apply(stack, e)) == Apply(Cores(stack), CoreEvent(e))
  {
    hide Cores, Pop, SeenOpenBrace;
    match e {
      case Head(b) => CoresOfMore(stack, b);
      case Brace(b) =>
        CoresOfMore(stack, b);
        if !SeenOpenBrace(stack) {
          assert stack != [] by { TopOfUnseen(stack); }
          var top := stack[|stack| - 1].(seenOpenBrace := true);
          CoresOfMore(Pop(stack), top);
        }
      case Close => CoresOfMore(stack, NewBlock(Plain, 0, true));
      case Semi => CoresOfMore(stack, NewBlock(Plain, 0, true));
    }
  }

  lemma TopOfUnseen(stack: seq<Block>)
    requires !SeenOpenBrace(stack)
    ensures stack != []
  {
  }

  lemma {:induction false} CoresApplyAll(stack: seq<Block>, es: seq<Event>, m: nat)
    requires m <= |es|
    ensures Cores(ApplyAll(stack, es, m)) == ApplyAll(Cores(stack), CoreEvents(es), m)
  {
    if m > 0 {
      CoresApplyAll(stack, es, m - 1);
      CoresApply(ApplyAll(stack, es, m - 1), es[m - 1]);
      hide Apply, Cores;
    }
  }

  lemma NamespaceIsEvents(stack: seq<Block>, d: NamespaceDecl, number: nat)
    ensures var es := NamespaceEvent(d, number);
      ApplyAll(stack, es, |es|) == stack + [NamespaceBlock(d, number)]
  {
    var es, head := NamespaceEvent(d, number), NewBlock(Namespace(d.name), number, false);
    assert ApplyAll(stack, es, 1) == stack + [head];
    if d.opens {
      assert Pop(stack + [head]) == stack;
      assert ApplyAll(stack, es, 2) == stack + [head.(seenOpenBrace := true)];
    }
  }

  lemma NothingApplied(stack: seq<Block>)
    ensures ApplyAll(stack, [], 0) == stack
  {
  }

  lemma {:induction false} NamespacesAreEvents(stack: seq<Block>, ns: seq<NamespaceDecl>, number: nat, m: nat)
    requires m <= |ns|
    ensures var es := NamespaceEvents(ns, number, m);
      PushNamespaces(stack, ns, number, m) == ApplyAll(stack, es, |es|)
  {
    hide ApplyAll, NamespaceEvent, NamespaceBlock;
    if m == 0 {
      NothingApplied(stack);
    } else {
      NamespacesAreEvents(stack, ns, number, m - 1);
      var before, one := NamespaceEvents(ns, number, m - 1), NamespaceEvent(ns[m - 1], number);
      NamespaceIsEvents(PushNamespaces(stack, ns, number, m - 1), ns[m - 1], number);
      ApplyInTurn(stack, before, one, |one|);
    }
  }

  lemma CoresOfSetTop(stack: seq<Block>, b: Block)
    requires stack != [] && Core(b) == Core(stack[|stack| - 1])
    ensures Cores(SetTop(stack, b)) == Cores(stack)
  {
  }

  lemma CoresOfInnermost(stack: seq<Block>, line: Line, bareColon: bool, access: Option<string>)
    ensures Cores(CountParentheses(stack, line)) == Cores(stack)
    ensures Cores(CheckBegin(stack, bareColon)) == Cores(stack)
    ensures Cores(SetAccess(stack, access)) == Cores(stack)
  {
    if stack != [] {
      var b := stack[|stack| - 1];
      assert Core(Counted(b, line)) == Core(Begun(b, bareColon)) == Core(Accessed(b, access)) == Core(b);
      hide Cores, Core, SetTop, Counted, Begun, Accessed;
      CoresOfSetTop(stack, Counted(b, line));
      CoresOfSetTop(stack, Begun(b, bareColon));
      CoresOfSetTop(stack, Accessed(b, access));
    }
  }

  predicate Accepted(stack: seq<Block>, line: Line, number: nat, inside: bool) {
    AcceptsClass(BeforeClass(stack, line, number), line, inside)
  }

  lemma ClassIsEvent(stack: seq<Block>, line: Line, number: nat, inside: bool)
    ensures var es :=
        if AcceptsClass(stack, line, inside) then [Head(ClassBlock(line.classDecl.value, number))] else [];
      Cores(WithClass(stack, line, number, inside)) == ApplyAll(Cores(stack), CoreEvents(es), |es|)
  {
    if AcceptsClass(stack, line, inside) {
      var e := Head(ClassBlock(line.classDecl.value, number));
      assert [e][..0] == [];
      CoresApply(stack, e);
      hide Cores;
      assert ApplyAll(Cores(stack), CoreEvents([e]), 1) == Apply(Cores(stack), CoreEvent(e));
    }
  }

  lemma CoreEventsAdd(a: seq<Event>, b: seq<Event>)
    ensures CoreEvents(a + b) == CoreEvents(a) + CoreEvents(b)
  {
  }

  /** Three stretches of events, one after the other. */
  lemma ThreeInTurn(stack: seq<Block>, a: seq<Event>, b: seq<Event>, c: seq<Event>)
    ensures ApplyAll(stack, a + b + c, |a + b + c|) ==
      ApplyAll(ApplyAll(ApplyAll(stack, a, |a|), b, |b|), c, |c|)
  {
    ApplyInTurn(stack, a, b, |b|);
    ApplyInTurn(stack, a + b, c, |c|);
    hide ApplyAll;
  }

  /** A line does to the stack exactly what its events do, up to what changes in place. */
  lemma LineIsEvents(stack: seq<Block>, line: Line, number: nat, inside: bool)
    ensures var es := CoreEvents(LineEvents(line, number, Accepted(stack, line, number, inside)));
      Cores(BlocksAfter(stack, line, number, inside)) == ApplyAll(Cores(stack), es, |es|)
  {
    var n, s := |line.namespaces|, BeforeClass(stack, line, number);
    var accepted, counted := AcceptsClass(s, line, inside), CountParentheses(stack, line);
    var tail, withClass := TailAfter(s, line, inside), WithClass(s, line, number, inside);
    var spaces := NamespaceEvents(line.namespaces, number, n);
    var decl := if accepted then [Head(ClassBlock(line.classDecl.value, number))] else [];
    var tokens := EventsOf(tail.tokens, number);
    NamespacesAreEvents(counted, line.namespaces, number, n);
    CoresApplyAll(counted, spaces, |spaces|);
    ClassIsEvent(s, line, number, inside);
    CoresOfInnermost(stack, line, false, None);
    CoresOfInnermost(withClass, line, line.bareColon, None);
    CoresOfInnermost(CheckBegin(withClass, line.bareColon), line, false, tail.access);
    CoresApplyAll(SetAccess(CheckBegin(withClass, line.bareColon), tail.access), tokens, |tokens|);
    CoreEventsAdd(spaces, decl);
    CoreEventsAdd(spaces + decl, tokens);
    ThreeInTurn(Cores(stack), CoreEvents(spaces), CoreEvents(decl), CoreEvents(tokens));
    hide Cores, ApplyAll, CountParentheses, CheckBegin, SetAccess, PushNamespaces, NamespaceEvents, CoreEvents,
      EventsOf, WithClass, AcceptsClass, ClassBlock;
  }

  lemma {:induction false} NamespacesAreWellMade(ns: seq<NamespaceDecl>, number: nat, m: nat)
    requires m <= |ns|
    ensures WellMade(NamespaceEvents(ns, number, m))
  {
    if m > 0 { NamespacesAreWellMade(ns, number, m - 1); }
  }

  lemma LineIsWellMade(line: Line, number: nat, accepted: bool)
    requires accepted ==> line.classDecl.Some?
    ensures WellMade(CoreEvents(LineEvents(line, number, accepted)))
  {
    var spaces := NamespaceEvents(line.namespaces, number, |line.namespaces|);
    var decl := if accepted then [Head(ClassBlock(line.classDecl.value, number))] else [];
    var tokens := EventsOf((if accepted then line.classDecl.value.rest else line.tail).tokens, number);
    NamespacesAreWellMade(line.namespaces, number, |line.namespaces|);
    assert WellMade(decl) && WellMade(tokens);
    hide NamespaceEvents, EventsOf;
    WellMadeAdds(spaces, decl);
    WellMadeAdds(spaces + decl, tokens);
    CoresAreWellMade(spaces + decl + tokens);
  }

  lemma WellMadeAdds(a: seq<Event>, b: seq<Event>)
    requires WellMade(a) && WellMade(b)
    ensures WellMade(a + b)
  {
  }

  lemma CoresAreWellMade(es: seq<Event>)
    requires WellMade(es)
    ensures WellMade(CoreEvents(es))
  {
  }

  // ----- Blocks apart from their line numbers -----

  ghost predicate Same(a: seq<Block>, b: seq<Block>) {
    |a| == |b| && forall i :: 0 <= i < |a| ==> SameBlock(a[i], b[i])
  }

  predicate SameBlock(a: Block, b: Block) { a.(startingLine := 0) == b.(startingLine := 0) }

  predicate SameEvent(a: Event, b: Event) {
    match a
    case Head(x) => b.Head? && SameBlock(x, b.block)
    case Brace(x) => b.Brace? && SameBlock(x, b.block)
    case _ => a == b
  }

  lemma SameOnTop(a: seq<Block>, b: seq<Block>, x: Block, y: Block)
    requires Same(a, b) && SameBlock(x, y)
    ensures Same(a + [x], b + [y]) && Same(SetTop(a, x), SetTop(b, y)) && Same(Pop(a), Pop(b))
    ensures SeenOpenBrace(a) == SeenOpenBrace(b)
    ensures a != [] ==> SameBlock(a[|a| - 1], b[|b| - 1])
  {
  }

  lemma SameApply(a: seq<Block>, b: seq<Block>, e: Event, f: Event)
    requires Same(a, b) && SameEvent(e, f)
    ensures Same(Apply(a, e), Apply(b, f))
  {
    var x := if e.Head? || e.Brace? then e.block else NewBlock(Plain, 0, true);
    var y := if f.Head? || f.Brace? then f.block else NewBlock(Plain, 0, true);
    SameOnTop(a, b, x, y);
    if a != [] { SameOnTop(a, b, a[|a| - 1].(seenOpenBrace := true), b[|b| - 1].(seenOpenBrace := true)); }
    hide Same;
  }

  lemma {:induction false} SameApplyAll(a: seq<Block>, b: seq<Block>, es: seq<Event>, fs: seq<Event>, m: nat)
    requires m <= |es| == |fs| && Same(a, b) && forall i :: 0 <= i < |es| ==> SameEvent(es[i], fs[i])
    ensures Same(ApplyAll(a, es, m), ApplyAll(b, fs, m))
  {
    if m > 0 {
      SameApplyAll(a, b, es, fs, m - 1);
      SameApply(ApplyAll(a, es, m - 1), ApplyAll(b, fs, m - 1), es[m - 1], fs[m - 1]);
      hide Apply, Same, SameEvent;
    }
  }

  lemma SameInnermost(a: seq<Block>, b: seq<Block>, line: Line, bareColon: bool, access: Option<string>)
    requires Same(a, b)
    ensures Same(CountParentheses(a, line), CountParentheses(b, line))
    ensures Same(CheckBegin(a, bareColon), CheckBegin(b, bareColon))
    ensures Same(SetAccess(a, access), SetAccess(b, access))
  {
    if a != [] {
      var x, y := a[|a| - 1], b[|b| - 1];
      assert SameBlock(x, y);
      SameOnTop(a, b, Counted(x, line), Counted(y, line));
      SameOnTop(a, b, Begun(x, bareColon), Begun(y, bareColon));
      SameOnTop(a, b, Accessed(x, access), Accessed(y, access));
      hide SetTop, SameBlock, Counted, Begun, Accessed;
    }
  }

  lemma {:induction false} SameNamespaces(a: seq<Block>, b: seq<Block>, ns: seq<NamespaceDecl>, n: nat, n': nat, m: nat)
    requires m <= |ns| && Same(a, b)
    ensures Same(PushNamespaces(a, ns, n, m), PushNamespaces(b, ns, n', m))
  {
    if m > 0 {
      SameNamespaces(a, b, ns, n, n', m - 1);
      SameOnTop(PushNamespaces(a, ns, n, m - 1), PushNamespaces(b, ns, n', m - 1),
                NamespaceBlock(ns[m - 1], n), NamespaceBlock(ns[m - 1], n'));
      hide Same;
    }
  }

  lemma SameClass(a: seq<Block>, b: seq<Block>, line: Line, n: nat, n': nat, inside: bool)
    requires Same(a, b)
    ensures Same(WithClass(a, line, n, inside), WithClass(b, line, n', inside))
    ensures TailAfter(a, line, inside) == TailAfter(b, line, inside)
  {
    if a != [] { assert SameBlock(a[|a| - 1], b[|b| - 1]); }
    if line.classDecl.Some? {
      SameOnTop(a, b, ClassBlock(line.classDecl.value, n), ClassBlock(line.classDecl.value, n'));
    }
    hide Same, ClassBlock;
  }

  /** What a line does to the stack does not depend on where it stands in the file. */
  lemma SameBlocksAfter(a: seq<Block>, b: seq<Block>, line: Line, n: nat, n': nat, inside: bool)
    requires Same(a, b)
    ensures Same(BlocksAfter(a, line, n, inside), BlocksAfter(b, line, n', inside))
  {
    hide Same, CountParentheses, PushNamespaces, WithClass, TailAfter, CheckBegin, SetAccess, ApplyAll, SameEvent;
    SameInnermost(a, b, line, false, None);
    SameNamespaces(CountParentheses(a, line), CountParentheses(b, line), line.namespaces, n, n', |line.namespaces|);
    var s, t := BeforeClass(a, line, n), BeforeClass(b, line, n');
    SameClass(s, t, line, n, n', inside);
    var tail := TailAfter(s, line, inside);
    SameInnermost(WithClass(s, line, n, inside), WithClass(t, line, n', inside), line, line.bareColon, None);
    var x := CheckBegin(WithClass(s, line, n, inside), line.bareColon);
    var y := CheckBegin(WithClass(t, line, n', inside), line.bareColon);
    SameInnermost(x, y, line, false, tail.access);
    SameTokens(tail.tokens, n, n');
    SameApplyAll(SetAccess(x, tail.access), SetAccess(y, tail.access),
                 EventsOf(tail.tokens, n), EventsOf(tail.tokens, n'), |tail.tokens|);
  }

  lemma SameTokens(ts: seq<Token>, n: nat, n': nat)
    ensures forall i :: 0 <= i < |ts| ==> SameEvent(EventsOf(ts, n)[i], EventsOf(ts, n')[i])
  {
  }

  // ----- The innermost block meanwhile -----

  /** A line that declares nothing and has no brace, semicolon or closing parenthesis left. */
  predicate Quiet(line: Line) { line.namespaces == [] && line.classDecl.None? && line.tail.tokens == [] }

  function QuietAfter(stack: seq<Block>, lines: seq<Line>, m: nat): seq<Block>
    requires m <= |lines|
  {
    if m == 0 then stack else BlocksAfter(QuietAfter(stack, lines, m - 1), lines[m - 1], m - 1, false)
  }

  function DepthChanges(lines: seq<Line>, m: nat): int
    requires m <= |lines|
  {
    if m == 0 then 0 else DepthChanges(lines, m - 1) + lines[m - 1].depthChange
  }

  /** The last access keyword among the first m lines, if there is one. */
  function LastAccess(lines: seq<Line>, m: nat, before: string): string
    requires m <= |lines|
  {
    if m == 0 then before
    else if lines[m - 1].tail.access.Some? then lines[m - 1].tail.access.value
    else LastAccess(lines, m - 1, before)
  }

  /** A colon on one of the first m lines makes a class derived, while its brace is awaited. */
  function Derived(lines: seq<Line>, m: nat, b: Block): bool
    requires m <= |lines| && b.kind.Class?
  {
    b.kind.isDerived || (!b.seenOpenBrace && exists i :: 0 <= i < m && lines[i].bareColon)
  }

  /** What a quiet line makes of the innermost block. */
  function Quieted(b: Block, line: Line): Block {
    Accessed(Begun(Counted(b, line), line.bareColon), line.tail.access)
  }

  lemma SetTopTwice(stack: seq<Block>, x: Block, y: Block)
    ensures SetTop(SetTop(stack, x), y) == SetTop(stack, y)
    ensures SetTop(stack, x)[|SetTop(stack, x)| - 1] == x && SetTop(stack, x) != []
  {
    assert Pop(SetTop(stack, x)) == Pop(stack);
  }

  lemma QuietLine(stack: seq<Block>, b: Block, line: Line, number: nat)
    requires Quiet(line)
    ensures BlocksAfter(SetTop(stack, b), line, number, false) == SetTop(stack, Quieted(b, line))
  {
    var counted := Counted(b, line);
    var begun := Begun(counted, line.bareColon);
    SetTopTwice(stack, b, counted);
    SetTopTwice(stack, counted, begun);
    SetTopTwice(stack, begun, Accessed(begun, line.tail.access));
    hide SetTop, Counted, Begun, Accessed;
    assert BeforeClass(SetTop(stack, b), line, number) == SetTop(stack, counted);
  }

  function QuietedBy(b: Block, lines: seq<Line>, m: nat): Block
    requires m <= |lines|
  {
    if m == 0 then b else Quieted(QuietedBy(b, lines, m - 1), lines[m - 1])
  }

  predicate AllQuiet(lines: seq<Line>, m: nat)
    requires m <= |lines|
  {
    m == 0 || (AllQuiet(lines, m - 1) && Quiet(lines[m - 1]))
  }

  /** Over any number of quiet lines only the innermost block changes ... */
  lemma {:induction false} QuietLinesChangeTop(stack: seq<Block>, b: Block, lines: seq<Line>, m: nat)
    requires m <= |lines| && AllQuiet(lines, m)
    ensures QuietAfter(SetTop(stack, b), lines, m) == SetTop(stack, QuietedBy(b, lines, m))
  {
    hide BlocksAfter, Quiet, Quieted, SetTop;
    if m > 0 {
      QuietLinesChangeTop(stack, b, lines, m - 1);
      QuietLine(stack, QuietedBy(b, lines, m - 1), lines[m - 1], m - 1);
    }
  }

  lemma QuietedBlock(b: Block, line: Line)
    ensures var t := Quieted(b, line);
      && t.openParentheses == b.openParentheses + line.depthChange
      && t.startingLine == b.startingLine && t.seenOpenBrace == b.seenOpenBrace
      && (!b.kind.Class? ==> t.kind == b.kind)
      && (b.kind.Class? ==>
           t.kind == Class(b.kind.name, b.kind.isStruct,
                           if line.tail.access.Some? then line.tail.access.value else b.kind.access,
                           b.kind.isDerived || (!b.seenOpenBrace && line.bareColon)))
  {
  }

  /** ... and it gathers their parentheses, while a class has the access of the last keyword
      and is derived if a colon came before its brace. */
  lemma {:induction false} QuietLinesAddUp(b: Block, lines: seq<Line>, m: nat)
    requires m <= |lines|
    ensures var t := QuietedBy(b, lines, m);
      && t.openParentheses == b.openParentheses + DepthChanges(lines, m)
      && t.startingLine == b.startingLine && t.seenOpenBrace == b.seenOpenBrace
      && (!b.kind.Class? ==> t.kind == b.kind)
      && (b.kind.Class? ==>
           t.kind == Class(b.kind.name, b.kind.isStruct, LastAccess(lines, m, b.kind.access), Derived(lines, m, b)))
  {
    if m > 0 {
      QuietLinesAddUp(b, lines, m - 1);
      QuietedBlock(QuietedBy(b, lines, m - 1), lines[m - 1]);
      hide Quieted;
      if b.kind.Class? { DerivedByOneMore(lines, m, b); }
    }
  }

  lemma DerivedByOneMore(lines: seq<Line>, m: nat, b: Block)
    requires 0 < m <= |lines| && b.kind.Class?
    ensures Derived(lines, m, b) == (Derived(lines, m - 1, b) || (!b.seenOpenBrace && lines[m - 1].bareColon))
  {
  }

  // ----- Inline assembly -----

  /** With line i the parentheses come to one, on a line that begins an assembly statement. */
  predicate EntersAsm(b: Block, lines: seq<Line>, i: nat)
    requires i < |lines|
  {
    lines[i].depthChange != 0 && lines[i].matchesAsm && Parentheses(b, lines, i + 1) == 1
  }

  /** Since then they have not been closed. */
  ghost predicate InAsmSince(b: Block, lines: seq<Line>, i: nat, m: nat)
    requires i < m <= |lines|
  {
    && EntersAsm(b, lines, i)
    && forall k :: i + 1 < k <= m ==> Parentheses(b, lines, k) != 0
  }

  ghost predicate IsInAsm(b: Block, lines: seq<Line>, m: nat)
    requires m <= |lines|
  {
    exists i :: 0 <= i < m && InAsmSince(b, lines, i, m)
  }

  /** The parentheses open in block b after m more lines. */
  function Parentheses(b: Block, lines: seq<Line>, m: nat): int
    requires m <= |lines|
  {
    b.openParentheses + DepthChanges(lines, m)
  }

  lemma QuietedAsm(b: Block, line: Line)
    ensures var open, asm := b.openParentheses + line.depthChange, Quieted(b, line).inlineAsm;
      && (b.inlineAsm == BlockAsm ==> asm == BlockAsm)
      && (b.inlineAsm == InsideAsm ==> asm == if open == 0 then EndAsm else InsideAsm)
      && (b.inlineAsm == NoAsm || b.inlineAsm == EndAsm ==>
           asm == if line.depthChange != 0 && open == 1 && line.matchesAsm then InsideAsm else NoAsm)
  {
  }

  /** Over quiet lines a block that is no assembly block is inside an assembly statement
      exactly if one was entered and its parentheses have been open since; the line that
      closes them ends it. */
  lemma {:induction false} InAsmIff(b: Block, lines: seq<Line>, m: nat)
    requires m <= |lines| && (b.inlineAsm == NoAsm || b.inlineAsm == EndAsm)
    ensures var asm := QuietedBy(b, lines, m).inlineAsm;
      && asm != BlockAsm
      && (asm == InsideAsm <==> IsInAsm(b, lines, m))
      && (m > 0 ==> (asm == EndAsm <==>
            QuietedBy(b, lines, m - 1).inlineAsm == InsideAsm && Parentheses(b, lines, m) == 0))
  {
    if m > 0 {
      var n := m - 1;
      InAsmIff(b, lines, n);
      QuietedAsm(QuietedBy(b, lines, n), lines[n]);
      QuietLinesAddUp(b, lines, n);
      InAsmNext(b, lines, n);
      hide Quieted, IsInAsm, DepthChanges;
    }
  }

  lemma InAsmNext(b: Block, lines: seq<Line>, n: nat)
    requires n < |lines|
    ensures Parentheses(b, lines, n + 1) == Parentheses(b, lines, n) + lines[n].depthChange
    ensures IsInAsm(b, lines, n + 1) <==>
      EntersAsm(b, lines, n) || (Parentheses(b, lines, n + 1) != 0 && IsInAsm(b, lines, n))
  {
    hide DepthChanges;
    DepthOfOneMore(lines, n);
    assert Parentheses(b, lines, n + 1) == Parentheses(b, lines, n) + lines[n].depthChange;
    hide Parentheses;
    var m := n + 1;
    if i :| 0 <= i < n && InAsmSince(b, lines, i, n) {
      if Parentheses(b, lines, m) != 0 { assert InAsmSince(b, lines, i, m); }
    }
    if EntersAsm(b, lines, n) { assert InAsmSince(b, lines, n, m); }
    if i :| 0 <= i < m && InAsmSince(b, lines, i, m) {
      if i < n { assert InAsmSince(b, lines, i, n) && Parentheses(b, lines, m) != 0; }
    }
  }

  lemma DepthOfOneMore(lines: seq<Line>, n: nat)
    requires n < |lines|
    ensures DepthChanges(lines, n + 1) == DepthChanges(lines, n) + lines[n].depthChange
  {
  }

  /** An assembly block stays one. */
  lemma {:induction false} AsmBlockStays(b: Block, lines: seq<Line>, m: nat)
    requires m <= |lines| && b.inlineAsm == BlockAsm
    ensures QuietedBy(b, lines, m).inlineAsm == BlockAsm
  {
    if m > 0 {
      AsmBlockStays(b, lines, m - 1);
      QuietedAsm(QuietedBy(b, lines, m - 1), lines[m - 1]);
      hide Quieted;
    }
  }
}
