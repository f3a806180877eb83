/**
  The parser as it runs over the lines of a script
  (src/client/txn_script/script_parser.c): a stack of open blocks, closed and
  opened by indentation, and statements added and linked in place. What a line
  says is given by its content; reading it from tokens is not modelled.
 */
module ParserEngine {
  import opened Frames
  import opened ScriptTree
  import opened ScriptParser

  const BLOCK_DEPTH_MAX := 8
  const RESPONSES_MAX := 16

  datatype LoopHeader = LoopHeader(variable: string, over: Iterable)

  /** What a line says. A for line can read as a loop, as a roster, or as either. */
  datatype Content =
    | Step
    | For(loop: Option<LoopHeader>, roster: bool)
    | Keepalive
    | Response
    | Success
    | RootSetting
    | ResponseSetting
    | Malformed

  datatype Line = Line(number: nat, indent: nat, content: Content)

  datatype Kind = RootBlock | ResponseBlock | RosterBlock | LoopBlock

  datatype Block = Block(kind: Kind, index: nat, headerIndent: nat, indent: nat, awaiting: bool, lastChild: nat)

  /** What is recorded of a response: whether it waits on a roster, whether it has a success line. */
  datatype ResponseNode = ResponseNode(hasRoster: bool, hasSuccess: bool)

  /** Where a statement stands: in how many loops, how far indented, and on which line. */
  datatype Mark = Mark(level: nat, indent: nat, position: nat)

  // ---------- statements and lines ----------

  /** The statement is the one its line describes. */
  predicate Tells(line: Line, s: Statement) {
    && s.line == line.number
    && match s
       case Step(_, _) => line.content.Step? || line.content.Keepalive?
       case For(_, variable, over, _, _) => line.content.For? && line.content.loop == Some(LoopHeader(variable, over))
  }

  /** The last of the lines adds a statement. */
  predicate Adds(lines: seq<Line>) {
    && lines != [] && ReadAll(lines).Some? && ReadAll(lines[..|lines| - 1]).Some?
    && ReadAll(lines).value.count != ReadAll(lines[..|lines| - 1]).value.count
  }

  /** Line by line: each line that adds a statement has added the one it describes, and no other has added any. */
  predicate FromLines(script: Script, marks: seq<Mark>, lines: seq<Line>) {
    && |marks| == |script|
    && if lines == [] then script == []
       else
         var k := |lines| - 1;
         if Adds(lines) then
           && marks != [] && marks[|marks| - 1].position == k && marks[|marks| - 1].indent == lines[k].indent
           && Tells(lines[k], script[|script| - 1])
           && FromLines(script[..|script| - 1], marks[..|marks| - 1], lines[..k])
         else FromLines(script, marks, lines[..k])
  }

  /** Which lines add a statement: steps, the keepalive, and for lines that are not in a response. */
  lemma AddingLines(o: Outline, line: Line)
    requires ReadLine(o, line).Some?
    ensures var block := Placing(o.blocks, o.responses, line.indent).value;
      ReadLine(o, line).value.count == o.count +
        if line.content.Step? || line.content.Keepalive?
           || (line.content.For? && HoldsStatements(block[|block| - 1])) then 1 else 0
  {
  }

  /** Every statement has its own line. */
  lemma {:induction false} StatementHasLine(script: Script, marks: seq<Mark>, lines: seq<Line>, i: nat)
    requires FromLines(script, marks, lines) && i < |marks|
    ensures marks[i].position < |lines| && Adds(lines[..marks[i].position + 1])
    ensures Tells(lines[marks[i].position], script[i]) && marks[i].indent == lines[marks[i].position].indent
    decreases |lines|
  {
    var k := |lines| - 1;
    if Adds(lines) {
      if i < |marks| - 1 {
        StatementHasLine(script[..|script| - 1], marks[..|marks| - 1], lines[..k], i);
        assert lines[..k][..marks[i].position + 1] == lines[..marks[i].position + 1];
      } else {
        assert lines[..k + 1] == lines;
      }
    } else {
      StatementHasLine(script, marks, lines[..k], i);
      assert lines[..k][..marks[i].position + 1] == lines[..marks[i].position + 1];
    }
  }

  /** The statements are in line order. */
  lemma {:induction false} StatementsInLineOrder(script: Script, marks: seq<Mark>, lines: seq<Line>, i: nat, j: nat)
    requires FromLines(script, marks, lines) && i < j < |marks|
    ensures marks[i].position < marks[j].position
    decreases |lines|
  {
    var k := |lines| - 1;
    if Adds(lines) {
      if j < |marks| - 1 {
        StatementsInLineOrder(script[..|script| - 1], marks[..|marks| - 1], lines[..k], i, j);
      } else {
        StatementHasLine(script[..|script| - 1], marks[..|marks| - 1], lines[..k], i);
      }
    } else {
      StatementsInLineOrder(script, marks, lines[..k], i, j);
    }
  }

  /** Every line that adds a statement has one: no step, keepalive or loop header is lost. */
  lemma {:induction false} AddingLineHasStatement(script: Script, marks: seq<Mark>, lines: seq<Line>, k: nat) returns (i: nat)
    requires FromLines(script, marks, lines) && k < |lines| && Adds(lines[..k + 1])
    ensures i < |marks| && marks[i].position == k
    decreases |lines|
  {
    var last := |lines| - 1;
    if k == last {
      assert lines[..k + 1] == lines;
      i := |marks| - 1;
    } else {
      assert lines[..last][..k + 1] == lines[..k + 1];
      if Adds(lines) {
        i := AddingLineHasStatement(script[..|script| - 1], marks[..|marks| - 1], lines[..last], k);
      } else {
        i := AddingLineHasStatement(script, marks, lines[..last], k);
      }
    }
  }

  /** A sibling stands in the same loops at the same indentation; what a loop holds stands one loop deeper and further in. */
  predicate WellMarked(script: Script, marks: seq<Mark>, i: nat)
    requires IsTree(script) && i < |script| == |marks|
  {
    && marks[i].level < BINDINGS_MAX
    && (script[i].next != NO_INDEX ==> Beside(marks[i], marks[script[i].next]))
    && (ChildOf(script[i]) != NO_INDEX ==> Inside(marks[i], marks[ChildOf(script[i])]))
  }

  predicate Arranged(script: Script, marks: seq<Mark>, n: nat)
    requires IsTree(script) && n <= |script| == |marks|
  {
    n > 0 ==> WellMarked(script, marks, n - 1) && Arranged(script, marks, n - 1)
  }

  lemma {:induction false} ArrangedAt(script: Script, marks: seq<Mark>, n: nat, i: nat)
    requires IsTree(script) && i < n <= |script| == |marks| && Arranged(script, marks, n)
    ensures WellMarked(script, marks, i)
  {
    if i < n - 1 {
      ArrangedAt(script, marks, n - 1, i);
    }
  }

  lemma {:induction false} ArrangedWithAdded(script: Script, marks: seq<Mark>, n: nat, s: Statement, m: Mark)
    requires IsTree(script) && n <= |script| == |marks| && Arranged(script, marks, n) && IsTree(script + [s])
    ensures Arranged(script + [s], marks + [m], n)
  {
    if n > 0 {
      ArrangedWithAdded(script, marks, n - 1, s, m);
    }
  }

  lemma {:induction false} ArrangedWithLink(script: Script, marks: seq<Mark>, n: nat, p: nat, inside: bool)
    requires IsTree(script) && n <= |script| == |marks| && Arranged(script, marks, n)
    requires p + 1 < |script| && (inside ==> script[p].For?)
    requires if inside then Inside(marks[p], marks[|script| - 1]) else Beside(marks[p], marks[|script| - 1])
    requires IsTree(Attached(script, p, |script| - 1, inside))
    ensures Arranged(Attached(script, p, |script| - 1, inside), marks, n)
  {
    if n > 0 {
      ArrangedWithLink(script, marks, n - 1, p, inside);
    }
  }

  predicate Beside(a: Mark, b: Mark) {
    a.level == b.level && a.indent == b.indent
  }

  predicate Inside(a: Mark, b: Mark) {
    a.level + 1 == b.level && a.indent < b.indent
  }

  /** The statements of a script but for the keepalive. */
  function Linked(count: nat, keepalive: nat): (s: seq<nat>)
    ensures forall k | 0 <= k < |s| :: s[k] < count
    ensures Increasing(s)
    ensures forall i: nat :: i in s <==> i < count && i != keepalive
  {
    if count == 0 then []
    else
      var s := Linked(count - 1, keepalive);
      if count - 1 == keepalive then s else s + [count - 1]
  }

  lemma {:induction false} NoneLeftOut(count: nat, keepalive: nat)
    requires count <= keepalive && count <= NO_INDEX
    ensures Linked(count, keepalive) == Linked(count, NO_INDEX)
  {
    if 0 < count {
      NoneLeftOut(count - 1, keepalive);
    }
  }

  function Levels(marks: seq<Mark>): seq<nat> {
    seq(|marks|, i requires 0 <= i < |marks| => marks[i].level)
  }

  lemma {:induction false} ArrangedIsLeveled(script: Script, marks: seq<Mark>, n: nat)
    requires IsTree(script) && n <= |script| == |marks| && Arranged(script, marks, n)
    ensures Leveled(script, Levels(marks), n)
  {
    if n > 0 {
      ArrangedIsLeveled(script, marks, n - 1);
    }
  }

  // ---------- the stack of open blocks ----------

  predicate HoldsStatements(b: Block) {
    b.kind.RootBlock? || b.kind.LoopBlock?
  }

  /** The tree ends at `p`: a statement linked there comes last. */
  predicate EndsAt(script: Script, first: nat, p: nat)
    requires IsTree(script)
  {
    p < |script| && script[p].next == NO_INDEX && OnSpine(script, first, p)
  }

  predicate BlockFits(script: Script, first: nat, marks: seq<Mark>, b: Block, level: nat)
    requires IsTree(script) && |marks| == |script|
  {
    && (b.lastChild != NO_INDEX ==>
         && HoldsStatements(b) && !b.awaiting && EndsAt(script, first, b.lastChild)
         && marks[b.lastChild].level == level && marks[b.lastChild].indent == b.indent)
    && match b.kind
       case RootBlock => b.lastChild == NO_INDEX ==> first == NO_INDEX
       case LoopBlock =>
         && b.index < |script| && script[b.index].For?
         && marks[b.index].level + 1 == level && marks[b.index].indent == b.headerIndent
         && (if b.lastChild == NO_INDEX then script[b.index].child == NO_INDEX && EndsAt(script, first, b.index)
             else b.index < b.lastChild)
       case _ => true
  }

  /** How a block stands in the one it was opened in. */
  predicate Nests(outer: Block, b: Block) {
    && !outer.awaiting && b.headerIndent == outer.indent && (b.awaiting || b.headerIndent < b.indent)
    && match b.kind
       case RootBlock => false
       case ResponseBlock => outer.kind.RootBlock?
       case RosterBlock => outer.kind.ResponseBlock? && b.index == outer.index
       case LoopBlock => HoldsStatements(outer) && b.index == outer.lastChild
  }

  predicate IsRoot(b: Block) {
    b.kind.RootBlock? && !b.awaiting && b.indent == 0
  }

  predicate StackFits(script: Script, first: nat, marks: seq<Mark>, blocks: seq<Block>)
    requires IsTree(script) && |marks| == |script|
  {
    && blocks != [] && BlockFits(script, first, marks, blocks[|blocks| - 1], |blocks| - 1)
    && (|blocks| == 1 ==> IsRoot(blocks[0]))
    && (|blocks| > 1 ==>
         && Nests(blocks[|blocks| - 2], blocks[|blocks| - 1])
         && StackFits(script, first, marks, blocks[..|blocks| - 1]))
  }

  /** The indentations of the open blocks strictly increase. */
  lemma {:induction false} IndentsIncrease(script: Script, first: nat, marks: seq<Mark>, blocks: seq<Block>)
    requires IsTree(script) && |marks| == |script| && StackFits(script, first, marks, blocks)
    ensures forall j, k | 0 <= j < k < |blocks| && !blocks[k].awaiting :: blocks[j].indent < blocks[k].indent
    ensures forall k | 0 <= k < |blocks| - 1 :: !blocks[k].awaiting
    decreases |blocks|
  {
    if |blocks| > 1 {
      var outer := blocks[..|blocks| - 1];
      IndentsIncrease(script, first, marks, outer);
      assert forall k | 0 <= k < |outer| :: outer[k] == blocks[k];
    }
  }

  lemma {:induction false} StackWithAdded(
    script: Script, first: nat, marks: seq<Mark>, blocks: seq<Block>, s: Statement, m: Mark)
    requires IsTree(script) && |marks| == |script| < STATEMENTS_MAX && IsLoose(s) && IsNode(script, first)
    requires IsTree(script + [s]) && StackFits(script, first, marks, blocks)
    ensures StackFits(script + [s], first, marks + [m], blocks)
    decreases |blocks|
  {
    Added(script, s, first);
    if |blocks| > 1 {
      StackWithAdded(script, first, marks, blocks[..|blocks| - 1], s, m);
    }
  }

  /** The blocks around a link keep their ends: they all come before it. */
  lemma {:induction false} StackWithLink(
    script: Script, first: nat, marks: seq<Mark>, blocks: seq<Block>, p: nat, inside: bool)
    requires IsTree(script) && |marks| == |script| && StackFits(script, first, marks, blocks)
    requires p + 1 < |script| && (inside ==> script[p].For?)
    requires IsTree(Attached(script, p, |script| - 1, inside))
    requires var b := blocks[|blocks| - 1];
      b.lastChild != NO_INDEX && b.lastChild <= p && (b.lastChild == p ==> inside)
    ensures StackFits(Attached(script, p, |script| - 1, inside), first, marks, blocks)
    decreases |blocks|
  {
    var b := blocks[|blocks| - 1];
    SpineKept(script, first, p, inside, b.lastChild);
    if |blocks| > 1 {
      StackWithLink(script, first, marks, blocks[..|blocks| - 1], p, inside);
    }
  }

  lemma TopReplaced(script: Script, first: nat, marks: seq<Mark>, blocks: seq<Block>, b: Block)
    requires IsTree(script) && |marks| == |script| && StackFits(script, first, marks, blocks)
    requires BlockFits(script, first, marks, b, |blocks| - 1)
    requires if |blocks| == 1 then IsRoot(b) else Nests(blocks[|blocks| - 2], b)
    ensures StackFits(script, first, marks, blocks[|blocks| - 1 := b])
  {
    assert blocks[|blocks| - 1 := b][..|blocks| - 1] == blocks[..|blocks| - 1];
  }

  /** The tree grown so far: arranged as the lines are, with every statement before `count` but the keepalive reached in line order. */
  ghost predicate IsGrown(
    script: Script, first: nat, keepalive: nat, marks: seq<Mark>, blocks: seq<Block>, count: nat)
  {
    && IsTree(script) && |marks| == |script| && Arranged(script, marks, |script|)
    && IsNode(script, first) && count <= |script|
    && (first != NO_INDEX ==> marks[first].level == 0)
    && StackFits(script, first, marks, blocks) && |blocks| <= BLOCK_DEPTH_MAX
    && Preorder(script, first) == Linked(count, keepalive)
  }

  lemma GrownByAdding(
    script: Script, first: nat, keepalive: nat, marks: seq<Mark>, blocks: seq<Block>, s: Statement, m: Mark)
    requires IsGrown(script, first, keepalive, marks, blocks, |script|) && |script| < STATEMENTS_MAX
    requires IsLoose(s) && m.level < BINDINGS_MAX
    ensures IsGrown(script + [s], first, keepalive, marks + [m], blocks, |script|)
  {
    Added(script, s, first);
    StackWithAdded(script, first, marks, blocks, s, m);
    ArrangedWithAdded(script, marks, |script|, s, m);
  }

  /** The last statement left out of the tree as the keepalive. */
  lemma GrownByKeepalive(script: Script, first: nat, marks: seq<Mark>, blocks: seq<Block>)
    requires script != [] && IsGrown(script, first, NO_INDEX, marks, blocks, |script| - 1)
    ensures IsGrown(script, first, |script| - 1, marks, blocks, |script|)
  {
    NoneLeftOut(|script| - 1, |script| - 1);
  }

  /** The last statement linked where the innermost block ends. */
  lemma GrownByLinking(
    script: Script, first: nat, keepalive: nat, marks: seq<Mark>, blocks: seq<Block>, p: nat, inside: bool)
    requires script != [] && IsGrown(script, first, keepalive, marks, blocks, |script| - 1)
    requires IsLoose(script[|script| - 1]) && keepalive != |script| - 1
    requires p + 1 < |script| && EndsAt(script, first, p)
    requires inside ==> script[p].For? && script[p].child == NO_INDEX
    requires if inside then Inside(marks[p], marks[|script| - 1]) else Beside(marks[p], marks[|script| - 1])
    ensures var after := Attached(script, p, |script| - 1, inside);
      && IsTree(after) && Arranged(after, marks, |script|) && EndsAt(after, first, |script| - 1)
      && Preorder(after, first) == Linked(|script|, keepalive)
  {
    var n := |script| - 1;
    AttachedIsTree(script, p, inside);
    ArrangedWithLink(script, marks, |script|, p, inside);
    AttachedLast(script, first, p, inside);
    SpineKept(script, first, p, inside, p);
    SpineExtends(Attached(script, p, n, inside), first, p, n);
  }

  /** The last statement may be linked into the innermost block. */
  ghost predicate CanLink(script: Script, first: nat, keepalive: nat, marks: seq<Mark>, blocks: seq<Block>) {
    && script != [] && IsGrown(script, first, keepalive, marks, blocks, |script| - 1)
    && IsLoose(script[|script| - 1]) && keepalive != |script| - 1
    && var b := blocks[|blocks| - 1];
      && HoldsStatements(b) && !b.awaiting
      && marks[|script| - 1].level == |blocks| - 1 && marks[|script| - 1].indent == b.indent
  }

  function WithChild(blocks: seq<Block>, n: nat): seq<Block>
    requires blocks != []
  {
    blocks[|blocks| - 1 := blocks[|blocks| - 1].(lastChild := n)]
  }

  lemma LinkedBeside(script: Script, first: nat, keepalive: nat, marks: seq<Mark>, blocks: seq<Block>)
    requires CanLink(script, first, keepalive, marks, blocks) && blocks[|blocks| - 1].lastChild != NO_INDEX
    ensures var n, p := |script| - 1, blocks[|blocks| - 1].lastChild;
      p < n && IsGrown(Attached(script, p, n, false), first, keepalive, marks, WithChild(blocks, n), |script|)
  {
    var n, b := |script| - 1, blocks[|blocks| - 1];
    SpineGoesOn(script, first, b.lastChild);
    assert b.lastChild != n;
    GrownByLinking(script, first, keepalive, marks, blocks, b.lastChild, false);
    var after := Attached(script, b.lastChild, n, false);
    if |blocks| > 1 {
      StackWithLink(script, first, marks, blocks[..|blocks| - 1], b.lastChild, false);
    }
    TopLinked(after, first, marks, blocks, n);
  }

  lemma LinkedInside(script: Script, first: nat, keepalive: nat, marks: seq<Mark>, blocks: seq<Block>)
    requires CanLink(script, first, keepalive, marks, blocks)
    requires blocks[|blocks| - 1].lastChild == NO_INDEX && blocks[|blocks| - 1].kind.LoopBlock?
    ensures var n, p := |script| - 1, blocks[|blocks| - 1].index;
      && p < n && script[p].For?
      && IsGrown(Attached(script, p, n, true), first, keepalive, marks, WithChild(blocks, n), |script|)
  {
    var n, b := |script| - 1, blocks[|blocks| - 1];
    SpineGoesOn(script, first, b.index);
    GrownByLinking(script, first, keepalive, marks, blocks, b.index, true);
    StackWithLink(script, first, marks, blocks[..|blocks| - 1], b.index, true);
    TopLinked(Attached(script, b.index, n, true), first, marks, blocks, n);
  }

  lemma LinkedFirst(script: Script, first: nat, keepalive: nat, marks: seq<Mark>, blocks: seq<Block>)
    requires CanLink(script, first, keepalive, marks, blocks)
    requires blocks[|blocks| - 1].lastChild == NO_INDEX && blocks[|blocks| - 1].kind.RootBlock?
    ensures IsGrown(script, |script| - 1, keepalive, marks, WithChild(blocks, |script| - 1), |script|)
  {
    var n := |script| - 1;
    assert |blocks| == 1;
    assert Preorder(script, n) == [n];
    assert EndsAt(script, n, n);
  }

  /** The script and its first statement once `n` is linked as the last one of block `b`. */
  function LinkInto(script: Script, first: nat, b: Block, n: nat): (Script, nat)
    requires b.lastChild < |script| || b.lastChild == NO_INDEX
    requires b.kind.LoopBlock? && b.lastChild == NO_INDEX ==> b.index < |script| && script[b.index].For?
  {
    if b.lastChild < |script| then (Attached(script, b.lastChild, n, false), first)
    else if b.kind.LoopBlock? then (Attached(script, b.index, n, true), first)
    else (script, n)
  }

  lemma LinkGrows(script: Script, first: nat, keepalive: nat, marks: seq<Mark>, blocks: seq<Block>)
    requires CanLink(script, first, keepalive, marks, blocks)
    ensures var n, links := |script| - 1, LinkInto(script, first, blocks[|blocks| - 1], |script| - 1);
      && IsGrown(links.0, links.1, keepalive, marks, WithChild(blocks, n), |script|)
      && AllAlike(script, links.0) && links.0[n] == script[n]
  {
    var b := blocks[|blocks| - 1];
    if b.lastChild != NO_INDEX {
      LinkedBeside(script, first, keepalive, marks, blocks);
    } else if b.kind.LoopBlock? {
      LinkedInside(script, first, keepalive, marks, blocks);
    } else {
      LinkedFirst(script, first, keepalive, marks, blocks);
    }
  }

  /** The innermost block with its new last statement, over the blocks around it. */
  lemma TopLinked(script: Script, first: nat, marks: seq<Mark>, blocks: seq<Block>, n: nat)
    requires IsTree(script) && |marks| == |script| && blocks != []
    requires |blocks| > 1 ==> StackFits(script, first, marks, blocks[..|blocks| - 1])
    requires var b := blocks[|blocks| - 1];
      && HoldsStatements(b) && !b.awaiting && n != NO_INDEX && EndsAt(script, first, n)
      && marks[n].level == |blocks| - 1 && marks[n].indent == b.indent
      && (b.kind.LoopBlock? ==>
           && b.index < n && script[b.index].For?
           && marks[b.index].level == |blocks| - 2 && marks[b.index].indent == b.headerIndent)
      && (if |blocks| == 1 then IsRoot(b) else Nests(blocks[|blocks| - 2], b))
    ensures StackFits(script, first, marks, WithChild(blocks, n))
  {
    assert WithChild(blocks, n)[..|blocks| - 1] == blocks[..|blocks| - 1];
  }

  /** The same statement but for its links. */
  predicate Alike(a: Statement, b: Statement) {
    a.line == b.line && a.Step? == b.Step? && (a.For? ==> a.variable == b.variable && a.over == b.over)
  }

  predicate AllAlike(a: Script, b: Script) {
    |a| == |b| && forall i | 0 <= i < |a| :: Alike(a[i], b[i])
  }

  predicate ResponsesFit(blocks: seq<Block>, responses: seq<ResponseNode>) {
    && |responses| <= RESPONSES_MAX
    && forall k | 0 <= k < |blocks| :: HoldsStatements(blocks[k]) || blocks[k].index < |responses|
  }

  predicate CanClose(b: Block, responses: seq<ResponseNode>) {
    !b.awaiting && (b.kind.RosterBlock? ==> b.index < |responses| && responses[b.index].hasSuccess)
  }

  /**
    The blocks left open for a line with this indentation: those it is no longer in are
    closed, and the first line of a block gives the block its indentation.
   */
  function Placing(blocks: seq<Block>, responses: seq<ResponseNode>, indent: nat): Option<seq<Block>>
    requires blocks != []
  {
    var b := blocks[|blocks| - 1];
    if |blocks| > 1 && !b.awaiting && indent < b.indent then
      if CanClose(b, responses) then Placing(blocks[..|blocks| - 1], responses, indent) else None
    else if b.awaiting then
      if b.headerIndent < indent then Some(blocks[|blocks| - 1 := b.(indent := indent, awaiting := false)]) else None
    else if indent == b.indent then Some(blocks) else None
  }

  // ---------- which lines are accepted ----------

  /** What decides whether a line is accepted: how much has been read, and the open blocks. */
  datatype Outline = Outline(count: nat, keepalive: nat, responses: seq<ResponseNode>, blocks: seq<Block>)

  const ROOT := Block(RootBlock, 0, 0, 0, false, NO_INDEX)
  const EMPTY := Outline(0, NO_INDEX, [], [ROOT])

  function Opening(o: Outline, kind: Kind, index: nat, indent: nat): Option<Outline> {
    if |o.blocks| == BLOCK_DEPTH_MAX then None
    else Some(o.(blocks := o.blocks + [Block(kind, index, indent, 0, true, NO_INDEX)]))
  }

  function OneMore(o: Outline): Option<Outline>
    requires o.blocks != []
  {
    if o.count == STATEMENTS_MAX then None
    else Some(o.(count := o.count + 1, blocks := WithChild(o.blocks, o.count)))
  }

  function Recorded(o: Outline, index: nat, node: ResponseNode): Outline
    requires index < |o.responses|
  {
    o.(responses := o.responses[index := node])
  }

  /** A response holds a success line or one roster, and settings. */
  function TakeInResponse(o: Outline, index: nat, line: Line): Option<Outline>
    requires index < |o.responses|
  {
    var node := o.responses[index];
    match line.content
    case Success => if node.hasRoster then None else Some(Recorded(o, index, node.(hasSuccess := true)))
    case For(_, roster) =>
      if node.hasRoster || node.hasSuccess || !roster then None
      else Opening(Recorded(o, index, node.(hasRoster := true)), RosterBlock, index, line.indent)
    case ResponseSetting => Some(o)
    case _ => None
  }

  /** A roster holds one success line. */
  function TakeInRoster(o: Outline, index: nat, line: Line): Option<Outline>
    requires index < |o.responses|
  {
    if !line.content.Success? || o.responses[index].hasSuccess then None
    else Some(Recorded(o, index, o.responses[index].(hasSuccess := true)))
  }

  /** A loop holds steps and loops; the root also one keepalive, responses and settings. */
  function TakeInLoop(o: Outline, atRoot: bool, line: Line): Option<Outline>
    requires o.blocks != []
  {
    match line.content
    case Step => OneMore(o)
    case For(loop, _) =>
      if loop.None? || OneMore(o).None? then None else Opening(OneMore(o).value, LoopBlock, o.count, line.indent)
    case Keepalive =>
      if !atRoot || o.keepalive != NO_INDEX || o.count == STATEMENTS_MAX then None
      else Some(o.(count := o.count + 1, keepalive := o.count))
    case Response =>
      if !atRoot || |o.responses| == RESPONSES_MAX then None
      else Opening(o.(responses := o.responses + [ResponseNode(false, false)]), ResponseBlock, |o.responses|, line.indent)
    case RootSetting => if atRoot then Some(o) else None
    case _ => None
  }

  /** The outline once the line, placed in the innermost block, has been read. */
  function Take(o: Outline, line: Line): Option<Outline> {
    if o.blocks == [] then None
    else
      var block := o.blocks[|o.blocks| - 1];
      if HoldsStatements(block) then TakeInLoop(o, block.kind.RootBlock?, line)
      else if block.index >= |o.responses| then None
      else if block.kind.ResponseBlock? then TakeInResponse(o, block.index, line)
      else TakeInRoster(o, block.index, line)
  }

  function ReadLine(o: Outline, line: Line): Option<Outline> {
    if o.blocks == [] then None
    else
      match Placing(o.blocks, o.responses, line.indent)
      case None => None
      case Some(blocks) => Take(o.(blocks := blocks), line)
  }

  /** The outline after all the lines. */
  function ReadAll(lines: seq<Line>): Option<Outline> {
    if lines == [] then Some(EMPTY)
    else
      match ReadAll(lines[..|lines| - 1])
      case None => None
      case Some(o) => ReadLine(o, lines[|lines| - 1])
  }

  /** Every block but the root may be closed. */
  predicate AllClose(blocks: seq<Block>, responses: seq<ResponseNode>) {
    |blocks| > 1 ==> CanClose(blocks[|blocks| - 1], responses) && AllClose(blocks[..|blocks| - 1], responses)
  }

  /** The text is accepted: every line is, and no block is left waiting for one. */
  predicate IsAccepted(lines: seq<Line>) {
    ReadAll(lines).Some? && AllClose(ReadAll(lines).value.blocks, ReadAll(lines).value.responses)
  }

  lemma {:induction false} NoWayBack(lines: seq<Line>, k: nat)
    requires k <= |lines| && ReadAll(lines[..k]).None?
    ensures ReadAll(lines).None?
    decreases |lines|
  {
    if k < |lines| {
      assert lines[..|lines| - 1][..k] == lines[..k];
      NoWayBack(lines[..|lines| - 1], k);
    } else {
      assert lines[..k] == lines;
    }
  }

  // ---------- blocks opened and started ----------

  lemma BlockStarts(
    script: Script, first: nat, keepalive: nat, marks: seq<Mark>, blocks: seq<Block>, responses: seq<ResponseNode>,
    indent: nat)
    requires IsGrown(script, first, keepalive, marks, blocks, |script|) && ResponsesFit(blocks, responses)
    requires var b := blocks[|blocks| - 1]; b.awaiting && b.headerIndent < indent
    ensures var b := blocks[|blocks| - 1];
      var after := blocks[|blocks| - 1 := b.(indent := indent, awaiting := false)];
      IsGrown(script, first, keepalive, marks, after, |script|) && ResponsesFit(after, responses)
  {
    TopReplaced(script, first, marks, blocks, blocks[|blocks| - 1].(indent := indent, awaiting := false));
  }

  lemma BlockOpens(
    script: Script, first: nat, keepalive: nat, marks: seq<Mark>, blocks: seq<Block>, responses: seq<ResponseNode>,
    b: Block)
    requires IsGrown(script, first, keepalive, marks, blocks, |script|) && ResponsesFit(blocks, responses)
    requires Nests(blocks[|blocks| - 1], b) && b.awaiting && b.lastChild == NO_INDEX && |blocks| < BLOCK_DEPTH_MAX
    requires b.kind.LoopBlock? ==> b.index < |script| && IsLoose(script[b.index]) && script[b.index].For?
    requires !b.kind.LoopBlock? ==> b.index < |responses|
    ensures IsGrown(script, first, keepalive, marks, blocks + [b], |script|) && ResponsesFit(blocks + [b], responses)
  {
    assert (blocks + [b])[..|blocks|] == blocks;
    assert StackFits(script, first, marks, blocks + [b]);
  }

  lemma {:induction false} StillFromLines(script: Script, after: Script, marks: seq<Mark>, lines: seq<Line>)
    requires FromLines(script, marks, lines) && AllAlike(script, after)
    ensures FromLines(after, marks, lines)
    decreases |lines|
  {
    if lines != [] {
      var k := |lines| - 1;
      if Adds(lines) {
        StillFromLines(script[..|script| - 1], after[..|script| - 1], marks[..|marks| - 1], lines[..k]);
      } else {
        StillFromLines(script, after, marks, lines[..k]);
      }
    }
  }

  /** What reading a line made of the statements: nothing, or one more, the one the line describes. */
  predicate IsTold(before: Script, after: Script, was: seq<Mark>, now: seq<Mark>, line: Line, at: nat) {
    || (after == before && now == was)
    || (&& |now| == |after| == |before| + 1 && AllAlike(before, after[..|before|]) && Tells(line, after[|before|])
        && now[..|before|] == was && now[|before|].indent == line.indent && now[|before|].position == at)
  }

  /** One more line. */
  lemma OneMoreLine(before: Script, after: Script, was: seq<Mark>, now: seq<Mark>, lines: seq<Line>, line: Line)
    requires FromLines(before, was, lines) && IsTold(before, after, was, now, line, |lines|)
    requires Adds(lines + [line]) <==> |after| != |before|
    ensures FromLines(after, now, lines + [line])
  {
    assert (lines + [line])[..|lines|] == lines;
    if |after| != |before| {
      StillFromLines(before, after[..|before|], was, lines);
    }
  }

  class Parser {
    var script: Script
    var first: nat
    var keepalive: nat
    var responses: seq<ResponseNode>
    var blocks: seq<Block>
    ghost var marks: seq<Mark>
    /** How many lines have been read. */
    ghost var read: nat

    ghost predicate Valid()
      reads this
    {
      && IsGrown(script, first, keepalive, marks, blocks, |script|)
      && (keepalive == NO_INDEX || (keepalive < |script| && script[keepalive].Step?))
      && ResponsesFit(blocks, responses)
    }

    /** What has been read, as far as it decides what may follow. */
    function Outlined(): Outline
      reads this
    {
      Outline(|script|, keepalive, responses, blocks)
    }

    function Current(): Block
      requires blocks != []
      reads this
    {
      blocks[|blocks| - 1]
    }

    constructor ()
      ensures Valid() && script == [] && marks == [] && read == 0 && first == NO_INDEX && Outlined() == EMPTY
    {
      script, first, keepalive, responses := [], NO_INDEX, NO_INDEX, [];
      blocks := [ROOT];
      marks, read := [], 0;
    }

    method CloseBlock() returns (ok: bool)
      requires Valid() && |blocks| > 1
      modifies `blocks
      ensures Valid()
      ensures ok <==> old(CanClose(Current(), responses))
      ensures blocks == if ok then old(blocks[..|blocks| - 1]) else old(blocks)
    {
      var block := Current();
      if block.awaiting {
        return false;
      }
      if block.kind.RosterBlock? && !responses[block.index].hasSuccess {
        return false;
      }
      blocks := blocks[..|blocks| - 1];
      return true;
    }

    method OpenBlock(kind: Kind, index: nat, line: Line) returns (ok: bool)
      requires Valid() && Nests(Current(), Block(kind, index, line.indent, 0, true, NO_INDEX))
      requires kind.LoopBlock? ==> index + 1 == |script| && IsLoose(script[index]) && script[index].For?
      requires !kind.LoopBlock? ==> index < |responses|
      modifies `blocks
      ensures Valid()
      ensures ok <==> old(Opening(Outlined(), kind, index, line.indent)).Some?
      ensures ok ==> Outlined() == old(Opening(Outlined(), kind, index, line.indent)).value
    {
      if |blocks| == BLOCK_DEPTH_MAX {
        return false;
      }
      BlockOpens(script, first, keepalive, marks, blocks, responses, Block(kind, index, line.indent, 0, true, NO_INDEX));
      blocks := blocks + [Block(kind, index, line.indent, 0, true, NO_INDEX)];
      return true;
    }

    /** Closes the blocks the line is no longer in; the line then stands in the innermost open block. */
    method PlaceLine(line: Line) returns (ok: bool)
      requires Valid()
      modifies `blocks
      ensures Valid()
      ensures ok <==> Placing(old(blocks), responses, line.indent).Some?
      ensures ok ==> blocks == Placing(old(blocks), responses, line.indent).value
      ensures ok ==> !Current().awaiting && Current().indent == line.indent
    {
      while |blocks| > 1 && !Current().awaiting && line.indent < Current().indent
        invariant Valid() && Placing(blocks, responses, line.indent) == Placing(old(blocks), responses, line.indent)
        decreases |blocks|
      {
        var closed := CloseBlock();
        if !closed {
          return false;
        }
      }
      if Current().awaiting {
        ok := StartBlock(line);
      } else {
        ok := line.indent == Current().indent;
      }
    }

    /** The first line of a block sets its indentation. */
    method StartBlock(line: Line) returns (ok: bool)
      requires Valid() && Current().awaiting
      modifies `blocks
      ensures Valid()
      ensures ok <==> line.indent > old(Current().headerIndent)
      ensures ok ==> blocks == old(blocks[|blocks| - 1 := Current().(indent := line.indent, awaiting := false)])
    {
      var block := Current();
      if line.indent <= block.headerIndent {
        return false;
      }
      BlockStarts(script, first, keepalive, marks, blocks, responses, line.indent);
      blocks := blocks[|blocks| - 1 := block.(indent := line.indent, awaiting := false)];
      return true;
    }

    method AddStatement(s: Statement, ghost m: Mark) returns (index: nat)
      requires IsGrown(script, first, keepalive, marks, blocks, |script|) && IsLoose(s) && m.level < BINDINGS_MAX
      modifies `script, `marks
      ensures index == if old(|script|) == STATEMENTS_MAX then NO_INDEX else old(|script|)
      ensures script == (if index == NO_INDEX then old(script) else old(script) + [s])
      ensures marks == (if index == NO_INDEX then old(marks) else old(marks) + [m])
      ensures index != NO_INDEX ==> IsGrown(script, first, keepalive, marks, blocks, |script| - 1)
    {
      if |script| == STATEMENTS_MAX {
        return NO_INDEX;
      }
      GrownByAdding(script, first, keepalive, marks, blocks, s, m);
      index := |script|;
      script := script + [s];
      marks := marks + [m];
    }

    /** Links the last statement as the last one of the innermost block. */
    method LinkStatement(index: nat)
      requires CanLink(script, first, keepalive, marks, blocks) && index == |script| - 1
      modifies `script, `first, `blocks
      ensures IsGrown(script, first, keepalive, marks, blocks, |script|)
      ensures blocks == WithChild(old(blocks), index)
      ensures AllAlike(old(script), script) && script[index] == old(script[index])
    {
      var block := Current();
      LinkGrows(script, first, keepalive, marks, blocks);
      if block.lastChild != NO_INDEX {
        script := script[block.lastChild := script[block.lastChild].(next := index)];
      } else if block.kind.RootBlock? {
        first := index;
      } else {
        script := script[block.index := script[block.index].(child := index)];
      }
      blocks := blocks[|blocks| - 1 := block.(lastChild := index)];
    }

    ghost predicate Told(line: Line, before: Script, was: seq<Mark>, at: nat)
      reads this
    {
      IsTold(before, script, was, marks, line, at) && read == at
    }

    /** The line stands in the innermost block. */
    ghost predicate Placed(line: Line)
      reads this
    {
      Valid() && !Current().awaiting && Current().indent == line.indent
    }

    /** A statement added and linked as the last one of the innermost block. */
    method GrowBy(s: Statement, ghost m: Mark) returns (index: nat)
      requires IsGrown(script, first, keepalive, marks, blocks, |script|) && IsLoose(s)
      requires HoldsStatements(Current()) && !Current().awaiting
      requires m.level == |blocks| - 1 && m.indent == Current().indent && keepalive != |script|
      modifies `script, `first, `blocks, `marks
      ensures index != NO_INDEX <==> old(|script|) < STATEMENTS_MAX
      ensures index != NO_INDEX ==>
        && IsGrown(script, first, keepalive, marks, blocks, |script|) && blocks == WithChild(old(blocks), index)
        && index + 1 == |script| && script[index] == s
        && AllAlike(old(script) + [s], script) && marks == old(marks) + [m]
    {
      index := AddStatement(s, m);
      if index != NO_INDEX {
        LinkStatement(index);
      }
    }

    /** A statement that stands on the line. */
    method ParseStatement(line: Line, s: Statement) returns (index: nat)
      requires Placed(line) && HoldsStatements(Current()) && Tells(line, s) && IsLoose(s)
      modifies this
      ensures index != NO_INDEX <==> old(|script|) < STATEMENTS_MAX
      ensures index != NO_INDEX ==> Valid() && Told(line, old(script), old(marks), old(read))
      ensures index != NO_INDEX ==> index + 1 == |script| && script[index] == s
      ensures index != NO_INDEX ==> old(OneMore(Outlined())).Some? && Outlined() == old(OneMore(Outlined())).value
    {
      ghost var m := Mark(|blocks| - 1, line.indent, read);
      index := GrowBy(s, m);
      if index == NO_INDEX {
        return;
      }
    }

    method ParseFor(line: Line) returns (ok: bool)
      requires Placed(line) && HoldsStatements(Current()) && line.content.For?
      modifies this
      ensures ok <==> old(Take(Outlined(), line)).Some?
      ensures ok ==> Outlined() == old(Take(Outlined(), line)).value
      ensures ok ==> Valid() && Told(line, old(script), old(marks), old(read))
    {
      if line.content.loop.None? {
        return false;
      }
      var header := line.content.loop.value;
      var index := ParseStatement(line, Statement.For(line.number, header.variable, header.over, NO_INDEX, NO_INDEX));
      if index == NO_INDEX {
        return false;
      }
      ok := OpenBlock(LoopBlock, index, line);
    }

    /** The keepalive is added but not linked: it is no step of the script. */
    method KeepAlive(s: Statement, ghost m: Mark) returns (index: nat)
      requires IsGrown(script, first, NO_INDEX, marks, blocks, |script|) && keepalive == NO_INDEX
      requires IsLoose(s) && m.level == 0
      modifies `script, `marks, `keepalive
      ensures index != NO_INDEX <==> old(|script|) < STATEMENTS_MAX
      ensures index != NO_INDEX ==>
        && IsGrown(script, first, keepalive, marks, blocks, |script|)
        && keepalive == old(|script|) && script == old(script) + [s] && marks == old(marks) + [m]
    {
      index := AddStatement(s, m);
      if index != NO_INDEX {
        GrownByKeepalive(script, first, marks, blocks);
        keepalive := index;
      }
    }

    method ParseKeepalive(line: Line) returns (ok: bool)
      requires Placed(line) && Current().kind.RootBlock? && line.content.Keepalive?
      modifies this
      ensures ok <==> old(Take(Outlined(), line)).Some?
      ensures ok ==> Outlined() == old(Take(Outlined(), line)).value
      ensures ok ==> Valid() && Told(line, old(script), old(marks), old(read))
    {
      if keepalive != NO_INDEX {
        return false;
      }
      ghost var m := Mark(0, line.indent, read);
      var s := Statement.Step(line.number, NO_INDEX);
      var index := KeepAlive(s, m);
      if index == NO_INDEX {
        return false;
      }
      return true;
    }

    method ParseResponse(line: Line) returns (ok: bool)
      requires Placed(line) && Current().kind.RootBlock? && line.content.Response?
      modifies this
      ensures ok <==> old(Take(Outlined(), line)).Some?
      ensures ok ==> Outlined() == old(Take(Outlined(), line)).value
      ensures ok ==> Valid() && Told(line, old(script), old(marks), old(read))
    {
      if |responses| == RESPONSES_MAX {
        return false;
      }
      responses := responses + [ResponseNode(false, false)];
      ok := OpenBlock(ResponseBlock, |responses| - 1, line);
    }

    /** Records something of the response the innermost block belongs to. */
    method Record(node: ResponseNode)
      requires Valid() && !HoldsStatements(Current())
      modifies `responses
      ensures Valid() && responses == old(responses)[Current().index := node]
    {
      responses := responses[Current().index := node];
    }

    method ParseRosterHeader(line: Line) returns (ok: bool)
      requires Placed(line) && Current().kind.ResponseBlock? && line.content.For?
      modifies this
      ensures ok <==> old(Take(Outlined(), line)).Some?
      ensures ok ==> Outlined() == old(Take(Outlined(), line)).value
      ensures ok ==> Valid() && Told(line, old(script), old(marks), old(read))
    {
      var index := Current().index;
      var node := responses[index];
      if node.hasRoster || node.hasSuccess || !line.content.roster {
        return false;
      }
      Record(node.(hasRoster := true));
      ok := OpenBlock(RosterBlock, index, line);
    }

    method ParseResponseLine(line: Line) returns (ok: bool)
      requires Placed(line) && Current().kind.ResponseBlock?
      modifies this
      ensures ok <==> old(Take(Outlined(), line)).Some?
      ensures ok ==> Outlined() == old(Take(Outlined(), line)).value
      ensures ok ==> Valid() && Told(line, old(script), old(marks), old(read))
    {
      var node := responses[Current().index];
      if line.content.For? {
        ok := ParseRosterHeader(line);
        return;
      }
      if line.content.Success? && !node.hasRoster {
        Record(node.(hasSuccess := true));
      } else if !line.content.ResponseSetting? {
        return false;
      }
      ok := true;
    }

    method ParseRosterLine(line: Line) returns (ok: bool)
      requires Placed(line) && Current().kind.RosterBlock?
      modifies this
      ensures ok <==> old(Take(Outlined(), line)).Some?
      ensures ok ==> Outlined() == old(Take(Outlined(), line)).value
      ensures ok ==> Valid() && Told(line, old(script), old(marks), old(read))
    {
      var index := Current().index;
      if !line.content.Success? || responses[index].hasSuccess {
        return false;
      }
      Record(responses[index].(hasSuccess := true));
      ok := true;
    }

    method ParseRootOrForLine(line: Line) returns (ok: bool)
      requires Placed(line) && HoldsStatements(Current())
      modifies this
      ensures ok <==> old(Take(Outlined(), line)).Some?
      ensures ok ==> Outlined() == old(Take(Outlined(), line)).value
      ensures ok ==> Valid() && Told(line, old(script), old(marks), old(read))
    {
      if line.content.Step? {
        var index := ParseStatement(line, Statement.Step(line.number, NO_INDEX));
        return index != NO_INDEX;
      }
      if line.content.For? {
        ok := ParseFor(line);
        return;
      }
      if !Current().kind.RootBlock? {
        return false;
      }
      if line.content.Keepalive? {
        ok := ParseKeepalive(line);
      } else if line.content.Response? {
        ok := ParseResponse(line);
      } else if line.content.RootSetting? {
          ok := true;
      } else {
        ok := false;
      }
    }

    method ParseLine(line: Line) returns (ok: bool)
      requires Placed(line)
      modifies this
      ensures ok <==> old(Take(Outlined(), line)).Some?
      ensures ok ==> Outlined() == old(Take(Outlined(), line)).value
      ensures ok ==> Valid() && Told(line, old(script), old(marks), old(read))
    {
      match Current().kind {
        case ResponseBlock =>
          ok := ParseResponseLine(line);
        case RosterBlock =>
          ok := ParseRosterLine(line);
        case _ =>
          ok := ParseRootOrForLine(line);
      }
    }
  }

  /** A parsed script: its statements, where they begin, and the keepalive. */
  datatype Parsed = Parsed(script: Script, first: nat, keepalive: nat)

  /**
    What an accepted text has become. Every statement is that of its own line, in line
    order, and every step line has its statement; the links form a forest that
    lists all statements but the keepalive in that order; siblings are equally indented,
    and what a loop holds stands further in, within the generator's limit of loops.
   */
  ghost predicate IsParseOf(p: Parsed, marks: seq<Mark>, lines: seq<Line>) {
    && IsTree(p.script) && |marks| == |p.script| && IsNode(p.script, p.first)
    && FromLines(p.script, marks, lines)
    && Preorder(p.script, p.first) == Linked(|p.script|, p.keepalive)
    && Arranged(p.script, marks, |p.script|)
    && Leveled(p.script, Levels(marks), |p.script|) && AtLevel(Levels(marks), p.first, 0)
  }

  lemma GrownIsParsed(p: Parsed, marks: seq<Mark>, blocks: seq<Block>, lines: seq<Line>)
    requires IsGrown(p.script, p.first, p.keepalive, marks, blocks, |p.script|) && FromLines(p.script, marks, lines)
    ensures IsParseOf(p, marks, lines)
  {
    ArrangedIsLeveled(p.script, marks, |p.script|);
  }

  method ReadInto(parser: Parser, line: Line) returns (ok: bool)
    requires parser.Valid()
    modifies parser
    ensures ok <==> ReadLine(old(parser.Outlined()), line).Some?
    ensures ok ==> parser.Valid() && parser.read == old(parser.read) + 1
    ensures ok ==> IsTold(old(parser.script), parser.script, old(parser.marks), parser.marks, line, old(parser.read))
    ensures ok ==> parser.Outlined() == ReadLine(old(parser.Outlined()), line).value
  {
    ok := parser.PlaceLine(line);
    if ok {
      ok := parser.ParseLine(line);
      parser.read := parser.read + 1;
    }
  }

  method CloseAll(parser: Parser) returns (ok: bool)
    requires parser.Valid()
    modifies parser`blocks
    ensures ok <==> AllClose(old(parser.blocks), parser.responses)
    ensures parser.Valid()
  {
    while |parser.blocks| > 1
      invariant parser.Valid()
      invariant AllClose(parser.blocks, parser.responses) <==> AllClose(old(parser.blocks), parser.responses)
      decreases |parser.blocks|
    {
      var closed := parser.CloseBlock();
      if !closed {
        return false;
      }
    }
    return true;
  }

  /** The first `k` lines have been read. */
  ghost predicate HasRead(parser: Parser, lines: seq<Line>, k: nat)
    requires k <= |lines|
    reads parser
  {
    && parser.Valid() && parser.read == k && ReadAll(lines[..k]) == Some(parser.Outlined())
    && FromLines(parser.script, parser.marks, lines[..k])
  }

  method ReadNext(parser: Parser, lines: seq<Line>, k: nat) returns (ok: bool)
    requires k < |lines| && HasRead(parser, lines, k)
    modifies parser
    ensures if ok then HasRead(parser, lines, k + 1) else !IsAccepted(lines)
  {
    ghost var before, was := parser.script, parser.marks;
    ok := ReadInto(parser, lines[k]);
    assert lines[..k + 1] == lines[..k] + [lines[k]] && lines[..k + 1][..k] == lines[..k];
    if ok {
      OneMoreLine(before, parser.script, was, parser.marks, lines[..k], lines[k]);
    } else {
      NoWayBack(lines, k + 1);
    }
  }

  /** A text is parsed exactly if it is accepted, line by line and at its end. */
  method Parse(lines: seq<Line>) returns (parsed: Option<Parsed>, ghost marks: seq<Mark>)
    ensures parsed.Some? <==> IsAccepted(lines)
    ensures parsed.Some? ==> IsParseOf(parsed.value, marks, lines)
  {
    marks := [];
    var parser := new Parser();
    for k := 0 to |lines|
      invariant fresh(parser) && HasRead(parser, lines, k)
    {
      var ok := ReadNext(parser, lines, k);
      if !ok {
        return None, marks;
      }
    }
    assert lines[..|lines|] == lines;
    var closed := CloseAll(parser);
    if !closed {
      return None, marks;
    }
    marks := parser.marks;
    GrownIsParsed(Parsed(parser.script, parser.first, parser.keepalive), marks, parser.blocks, lines);
    parsed := Some(Parsed(parser.script, parser.first, parser.keepalive));
  }
}
