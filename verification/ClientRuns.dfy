/**
  A whole transaction, from the steps a client gives to the builder to what the
  agent makes of them: the builder's definitions and records go out in order
  (src/client/transaction_builder.c, src/client/client.c) over the credit
  protocol, and the agent never refuses any of it as an invalid step.
 */
module ClientRuns {
  import opened Frames
  import opened StepCodec
  import opened AgentRules
  import opened TransactionRunner
  import opened RunnerMessages
  import opened Credit
  import B = TransactionBuilder
  import BS = BuilderSound
  import I = IsotpLink
  import S = TransactionSender

  /** What goes out for a step, one thing at a time. */
  datatype Item = RosterItem(roster: Roster) | TemplateItem(template: Template) | RecordItem(step: TxnStep)

  function RecordItems(steps: seq<TxnStep>): seq<Item> {
    seq(|steps|, i requires 0 <= i < |steps| => RecordItem(steps[i]))
  }

  function MsgItems(m: Msg): seq<Item> {
    match m
    case StepsMsg(b) => RecordItems(b.steps)
    case RosterMsg(_, roster) => [RosterItem(roster)]
    case TemplateMsg(_, template) => [TemplateItem(template)]
  }

  function PipeItems(pipe: seq<Msg>): seq<Item> {
    if pipe == [] then [] else MsgItems(pipe[0]) + PipeItems(pipe[1..])
  }

  function Batched(s: S.Sender): seq<TxnStep> {
    if s.batch.Some? then s.batch.value.steps else []
  }

  /** On their way to the agent, in order: what is in the pipe, then the open batch. */
  function Outstanding(w: World): seq<Item> {
    PipeItems(w.pipe) + RecordItems(Batched(w.sender))
  }

  function BuildItems(build: B.Build): seq<Item> {
    (if build.roster.Some? then [RosterItem(build.roster.value)] else [])
    + (if build.template.Some? then [TemplateItem(build.template.value)] else [])
    + RecordItems(build.records)
  }

  // ---------- what the agent makes of it ----------

  /** The agent's definitions and the length of the message being gathered. */
  datatype View = View(defs: Definitions, open: nat)

  /** None if the agent aborts with INVALID_STEP, now or when it comes to the record. */
  function TakeItem(v: View, item: Item): Option<View> {
    match item
    case RosterItem(r) => if AcceptsRoster(v.defs, r) then Some(v.(defs := DefineRoster(v.defs, r))) else None
    case TemplateItem(t) => if IsTemplateValid(v.defs, t) then Some(v.(defs := DefineTemplate(v.defs, t))) else None
    case RecordItem(s) =>
      var after := OpenAfter(v.open, [s]);
      if AcceptsRecord(v.defs, s) && after.Some? then Some(v.(open := after.value)) else None
  }

  function TakeItems(v: View, items: seq<Item>): Option<View>
    decreases |items|
  {
    if items == [] then Some(v)
    else
      match TakeItem(v, items[0])
      case None => None
      case Some(next) => TakeItems(next, items[1..])
  }

  lemma {:induction false} TakeBoth(v: View, some: seq<Item>, more: seq<Item>)
    ensures TakeItems(v, some + more) ==
      match TakeItems(v, some) case None => None case Some(between) => TakeItems(between, more)
    decreases |some|
  {
    if some == [] {
      assert some + more == more;
    } else {
      assert (some + more)[1..] == some[1..] + more;
      if TakeItem(v, some[0]).Some? {
        TakeBoth(TakeItem(v, some[0]).value, some[1..], more);
      }
    }
  }

  lemma {:induction false} TakeRecords(v: View, steps: seq<TxnStep>)
    ensures TakeItems(v, RecordItems(steps)) ==
      if (forall s | s in steps :: AcceptsRecord(v.defs, s)) && OpenAfter(v.open, steps).Some?
      then Some(v.(open := OpenAfter(v.open, steps).value)) else None
    decreases |steps|
  {
    if steps != [] {
      assert RecordItems(steps)[1..] == RecordItems(steps[1..]);
      OpenAfterBoth(v.open, [steps[0]], steps[1..]);
      assert [steps[0]] + steps[1..] == steps;
      var first := TakeItem(v, RecordItem(steps[0]));
      if first.Some? {
        TakeRecords(first.value, steps[1..]);
      }
    }
  }

  // ---------- what a step sends ----------

  lemma {:induction false} MessageRecordsFit(s: B.Step, id: u8, rest: seq<u8>, open: nat)
    requires B.StepOk(s) && s.isotp.Some? && rest != [] && open + |rest| <= I.MESSAGE_SIZE_MAX
    ensures var records := B.MessageRecords(s, id, rest);
      AreMessage(records, open) && PayloadsOf(records) == rest && OpenAfter(open, records) == Some(0)
    decreases |rest|
  {
    if |rest| > B.MESSAGE_RECORD_BYTES {
      var piece, after := rest[..B.MESSAGE_RECORD_BYTES], rest[B.MESSAGE_RECORD_BYTES..];
      var records := B.MessageRecords(s, id, rest);
      MessageRecordsFit(s, id, after, open + |piece|);
      assert records[1..] == B.MessageRecords(s, id, after);
      assert piece + after == rest;
    } else {
      var records := B.MessageRecords(s, id, rest);
      assert records[1..] == [];
      assert PayloadsOf(records) == rest + [];
    }
  }

  lemma RecordsFit(s: B.Step, bitrateSwitch: bool, id: u8)
    requires B.StepOk(s)
    ensures OpenAfter(0, B.BuildRecords(s, bitrateSwitch, id)) == Some(0)
  {
    if s.isotp.Some? && s.data.Some? {
      MessageRecordsFit(s, id, s.data.value, 0);
    } else {
      var record := B.FrameRecord(s, bitrateSwitch, id);
      assert [record][1..] == [];
    }
  }

  /** All that a step the builder accepts sends is taken, and leaves no message open. */
  lemma BuildTaken(b: B.Builder, d: Definitions, s: B.Step)
    requires BS.Synced(b, d) && B.BuildStep(b, s).Built?
    ensures var o := B.BuildStep(b, s);
      && TakeItems(View(d, 0), BuildItems(o.build)).Some?
      && TakeItems(View(d, 0), BuildItems(o.build)).value.open == 0
      && BS.Synced(o.builder, TakeItems(View(d, 0), BuildItems(o.build)).value.defs)
  {
    var o := B.BuildStep(b, s);
    BS.StepNeverRefused(b, d, s);
    DefinitionsTaken(d, o.build);
    var named := BS.TakeDefinitions(d, o.build).value;
    var p := B.PlaceTemplate(b, B.BuildTemplate(s));
    RecordsFit(s, b.bitrateSwitch, p.index);
    TakeRecords(View(named, 0), o.build.records);
  }

  lemma DefinitionsTaken(d: Definitions, build: B.Build)
    requires BS.TakeDefinitions(d, build).Some?
    ensures TakeItems(View(d, 0), BuildItems(build))
         == TakeItems(View(BS.TakeDefinitions(d, build).value, 0), RecordItems(build.records))
  {
    var rosters := if build.roster.Some? then [RosterItem(build.roster.value)] else [];
    var templates := if build.template.Some? then [TemplateItem(build.template.value)] else [];
    TakeBoth(View(d, 0), rosters + templates, RecordItems(build.records));
    TakeBoth(View(d, 0), rosters, templates);
  }

  // ---------- the client ----------

  /** The world with the builder, and what of the last built step has not gone out yet. */
  datatype Client = Client(world: World, builder: B.Builder, todo: seq<Item>)

  datatype Move = Build(step: B.Step) | Advance | Other(action: Action)

  predicate CanMove(c: Client) {
    RunnerOk(c.world.runner) && PipeOk(c.world)
  }

  /** A definition goes out once the open batch has left; a record when the sender accepts it. */
  function Advanced(c: Client): Client {
    if c.todo == [] then c
    else
      var w, rest := c.world, c.todo[1..];
      match c.todo[0]
      case RosterItem(r) =>
        if w.sender.batch.Some? then c else c.(world := Defined(w, RosterMsg(w.sender.txnId, r)), todo := rest)
      case TemplateItem(t) =>
        if w.sender.batch.Some? then c else c.(world := Defined(w, TemplateMsg(w.sender.txnId, t)), todo := rest)
      case RecordItem(s) =>
        c.(world := Offered(w, s), todo := if S.OfferResult(w.sender, s) == S.Accepted then rest else c.todo)
  }

  function Built(c: Client, step: B.Step): Client
    requires B.BuilderOk(c.builder)
  {
    if c.todo != [] then c
    else
      match B.BuildStep(c.builder, step)
      case Refused => c
      case Built(builder, build) => c.(builder := builder, todo := BuildItems(build))
  }

  function NextOf(c: Client, m: Move): Client
    requires CanMove(c) && B.BuilderOk(c.builder)
  {
    match m
    case Build(step) => Built(c, step)
    case Advance => Advanced(c)
    case Other(a) => if a.Offer? || a.Define? then c else c.(world := Next(c.world, a))
  }

  // ---------- the invariant ----------

  predicate OwnMessages(w: World) {
    forall m | m in w.pipe :: !m.StepsMsg? ==> m.txnId == w.runner.session.txnId
  }

  /** How the agent stands before what is outstanding. */
  function ViewOf(s: Runner): View
    requires OpenAfterRing(s).Some?
  {
    View(s.defs, OpenAfterRing(s).value)
  }

  /** The agent will take all that is outstanding and all that is still to go out; then it holds what the builder has sent. */
  predicate Taken(s: Runner, items: seq<Item>, builder: B.Builder) {
    && OpenAfterRing(s).Some?
    && var end := TakeItems(ViewOf(s), items);
      end.Some? && end.value.open == 0 && BS.Synced(builder, end.value.defs)
  }

  predicate ClientOk(c: Client) {
    && Inv(c.world) && B.BuilderOk(c.builder)
    && (c.world.runner.active ==>
         OwnMessages(c.world) && Taken(c.world.runner, Outstanding(c.world) + c.todo, c.builder))
  }

  // ---------- what goes out stays in order ----------

  lemma {:induction false} PipeItemsGrow(pipe: seq<Msg>, m: Msg)
    ensures PipeItems(pipe + [m]) == PipeItems(pipe) + MsgItems(m)
    decreases |pipe|
  {
    if pipe == [] {
      assert pipe + [m] == [m] && [m][1..] == [];
      assert PipeItems([m]) == MsgItems(m) + [];
    } else {
      assert (pipe + [m])[1..] == pipe[1..] + [m];
      PipeItemsGrow(pipe[1..], m);
      assert MsgItems(pipe[0]) + (PipeItems(pipe[1..]) + MsgItems(m)) == MsgItems(pipe[0]) + PipeItems(pipe[1..]) + MsgItems(m);
    }
  }

  lemma FlushMovesNothing(w: World)
    ensures Outstanding(Credit.Flushed(w)) == Outstanding(w)
  {
    if w.sender.batch.Some? {
      PipeItemsGrow(w.pipe, StepsMsg(w.sender.batch.value));
      assert RecordItems([]) == [];
    }
  }

  lemma EndMovesNothing(w: World)
    ensures Outstanding(Ended(w)) == Outstanding(w)
  {
  }

  lemma DefineMovesNothing(w: World, m: Msg)
    requires !m.StepsMsg? && w.sender.batch.None?
    ensures Outstanding(Defined(w, m)) == Outstanding(w) + MsgItems(m)
  {
    PipeItemsGrow(w.pipe, m);
    assert RecordItems([]) == [];
  }

  lemma Handed(out: seq<Item>, item: Item, rest: seq<Item>)
    ensures (out + [item]) + rest == out + ([item] + rest)
  {
  }

  lemma AdvanceMovesNothing(c: Client)
    ensures Outstanding(Advanced(c).world) + Advanced(c).todo == Outstanding(c.world) + c.todo
  {
    if c.todo != [] {
      var w, item, rest := c.world, c.todo[0], c.todo[1..];
      assert c.todo == [item] + rest;
      Handed(Outstanding(w), item, rest);
      match item
      case RosterItem(r) =>
        if w.sender.batch.None? {
          DefineMovesNothing(w, RosterMsg(w.sender.txnId, r));
        }
      case TemplateItem(t) =>
        if w.sender.batch.None? {
          DefineMovesNothing(w, TemplateMsg(w.sender.txnId, t));
        }
      case RecordItem(s) =>
        OfferMovesNothing(w, s);
        assert Outstanding(w) + [] == Outstanding(w);
    }
  }

  lemma OfferMovesNothing(w: World, s: TxnStep)
    ensures Outstanding(Offered(w, s)) ==
      Outstanding(w) + if S.OfferResult(w.sender, s) == S.Accepted then [RecordItem(s)] else []
  {
    assert RecordItems(Batched(w.sender) + [s]) == RecordItems(Batched(w.sender)) + [RecordItem(s)];
  }

  // ---------- every move keeps the invariant ----------

  lemma AdvanceKeeps(c: Client)
    requires ClientOk(c)
    ensures ClientOk(Advanced(c))
  {
    AdvanceMovesNothing(c);
    if c.todo != [] {
      match c.todo[0]
      case RosterItem(r) => DefineKeeps(c.world, RosterMsg(c.world.sender.txnId, r));
      case TemplateItem(t) => DefineKeeps(c.world, TemplateMsg(c.world.sender.txnId, t));
      case RecordItem(s) => OfferKeeps(c.world, s);
    }
  }

  lemma BuildKeeps(c: Client, step: B.Step)
    requires ClientOk(c)
    ensures ClientOk(Built(c, step))
  {
    if c.todo == [] && B.BuildStep(c.builder, step).Built? && c.world.runner.active {
      var o := B.BuildStep(c.builder, step);
      var v := ViewOf(c.world.runner);
      assert Outstanding(c.world) + [] == Outstanding(c.world);
      var between := TakeItems(v, Outstanding(c.world)).value;
      TakeBoth(v, Outstanding(c.world), BuildItems(o.build));
      BuildTaken(c.builder, between.defs, step);
    }
  }

  /** What the agent does by itself leaves what is outstanding to be taken. */
  lemma ActsKeep(w: World, r: Result, items: seq<Item>, builder: B.Builder)
    requires Taken(w.runner, items, builder) && Gathers(w.runner, r) && Executes(w.runner, r) && r.next.active
    ensures Taken(r.next, items, builder)
  {
  }

  lemma DefinitionTaken(s: Runner, m: Msg, items: seq<Item>, builder: B.Builder)
    requires Running(s) && !m.StepsMsg? && m.txnId == s.session.txnId
    requires Taken(s, MsgItems(m) + items, builder)
    ensures var r := Receive(s, m); r.next.active && NoInvalidStep(r.outputs) && Taken(r.next, items, builder)
  {
    TakeBoth(ViewOf(s), MsgItems(m), items);
  }

  lemma CarriedAccepted(d: Definitions, s: TxnStep)
    ensures AcceptsRecord(d, Carried(s)) == AcceptsRecord(d, s)
  {
  }

  lemma {:induction false} CarriedOpens(open: nat, steps: seq<TxnStep>)
    ensures OpenAfter(open, CarriedAll(steps)) == OpenAfter(open, steps)
    decreases |steps|
  {
    if steps != [] {
      var first := steps[0];
      assert CarriedAll(steps)[1..] == CarriedAll(steps[1..]);
      CarriedOpens(if first.isContinued then open + |first.payload| else 0, steps[1..]);
    }
  }

  lemma RingGrows(s: Runner, n: Runner, steps: seq<TxnStep>)
    requires Running(s) && OpenAfterRing(s).Some?
    requires n == s.(ledger := n.ledger) && n.ledger.queue == s.ledger.queue + CarriedAll(steps)
    ensures OpenAfterRing(n) == OpenAfter(OpenAfterRing(s).value, steps)
  {
    CarriedOpens(OpenAfterRing(s).value, steps);
    if s.current.phase == Idle {
      OpenAfterBoth(|s.message|, s.ledger.queue, CarriedAll(steps));
    } else {
      assert n.ledger.queue[1..] == s.ledger.queue[1..] + CarriedAll(steps);
      OpenAfterBoth(0, s.ledger.queue[1..], CarriedAll(steps));
    }
  }

  lemma BatchTaken(s: Runner, b: Batch, r: Result, items: seq<Item>, builder: B.Builder)
    requires Running(s) && Landed(s, b, r) && Taken(s, RecordItems(b.steps) + items, builder)
    ensures r.next.active && NoInvalidStep(r.outputs) && Taken(r.next, items, builder)
  {
    var v := ViewOf(s);
    TakeBoth(v, RecordItems(b.steps), items);
    TakeRecords(v, b.steps);
    forall step | step in CarriedAll(b.steps) ensures AcceptsRecord(s.defs, step) {
      var i :| 0 <= i < |b.steps| && CarriedAll(b.steps)[i] == step;
      assert b.steps[i] in b.steps;
      CarriedAccepted(s.defs, b.steps[i]);
    }
    RingGrows(s, r.next, b.steps);
  }

  lemma FirstInPipe(w: World, todo: seq<Item>)
    requires w.pipe != []
    ensures Outstanding(w) + todo
         == MsgItems(w.pipe[0]) + (Outstanding(w.(pipe := w.pipe[1..])) + todo)
  {
  }

  /** A message that reaches the agent is taken. */
  lemma DeliveryTaken(c: Client)
    requires ClientOk(c) && c.world.runner.active && CanDeliver(c.world)
    ensures var r, rest := AgentResult(c.world, Deliver), c.world.(pipe := c.world.pipe[1..]);
      r.next.active && NoInvalidStep(r.outputs) && Taken(r.next, Outstanding(rest) + c.todo, c.builder)
  {
    var w, m := c.world, c.world.pipe[0];
    var items := Outstanding(w.(pipe := w.pipe[1..])) + c.todo;
    FirstInPipe(w, c.todo);
    DeliveryIsSound(w);
    if m.StepsMsg? {
      BatchTaken(w.runner, m.batch, AgentResult(w, Deliver), items, c.builder);
    } else {
      DefinitionTaken(w.runner, m, items, c.builder);
    }
  }

  lemma AgentGathers(w: World, a: Action)
    requires CanGather(w.runner) && PipeOk(w) && IsAgentAction(a)
    ensures Gathers(w.runner, AgentResult(w, a))
  {
    if a.AgentTick? {
      TickGathers(w.runner, a.now, a.answers);
    } else if a.AgentFrame? {
      OnFrameGathers(w.runner, a.interfaceIndex, a.frame, a.ok);
    } else {
      AbortGathers(w.runner, a.txnId);
    }
    AgentActs(Gathers, w, a);
  }

  /** The runner a world is left with, and whose messages are in its pipe. */
  lemma RunnerAfter(w: World, a: Action)
    requires Inv(w)
    ensures Next(w, a).runner == AgentResult(w, a).next
    ensures AgentResult(w, a).next.active ==> w.runner.active && AgentResult(w, a).next.session == w.runner.session
  {
    if a.Deliver? && CanDeliver(w) && w.runner.active {
      DeliveryIsSound(w);
    }
  }

  lemma OwnMessagesKept(w: World, a: Action)
    requires Inv(w) && OwnMessages(w) && !a.Define? && AgentResult(w, a).next.active
    ensures OwnMessages(Next(w, a))
  {
    RunnerAfter(w, a);
  }

  /** The client's own part of the other actions moves nothing either. */
  lemma OthersMoveNothing(w: World, a: Action)
    requires Inv(w) && !a.Offer? && !a.Define? && !a.Deliver?
    ensures Outstanding(Next(w, a)) == Outstanding(w)
  {
    match a
    case Flush => FlushMovesNothing(w);
    case EndTransaction => EndMovesNothing(w);
    case AgentTick(_, _) => ActsMoveNothing(w, AgentResult(w, a));
    case AgentFrame(_, _, _) => ActsMoveNothing(w, AgentResult(w, a));
    case AgentAbort(_) => ActsMoveNothing(w, AgentResult(w, a));
    case _ =>
  }

  lemma ActsMoveNothing(w: World, r: Result)
    ensures Outstanding(AgentMoves(w, r)) == Outstanding(w)
  {
  }

  /** Whatever else happens, the agent never refuses anything, and the invariant is kept. */
  lemma OtherKeeps(c: Client, a: Action)
    requires ClientOk(c) && !a.Offer? && !a.Define?
    ensures ClientOk(c.(world := Next(c.world, a)))
    ensures NoInvalidStep(AgentResult(c.world, a).outputs)
  {
    var w := c.world;
    ActionKeeps(w, a);
    RunnerAfter(w, a);
    var r := AgentResult(w, a);
    if w.runner.active {
      if a.Deliver? && CanDeliver(w) {
        DeliveryTaken(c);
      } else if IsAgentAction(a) {
        AgentGathers(w, a);
        ActionIsSound(w, a);
      }
      if r.next.active {
        OwnMessagesKept(w, a);
        TakenAfter(c, a);
      }
    }
  }

  lemma TakenAfter(c: Client, a: Action)
    requires ClientOk(c) && !a.Offer? && !a.Define?
    requires c.world.runner.active && AgentResult(c.world, a).next.active
    ensures Taken(AgentResult(c.world, a).next, Outstanding(Next(c.world, a)) + c.todo, c.builder)
  {
    var w := c.world;
    if a.Deliver? && CanDeliver(w) {
      DeliveryTaken(c);
      assert Outstanding(Next(w, a)) == Outstanding(w.(pipe := w.pipe[1..]));
    } else if a.Deliver? {
      assert Next(w, a) == w;
    } else {
      OthersMoveNothing(w, a);
      if IsAgentAction(a) {
        AgentGathers(w, a);
        ActionIsSound(w, a);
        ActsKeep(w, AgentResult(w, a), Outstanding(w) + c.todo, c.builder);
      }
    }
  }

  // ---------- every run ----------

  function Player(): (Client, Move) -> Client {
    (c: Client, m: Move) => if ClientOk(c) then NextOf(c, m) else c
  }

  function PlayAll(move: (Client, Move) -> Client, c: Client, moves: seq<Move>): Client
    decreases |moves|
  {
    if moves == [] then c else PlayAll(move, move(c, moves[0]), moves[1..])
  }

  lemma {:induction false} PlayAllKeeps(move: (Client, Move) -> Client, kept: Client -> bool, c: Client, moves: seq<Move>)
    requires kept(c) && forall x, m | kept(x) :: kept(move(x, m))
    ensures kept(PlayAll(move, c, moves))
    decreases |moves|
  {
    if moves != [] {
      PlayAllKeeps(move, kept, move(c, moves[0]), moves[1..]);
    }
  }

  lemma MoveKeeps(c: Client, m: Move)
    requires ClientOk(c)
    ensures ClientOk(NextOf(c, m))
  {
    match m
    case Build(step) => BuildKeeps(c, step);
    case Advance => AdvanceKeeps(c);
    case Other(a) =>
      if !a.Offer? && !a.Define? {
        OtherKeeps(c, a);
      }
  }

  const NEW_BUILDER := B.Builder(false, None, [], None)

  lemma StartIsOk(w: World, bitrateSwitch: bool)
    requires Inv(w) && w.pipe == [] && w.sender.batch.None?
    requires w.runner.defs == NO_DEFINITIONS && w.runner.ledger.queue == []
    requires w.runner.message == [] && w.runner.current.phase == Idle
    ensures ClientOk(Client(w, NEW_BUILDER.(bitrateSwitch := bitrateSwitch), []))
  {
  }

  /**
    Over any run in which what goes out is what the builder gave, in order: the agent
    never aborts with INVALID_STEP, neither at a definition, nor at a record, nor when
    it gathers a message.
   */
  lemma BuiltStepsNeverRefused(
    s: Runner, agentChannel: u8, clientChannel: u8, idleTimeoutMs: u32, k: Keepalive, interfaceIndex: u8, now: nat,
    bitrateSwitch: bool, moves: seq<Move>, a: Action)
    requires RunnerOk(s) && BeginAck(s, agentChannel, k).status == BeginOk && !a.Offer? && !a.Define?
    ensures var start := Started(s, agentChannel, clientChannel, idleTimeoutMs, k, interfaceIndex, now);
      var c := PlayAll(Player(), Client(start, NEW_BUILDER.(bitrateSwitch := bitrateSwitch), []), moves);
      ClientOk(c) && NoInvalidStep(AgentResult(c.world, a).outputs)
  {
    var start := Started(s, agentChannel, clientChannel, idleTimeoutMs, k, interfaceIndex, now);
    StartedOk(s, agentChannel, clientChannel, idleTimeoutMs, k, interfaceIndex, now);
    var client := Client(start, NEW_BUILDER.(bitrateSwitch := bitrateSwitch), []);
    StartIsOk(start, bitrateSwitch);
    forall x, m | ClientOk(x) ensures ClientOk(Player()(x, m)) {
      MoveKeeps(x, m);
    }
    PlayAllKeeps(Player(), ClientOk, client, moves);
    OtherKeeps(PlayAll(Player(), client, moves), a);
  }

  /** The records of an ISO-TP step at the front of the ring become its message, byte for byte, one pass a record. */
  lemma MessageSurvives(
    s: Runner, now: nat, answers: seq<Answers>, step: B.Step, bitrateSwitch: bool, id: u8, rest: seq<TxnStep>)
    requires B.StepOk(step) && step.isotp.Some? && step.data.Some?
    requires Running(s) && s.current.phase == Idle && s.message == []
    requires s.ledger.queue == B.BuildRecords(step, bitrateSwitch, id) + rest
    ensures var records := B.BuildRecords(step, bitrateSwitch, id);
      var r := Repeat(Pass(now), s, |records|, answers);
      && r.outputs == [] && Ready(s, step.data.value, records[|records| - 1], rest, r.next)
      && |records| <= B.RECORDS_MAX
  {
    var records := B.BuildRecords(step, bitrateSwitch, id);
    MessageRecordsFit(step, id, step.data.value, 0);
    MessageGathered(s, now, answers, records, rest);
    assert [] + step.data.value == step.data.value;
    BS.RecordCount(step, id, step.data.value);
  }
}
