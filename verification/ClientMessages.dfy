/**
  The ISO-TP messages of a whole transaction: the data of the steps given to the
  builder (src/client/transaction_builder.c), cut into records, batched, relayed and
  gathered again (src/agent/domain/transaction_runner.c), reaches the agent's link in
  the order it was given, byte for byte.
 */
module ClientMessages {
  import opened Frames
  import opened StepCodec
  import opened AgentRules
  import opened TransactionRunner
  import opened Credit
  import opened ClientRuns
  import opened MessageFlow
  import B = TransactionBuilder

  function RecordsIn(items: seq<Item>): seq<TxnStep>
    decreases |items|
  {
    if items == [] then []
    else (if items[0].RecordItem? then [items[0].step] else []) + RecordsIn(items[1..])
  }

  lemma {:induction false} RecordsInBoth(some: seq<Item>, more: seq<Item>)
    ensures RecordsIn(some + more) == RecordsIn(some) + RecordsIn(more)
    decreases |some|
  {
    if some == [] {
      assert some + more == more;
    } else {
      assert (some + more)[1..] == some[1..] + more && (some + more)[0] == some[0];
      RecordsInBoth(some[1..], more);
      var first := if some[0].RecordItem? then [some[0].step] else [];
      assert first + (RecordsIn(some[1..]) + RecordsIn(more)) == first + RecordsIn(some[1..]) + RecordsIn(more);
    }
  }

  lemma {:induction false} RecordsInRecords(steps: seq<TxnStep>)
    ensures RecordsIn(RecordItems(steps)) == steps
    decreases |steps|
  {
    if steps != [] {
      assert RecordItems(steps)[1..] == RecordItems(steps[1..]);
      RecordsInRecords(steps[1..]);
    }
  }

  /** All messages still to be sent, those in the ring, on their way and not gone out yet, in order. */
  function Coming(s: Runner, items: seq<Item>): Flow {
    Then(RingFlow(s), FlowOf(RingFlow(s).open, RecordsIn(items)))
  }

  // ---------- what a step brings ----------

  lemma {:induction false} MessageRecordsFlow(s: B.Step, id: u8, rest: seq<u8>, open: seq<u8>)
    requires B.StepOk(s) && s.isotp.Some? && rest != []
    ensures FlowOf(open, B.MessageRecords(s, id, rest)) == Flow([open + rest], [])
    decreases |rest|
  {
    var records := B.MessageRecords(s, id, rest);
    if |rest| <= B.MESSAGE_RECORD_BYTES {
      assert records[1..] == [];
    } else {
      var piece, after := rest[..B.MESSAGE_RECORD_BYTES], rest[B.MESSAGE_RECORD_BYTES..];
      MessageRecordsFlow(s, id, after, open + piece);
      assert records[1..] == B.MessageRecords(s, id, after);
      assert open + piece + after == open + rest by {
        assert piece + after == rest;
      }
    }
  }

  /** The data of an ISO-TP step is one message; any other step brings none. */
  function DataOf(s: B.Step): seq<seq<u8>> {
    if s.isotp.Some? && s.data.Some? then [s.data.value] else []
  }

  lemma RecordsFlow(s: B.Step, bitrateSwitch: bool, id: u8)
    requires B.StepOk(s)
    ensures FlowOf([], B.BuildRecords(s, bitrateSwitch, id)) == Flow(DataOf(s), [])
  {
    if s.isotp.Some? && s.data.Some? {
      MessageRecordsFlow(s, id, s.data.value, []);
      assert [] + s.data.value == s.data.value;
    } else {
      var record := B.FrameRecord(s, bitrateSwitch, id);
      assert [record][1..] == [];
    }
  }

  lemma {:induction false} NoRecords(items: seq<Item>)
    requires forall x | x in items :: !x.RecordItem?
    ensures RecordsIn(items) == []
    decreases |items|
  {
    if items != [] {
      NoRecords(items[1..]);
    }
  }

  lemma RecordsOfBuild(build: B.Build)
    ensures RecordsIn(BuildItems(build)) == build.records
  {
    var rosters := if build.roster.Some? then [RosterItem(build.roster.value)] else [];
    var templates := if build.template.Some? then [TemplateItem(build.template.value)] else [];
    RecordsInBoth(rosters + templates, RecordItems(build.records));
    NoRecords(rosters + templates);
    RecordsInRecords(build.records);
  }

  lemma BuildFlow(b: B.Builder, s: B.Step)
    requires B.BuilderOk(b) && B.BuildStep(b, s).Built?
    ensures FlowOf([], B.BuildStep(b, s).build.records) == Flow(DataOf(s), [])
  {
    RecordsFlow(s, b.bitrateSwitch, B.PlaceTemplate(b, B.BuildTemplate(s)).index);
  }

  // ---------- a run and what was given ----------

  /** A client with the messages it was given so far, the data of the ISO-TP steps it built. */
  datatype Story = Story(client: Client, given: seq<seq<u8>>)

  function GivenBy(c: Client, m: Move): seq<seq<u8>>
    requires B.BuilderOk(c.builder)
  {
    if m.Build? && c.todo == [] && B.BuildStep(c.builder, m.step).Built? then DataOf(m.step) else []
  }

  function NextStory(t: Story, m: Move): Story
    requires ClientOk(t.client)
  {
    Story(NextOf(t.client, m), t.given + GivenBy(t.client, m))
  }

  /** What is still to be sent is the last of what was given. */
  predicate InOrder(s: Runner, items: seq<Item>, given: seq<seq<u8>>) {
    s.active ==> Coming(s, items).open == [] && IsSuffix(Coming(s, items).messages, given)
  }

  function ItemsOf(c: Client): seq<Item> {
    Outstanding(c.world) + c.todo
  }

  predicate StoryOk(t: Story) {
    ClientOk(t.client) && InOrder(t.client.world.runner, ItemsOf(t.client), t.given)
  }

  /** What a step brings comes after all else. */
  lemma BuiltComes(s: Runner, items: seq<Item>, b: B.Builder, step: B.Step)
    requires B.BuilderOk(b) && B.BuildStep(b, step).Built? && Coming(s, items).open == []
    ensures Coming(s, items + BuildItems(B.BuildStep(b, step).build)) == Flow(Coming(s, items).messages + DataOf(step), [])
  {
    var build := B.BuildStep(b, step).build;
    RecordsInBoth(items, BuildItems(build));
    RecordsOfBuild(build);
    FlowBoth(RingFlow(s).open, RecordsIn(items), build.records);
    BuildFlow(b, step);
  }

  lemma BuiltAppends(c: Client, step: B.Step)
    requires B.BuilderOk(c.builder) && c.todo == [] && B.BuildStep(c.builder, step).Built?
    ensures ItemsOf(Built(c, step)) == ItemsOf(c) + BuildItems(B.BuildStep(c.builder, step).build)
    ensures Built(c, step).world == c.world
  {
    assert Outstanding(c.world) + [] == Outstanding(c.world);
  }

  lemma BuiltInOrder(s: Runner, items: seq<Item>, b: B.Builder, step: B.Step, given: seq<seq<u8>>)
    requires B.BuilderOk(b) && B.BuildStep(b, step).Built? && InOrder(s, items, given)
    ensures InOrder(s, items + BuildItems(B.BuildStep(b, step).build), given + DataOf(step))
  {
    if s.active {
      BuiltComes(s, items, b, step);
      SuffixGrows(Coming(s, items).messages, given, DataOf(step));
    }
  }

  lemma BuildInOrder(c: Client, step: B.Step, given: seq<seq<u8>>)
    requires B.BuilderOk(c.builder) && InOrder(c.world.runner, ItemsOf(c), given)
    ensures InOrder(Built(c, step).world.runner, ItemsOf(Built(c, step)), given + GivenBy(c, Build(step)))
  {
    if c.todo == [] && B.BuildStep(c.builder, step).Built? {
      BuiltAppends(c, step);
      BuiltInOrder(c.world.runner, ItemsOf(c), c.builder, step, given);
    } else {
      assert given + [] == given;
    }
  }

  lemma AdvanceLeavesAgent(c: Client)
    ensures Advanced(c).world.runner == c.world.runner
  {
  }

  lemma AdvanceInOrder(c: Client, given: seq<seq<u8>>)
    requires InOrder(c.world.runner, ItemsOf(c), given)
    ensures InOrder(Advanced(c).world.runner, ItemsOf(Advanced(c)), given)
  {
    AdvanceMovesNothing(c);
    AdvanceLeavesAgent(c);
  }

  // ---------- what reaches the agent, and what it does ----------

  lemma DefinitionFlows(s: Runner, m: Msg)
    requires Running(s) && !m.StepsMsg?
    ensures Unchanged(s, Receive(s, m))
  {
  }

  /** The records of a batch move from the pipe into the ring. */
  lemma BatchInOrder(s: Runner, b: Batch, r: Result, items: seq<Item>)
    requires Running(s) && Landed(s, b, r) && r.next.active
    ensures Coming(r.next, items) == Coming(s, RecordItems(b.steps) + items)
  {
    var f := RingFlow(s);
    RingFlowGrows(s, r.next, b.steps);
    RecordsInBoth(RecordItems(b.steps), items);
    RecordsInRecords(b.steps);
    FlowBoth(f.open, b.steps, RecordsIn(items));
    ThenInOrder(f, FlowOf(f.open, b.steps), FlowOf(FlowOf(f.open, b.steps).open, RecordsIn(items)));
  }

  lemma ThenInOrder(a: Flow, b: Flow, c: Flow)
    ensures Then(Then(a, b), c) == Then(a, Then(b, c))
  {
  }

  lemma DefinitionInOrder(s: Runner, m: Msg, items: seq<Item>)
    requires Running(s) && !m.StepsMsg? && Receive(s, m).next.active
    ensures Coming(Receive(s, m).next, items) == Coming(s, MsgItems(m) + items)
  {
    DefinitionFlows(s, m);
    RecordsInBoth(MsgItems(m), items);
    NoRecords(MsgItems(m));
    assert RecordsIn(MsgItems(m) + items) == RecordsIn(items);
  }

  lemma DeliveryInOrder(c: Client)
    requires ClientOk(c) && c.world.runner.active && CanDeliver(c.world)
    requires AgentResult(c.world, Deliver).next.active
    ensures Coming(AgentResult(c.world, Deliver).next, Outstanding(c.world.(pipe := c.world.pipe[1..])) + c.todo)
         == Coming(c.world.runner, ItemsOf(c))
  {
    var w, m := c.world, c.world.pipe[0];
    var items := Outstanding(w.(pipe := w.pipe[1..])) + c.todo;
    FirstInPipe(w, c.todo);
    DeliveryIsSound(w);
    if m.StepsMsg? {
      BatchInOrder(w.runner, m.batch, AgentResult(w, Deliver), items);
    } else {
      DefinitionInOrder(w.runner, m, items);
    }
  }

  lemma FlowsInOrder(s: Runner, r: Result, items: seq<Item>, given: seq<seq<u8>>)
    requires InOrder(s, items, given) && s.active && Flows(s, r)
    ensures InOrder(r.next, items, given)
  {
    if r.next.active {
      var more := FlowOf(RingFlow(s).open, RecordsIn(items)).messages;
      SuffixGrows(RingFlow(r.next).messages, RingFlow(s).messages, more);
      SuffixOfSuffix(Coming(r.next, items).messages, Coming(s, items).messages, given);
    }
  }

  lemma AgentFlows(w: World, a: Action)
    requires Running(w.runner) && PipeOk(w) && IsAgentAction(a)
    ensures Flows(w.runner, AgentResult(w, a))
  {
    if a.AgentTick? {
      TickFlows(w.runner, a.now, a.answers);
    } else if a.AgentFrame? {
      OnFrameFlows(w.runner, a.interfaceIndex, a.frame, a.ok);
    }
    AgentActs(Flows, w, a);
  }

  lemma OtherInOrder(c: Client, a: Action, given: seq<seq<u8>>)
    requires ClientOk(c) && InOrder(c.world.runner, ItemsOf(c), given) && !a.Offer? && !a.Define?
    ensures InOrder(AgentResult(c.world, a).next, Outstanding(Next(c.world, a)) + c.todo, given)
  {
    var w := c.world;
    RunnerAfter(w, a);
    if AgentResult(w, a).next.active {
      if a.Deliver? && CanDeliver(w) {
        DeliveryInOrder(c);
        assert Outstanding(Next(w, a)) == Outstanding(w.(pipe := w.pipe[1..]));
      } else if a.Deliver? {
        assert Next(w, a) == w;
      } else {
        OthersMoveNothing(w, a);
        if IsAgentAction(a) {
          AgentFlows(w, a);
          FlowsInOrder(w.runner, AgentResult(w, a), ItemsOf(c), given);
        }
      }
    }
  }

  lemma StoryGoesOn(t: Story, m: Move)
    requires StoryOk(t)
    ensures StoryOk(NextStory(t, m))
  {
    MoveKeeps(t.client, m);
    assert t.given + [] == t.given;
    match m
    case Build(step) => BuildInOrder(t.client, step, t.given);
    case Advance => AdvanceInOrder(t.client, t.given);
    case Other(a) =>
      if !a.Offer? && !a.Define? {
        OtherInOrder(t.client, a, t.given);
        RunnerAfter(t.client.world, a);
      }
  }

  // ---------- every run ----------

  function Teller(): (Story, Move) -> Story {
    (t: Story, m: Move) => if ClientOk(t.client) then NextStory(t, m) else t
  }

  function Tell(next: (Story, Move) -> Story, t: Story, moves: seq<Move>): Story
    decreases |moves|
  {
    if moves == [] then t else Tell(next, next(t, moves[0]), moves[1..])
  }

  lemma {:induction false} TellKeeps(next: (Story, Move) -> Story, kept: Story -> bool, t: Story, moves: seq<Move>)
    requires kept(t) && forall x, m | kept(x) :: kept(next(x, m))
    ensures kept(Tell(next, t, moves))
    decreases |moves|
  {
    if moves != [] {
      TellKeeps(next, kept, next(t, moves[0]), moves[1..]);
    }
  }

  /** The story's client is that of the run. */
  lemma {:induction false} TellsTheRun(
    next: (Story, Move) -> Story, move: (Client, Move) -> Client, t: Story, moves: seq<Move>)
    requires forall x, m :: next(x, m).client == move(x.client, m)
    ensures Tell(next, t, moves).client == PlayAll(move, t.client, moves)
    decreases |moves|
  {
    if moves != [] {
      TellsTheRun(next, move, next(t, moves[0]), moves[1..]);
    }
  }

  lemma StoryIsOfRun(t: Story, moves: seq<Move>)
    ensures Tell(Teller(), t, moves).client == PlayAll(Player(), t.client, moves)
  {
    TellsTheRun(Teller(), Player(), t, moves);
  }

  lemma StoryBegins(w: World, bitrateSwitch: bool)
    requires Inv(w) && w.pipe == [] && w.sender.batch.None?
    requires w.runner.defs == NO_DEFINITIONS && w.runner.ledger.queue == []
    requires w.runner.message == [] && w.runner.current.phase == Idle
    ensures StoryOk(Story(Client(w, NEW_BUILDER.(bitrateSwitch := bitrateSwitch), []), []))
  {
    StartIsOk(w, bitrateSwitch);
  }

  lemma FirstIsTransmitted(t: Story, at: nat)
    requires StoryOk(t)
    ensures var n, coming := t.client.world.runner, Coming(t.client.world.runner, ItemsOf(t.client)).messages;
      n.active && n.current.phase == Transmit && IsIsotpStep(n) ==>
        && Running(n) && coming != [] && n.message == t.given[|t.given| - |coming|]
        && (!n.current.messageStarted ==> StartedMessage(n, at).link.sender.message == n.message)
  {
    var n := t.client.world.runner;
    if n.active && n.current.phase == Transmit && IsIsotpStep(n) {
      TransmittedIsFirst(n);
      assert Coming(n, ItemsOf(t.client)).messages[0] == n.message;
    }
  }

  lemma StoriesStayOk(t: Story, moves: seq<Move>)
    requires StoryOk(t)
    ensures StoryOk(Tell(Teller(), t, moves))
  {
    forall x, m | StoryOk(x) ensures StoryOk(Teller()(x, m)) {
      StoryGoesOn(x, m);
    }
    TellKeeps(Teller(), StoryOk, t, moves);
  }

  lemma StoryOfRun(
    s: Runner, agentChannel: u8, clientChannel: u8, idleTimeoutMs: u32, k: Keepalive, interfaceIndex: u8, now: nat,
    bitrateSwitch: bool, moves: seq<Move>)
    requires RunnerOk(s) && BeginAck(s, agentChannel, k).status == BeginOk
    ensures var start := Started(s, agentChannel, clientChannel, idleTimeoutMs, k, interfaceIndex, now);
      var client := Client(start, NEW_BUILDER.(bitrateSwitch := bitrateSwitch), []);
      var t := Tell(Teller(), Story(client, []), moves);
      StoryOk(t) && t.client == PlayAll(Player(), client, moves)
  {
    var start := Started(s, agentChannel, clientChannel, idleTimeoutMs, k, interfaceIndex, now);
    StartedOk(s, agentChannel, clientChannel, idleTimeoutMs, k, interfaceIndex, now);
    StoryBegins(start, bitrateSwitch);
    var client := Client(start, NEW_BUILDER.(bitrateSwitch := bitrateSwitch), []);
    StoriesStayOk(Story(client, []), moves);
    StoryIsOfRun(Story(client, []), moves);
  }

  /**
    Over any run in which what goes out is what the builder gave, in order: the messages
    still to be sent are the last of those given, and the one an ISO-TP step hands to its
    link is the first of them, byte for byte. So every message is sent in its turn, as given.
   */
  lemma MessagesSentAsGiven(
    s: Runner, agentChannel: u8, clientChannel: u8, idleTimeoutMs: u32, k: Keepalive, interfaceIndex: u8, now: nat,
    bitrateSwitch: bool, moves: seq<Move>, at: nat)
    requires RunnerOk(s) && BeginAck(s, agentChannel, k).status == BeginOk
    ensures var start := Started(s, agentChannel, clientChannel, idleTimeoutMs, k, interfaceIndex, now);
      var client := Client(start, NEW_BUILDER.(bitrateSwitch := bitrateSwitch), []);
      var t := Tell(Teller(), Story(client, []), moves);
      && t.client == PlayAll(Player(), client, moves)
      && var n, coming := t.client.world.runner, Coming(t.client.world.runner, ItemsOf(t.client)).messages;
        n.active ==>
          && IsSuffix(coming, t.given)
          && (n.current.phase == Transmit && IsIsotpStep(n) ==>
               && Running(n) && coming != [] && n.message == t.given[|t.given| - |coming|]
               && (!n.current.messageStarted ==> StartedMessage(n, at).link.sender.message == n.message))
  {
    StoryOfRun(s, agentChannel, clientChannel, idleTimeoutMs, k, interfaceIndex, now, bitrateSwitch, moves);
    var start := Started(s, agentChannel, clientChannel, idleTimeoutMs, k, interfaceIndex, now);
    var client := Client(start, NEW_BUILDER.(bitrateSwitch := bitrateSwitch), []);
    FirstIsTransmitted(Tell(Teller(), Story(client, []), moves), at);
  }
}
