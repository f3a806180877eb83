/**
  The runner's object under any sequence of calls (src/agent/domain/transaction_runner.c,
  src/agent/agent.c): what the theorems about runs promise, promised by its methods.
 */
module AgentMachine {
  import opened Frames
  import opened StepCodec
  import opened AgentRules
  import opened TransactionRunner
  import opened RunnerRuns
  import opened RunnerTimers
  import opened RunnerEngine
  import Spec = TransactionRunner

  /** The calls made so far led from `start` to the state `s`, and said what is in `log`. */
  predicate Lived(start: Runner, calls: seq<Call>, s: Runner, log: seq<Output>) {
    && KeepsTime(start) && (forall c | c in calls :: IsTimed(c))
    && Run(start, calls).next == s && Run(start, calls).outputs == log
  }

  /** Until `quiet`, ticks have nothing to do; 0 when that is not known. */
  predicate Resting(s: Runner, quiet: nat) {
    quiet > 0 ==> Running(s) && TimesOk(s) && Rests(s) && ReportWaits(s) && quiet == NextWakeUs(s)
  }

  lemma {:induction false} PlayOneMore(apply: (Runner, Call) -> Result, s: Runner, calls: seq<Call>, c: Call)
    ensures var r, last := Play(apply, s, calls), apply(Play(apply, s, calls).next, c);
      && Play(apply, s, calls + [c]).next == last.next
      && Play(apply, s, calls + [c]).outputs == r.outputs + last.outputs
    decreases |calls|
  {
    if calls == [] {
      assert calls + [c] == [c] && [c][1..] == [];
      assert apply(s, c).outputs + [] == [] + apply(s, c).outputs;
    } else {
      var first := apply(s, calls[0]);
      assert (calls + [c])[1..] == calls[1..] + [c];
      PlayOneMore(apply, first.next, calls[1..], c);
      var rest := Play(apply, first.next, calls[1..]);
      assert first.outputs + (rest.outputs + apply(rest.next, c).outputs) == first.outputs + rest.outputs + apply(rest.next, c).outputs;
    }
  }

  lemma LivesOn(start: Runner, calls: seq<Call>, s: Runner, log: seq<Output>, c: Call)
    requires Lived(start, calls, s, log) && IsTimed(c)
    ensures KeepsTime(s) && Lived(start, calls + [c], Apply(s, c).next, log + Apply(s, c).outputs)
  {
    RunTimes(start, calls);
    PlayOneMore(Caller(), start, calls, c);
  }

  /** What every state the agent comes to promises. */
  predicate Promises(s: Runner) {
    RunnerOk(s) && (s.active ==> Balanced(s))
  }

  lemma LivedPromises(start: Runner, calls: seq<Call>, s: Runner, log: seq<Output>)
    requires Lived(start, calls, s, log)
    ensures Promises(s) && KeepsTime(s)
  {
    RunTimes(start, calls);
    if s.active {
      RunningBalances(s);
    }
  }

  /** A tick before the quiet time changes nothing but its own time, and says nothing. */
  lemma QuietTick(s: Runner, quiet: nat, now: nat, answers: seq<Answers>)
    requires Resting(s, quiet) && now < quiet
    ensures Tick(s, now, answers) == Result(s.(lastTickUs := now), [], false)
  {
    QuietBeforeWake(s, now, answers);
  }

  /** When a tick stops on its own, its wake time is when the next one has something to do. */
  ghost function QuietAfter(s: Runner, r: Result): nat {
    if s.active && r.next.active && !r.again then NextWakeUs(r.next) else 0
  }

  lemma RestsAfter(s: Runner, now: nat, answers: seq<Answers>)
    requires KeepsTime(s) && now > 0
    ensures var r := Tick(s, now, answers);
      Resting(r.next, QuietAfter(s, r)) && (s.active && r.next.active && !r.again ==> QuietAfter(s, r) > 0)
  {
    TickRests(s, now, answers);
    var r := Tick(s, now, answers);
    if s.active && r.next.active && !r.again {
      WakePositive(r.next);
    }
  }

  lemma TickAtRest(
    s: Runner, quiet: nat, now: nat, answers: seq<Answers>, n: Runner, log: seq<Output>, more: seq<Output>) returns (next: nat)
    requires KeepsTime(s) && now > 0 && Resting(s, quiet)
    requires n == Tick(s, now, answers).next && more == log + Tick(s, now, answers).outputs
    ensures Resting(n, next) && (s.active && n.active && !Tick(s, now, answers).again ==> next > 0)
    ensures now < quiet ==> n == s.(lastTickUs := now) && more == log
  {
    RestsAfter(s, now, answers);
    if now < quiet {
      QuietTick(s, quiet, now, answers);
    }
    next := QuietAfter(s, Tick(s, now, answers));
  }

  /**
    What a call adds to the log: nothing while no transaction is active; else only what belongs to
    the transaction, a status exactly when the call ends it, and that last.
   */
  predicate SaysWell(s: Runner, n: Runner, log: seq<Output>, more: seq<Output>) {
    log <= more && if s.active then OutputsOk(s.session, Result(n, more[|log|..], false)) else more == log
  }

  lemma CallSaysWell(s: Runner, c: Call, log: seq<Output>)
    requires RunnerOk(s) && !c.CancelCall? && !c.BeginCall?
    ensures SaysWell(s, Apply(s, c).next, log, log + Apply(s, c).outputs)
  {
    OneCall(s, c);
    var more := log + Apply(s, c).outputs;
    assert more[|log|..] == Apply(s, c).outputs;
  }

  class Agent {
    const runner: RunnerMachine
    ghost const capacity: u32
    ghost var calls: seq<Call>
    ghost var quiet: nat

    ghost predicate Valid()
      reads this, runner, runner.queue, runner.queue.ring, runner.queue.ring.storage
      reads runner.link, runner.link.machine, runner.link.machine.message
    {
      && RECORD_SIZE_MAX <= capacity && runner.Valid()
      && Lived(PowerUp(capacity), calls, runner.State(), runner.log)
      && Resting(runner.State(), quiet)
    }

    constructor (capacity: u32)
      requires RECORD_SIZE_MAX <= capacity
      ensures Valid() && calls == [] && quiet == 0 && runner.log == []
    {
      this.capacity := capacity;
      runner := new RunnerMachine(capacity);
      calls, quiet := [], 0;
    }

    /** A call has been made: it joins the history, and nothing is known of when the next tick has work. */
    ghost method Remember(s: Runner, log: seq<Output>, c: Call)
      requires RECORD_SIZE_MAX <= capacity && runner.Valid() && IsTimed(c)
      requires Lived(PowerUp(capacity), calls, s, log)
      requires RunnerOk(s) && runner.State() == Apply(s, c).next && runner.log == log + Apply(s, c).outputs
      modifies this
      ensures Valid() && Promises(runner.State()) && calls == old(calls) + [c] && quiet == 0
      ensures !c.CancelCall? && !c.BeginCall? ==> SaysWell(s, runner.State(), log, runner.log)
    {
      LivesOn(PowerUp(capacity), calls, s, log, c);
      calls, quiet := calls + [c], 0;
      LivedPromises(PowerUp(capacity), calls, runner.State(), runner.log);
      if !c.CancelCall? && !c.BeginCall? {
        CallSaysWell(s, c, log);
      }
    }

    method TickRunner(now: nat) returns (ghost answers: seq<Answers>)
      requires Valid() && now > 0
      modifies this, runner, runner.queue, runner.queue.ring
      modifies runner.link, runner.link.machine, runner.link.machine.message, runner.link.bus
      ensures Valid() && Promises(runner.State()) && quiet == 0 && KeepsTime(old(runner.State()))
      ensures SaysWell(old(runner.State()), runner.State(), old(runner.log), runner.log)
      ensures runner.State() == Spec.Tick(old(runner.State()), now, answers).next
      ensures runner.log == old(runner.log) + Spec.Tick(old(runner.State()), now, answers).outputs
    {
      ghost var s := runner.State();
      LivedPromises(PowerUp(capacity), calls, s, runner.log);
      answers := runner.Tick(now);
      Remember(s, old(runner.log), TickCall(now, answers));
    }

    /**
      A tick that stops on its own, not on its budget of passes, leaves a wake time; a tick
      before that does nothing at all.
     */
    method Tick(now: nat) returns (ghost answers: seq<Answers>)
      requires Valid() && now > 0
      modifies this, runner, runner.queue, runner.queue.ring
      modifies runner.link, runner.link.machine, runner.link.machine.message, runner.link.bus
      ensures Valid() && Promises(runner.State())
      ensures SaysWell(old(runner.State()), runner.State(), old(runner.log), runner.log)
      ensures now < old(quiet) ==>
        runner.log == old(runner.log) && runner.State() == old(runner.State()).(lastTickUs := now)
      ensures RunnerOk(old(runner.State()))
      ensures old(runner.f.active) && runner.f.active && !Spec.Tick(old(runner.State()), now, answers).again ==>
        quiet > 0 && quiet == NextWakeUs(runner.State())
    {
      ghost var s, quietUntil := runner.State(), quiet;
      answers := TickRunner(now);
      quiet := TickAtRest(s, quietUntil, now, answers, runner.State(), old(runner.log), runner.log);
    }

    /** When to tick next; between a tick that stopped on its own and the next call it is the end of the quiet. */
    method NextWake() returns (wake: nat)
      requires Valid()
      ensures quiet > 0 ==> wake == quiet
      ensures !runner.f.active ==> wake == 0
    {
      wake := runner.NextWake();
    }

    method OnFrame(interfaceIndex: u8, frame: Frame)
      requires Valid()
      modifies this, runner, runner.queue, runner.queue.ring
      modifies runner.link, runner.link.machine, runner.link.machine.message, runner.link.bus
      ensures Valid() && Promises(runner.State())
      ensures SaysWell(old(runner.State()), runner.State(), old(runner.log), runner.log)
    {
      ghost var s := runner.State();
      LivedPromises(PowerUp(capacity), calls, s, runner.log);
      ghost var ok := runner.OnFrame(interfaceIndex, frame);
      Remember(s, old(runner.log), FrameCall(interfaceIndex, frame, ok));
    }

    method PushSteps(txnId: u16, firstSeq: u32, end: bool, records: seq<u8>, count: u8)
      requires Valid()
      modifies this, runner, runner.queue, runner.queue.ring, runner.queue.ring.storage
      ensures Valid() && Promises(runner.State())
      ensures SaysWell(old(runner.State()), runner.State(), old(runner.log), runner.log)
    {
      ghost var s := runner.State();
      LivedPromises(PowerUp(capacity), calls, s, runner.log);
      runner.PushSteps(txnId, firstSeq, end, records, count);
      Remember(s, old(runner.log), StepsCall(txnId, firstSeq, end, records, count));
    }

    method DefineRoster(txnId: u16, roster: Roster)
      requires Valid()
      modifies this, runner, runner.queue, runner.queue.ring
      ensures Valid() && Promises(runner.State())
      ensures SaysWell(old(runner.State()), runner.State(), old(runner.log), runner.log)
    {
      ghost var s := runner.State();
      LivedPromises(PowerUp(capacity), calls, s, runner.log);
      runner.DefineRoster(txnId, roster);
      Remember(s, old(runner.log), RosterCall(txnId, roster));
    }

    method DefineTemplate(txnId: u16, t: Template)
      requires Valid()
      modifies this, runner, runner.queue, runner.queue.ring
      ensures Valid() && Promises(runner.State())
      ensures SaysWell(old(runner.State()), runner.State(), old(runner.log), runner.log)
    {
      ghost var s := runner.State();
      LivedPromises(PowerUp(capacity), calls, s, runner.log);
      runner.DefineTemplate(txnId, t);
      Remember(s, old(runner.log), TemplateCall(txnId, t));
    }

    method Abort(txnId: u16)
      requires Valid()
      modifies this, runner, runner.queue, runner.queue.ring
      ensures Valid() && Promises(runner.State())
      ensures SaysWell(old(runner.State()), runner.State(), old(runner.log), runner.log)
    {
      ghost var s := runner.State();
      LivedPromises(PowerUp(capacity), calls, s, runner.log);
      runner.Abort(txnId);
      Remember(s, old(runner.log), AbortCall(txnId));
    }

    /** The only call that ends a transaction without a word. */
    method Cancel()
      requires Valid()
      modifies this, runner, runner.queue, runner.queue.ring
      ensures Valid() && Promises(runner.State())
      ensures !runner.f.active && runner.log == old(runner.log)
    {
      ghost var s := runner.State();
      LivedPromises(PowerUp(capacity), calls, s, runner.log);
      runner.Cancel();
      Remember(s, old(runner.log), CancelCall);
    }

    method Begin(channel: u8, idleTimeoutMs: u32, k: Keepalive, interfaceIndex: u8, now: nat) returns (ack: Ack)
      requires Valid() && now > 0
      modifies this, runner, runner.queue, runner.queue.ring
      ensures Valid() && Promises(runner.State())
      ensures (ack.status == BeginOk <==> !old(runner.f.active) && IsBeginValid(k)) && runner.log == old(runner.log)
    {
      ghost var s := runner.State();
      LivedPromises(PowerUp(capacity), calls, s, runner.log);
      ack := runner.Begin(channel, idleTimeoutMs, k, interfaceIndex, now);
      Remember(s, old(runner.log), BeginCall(channel, idleTimeoutMs, k, interfaceIndex, now));
    }
  }
}
