/** Whole runs of the transaction runner: any sequence of calls from power-up. */
module RunnerRuns {
  import opened Frames
  import opened StepCodec
  import opened AgentRules
  import opened TransactionRunner
  import I = IsotpLink

  datatype Call =
    | BeginCall(channel: u8, idleTimeoutMs: u32, keepalive: Keepalive, interfaceIndex: u8, now: nat)
    | RosterCall(txnId: u16, roster: Roster)
    | TemplateCall(txnId: u16, template: Template)
    | StepsCall(txnId: u16, firstSeq: u32, end: bool, records: seq<u8>, count: u8)
    | FrameCall(interfaceIndex: u8, frame: Frame, ok: bool)
    | TickCall(now: nat, answers: seq<Answers>)
    | AbortCall(txnId: u16)
    | CancelCall

  function Apply(s: Runner, c: Call): (r: Result)
    requires RunnerOk(s)
    ensures RunnerOk(r.next)
  {
    match c
    case BeginCall(channel, idle, keepalive, interfaceIndex, now) =>
      Result(Begin(s, channel, idle, keepalive, interfaceIndex, now), [], false)
    case RosterCall(txnId, roster) => DefineRosterCall(s, txnId, roster)
    case TemplateCall(txnId, template) => DefineTemplateCall(s, txnId, template)
    case StepsCall(txnId, firstSeq, end, records, count) => PushSteps(s, txnId, firstSeq, end, records, count)
    case FrameCall(interfaceIndex, frame, ok) => OnFrame(s, interfaceIndex, frame, ok)
    case TickCall(now, answers) => Tick(s, now, answers)
    case AbortCall(txnId) => Abort(s, txnId)
    case CancelCall => Result(Cancel(s), [], false)
  }

  function Caller(): (Runner, Call) -> Result {
    (s: Runner, c: Call) => if RunnerOk(s) then Apply(s, c) else Result(s, [], false)
  }

  /** Calls one after the other; `apply` makes one call. */
  function Play(apply: (Runner, Call) -> Result, s: Runner, calls: seq<Call>): Result
    decreases |calls|
  {
    if calls == [] then Result(s, [], false)
    else
      var first := apply(s, calls[0]);
      After(first.outputs, Play(apply, first.next, calls[1..]))
  }

  function Run(s: Runner, calls: seq<Call>): (r: Result)
    requires RunnerOk(s)
    ensures RunnerOk(r.next)
  {
    PlayKeeps(Caller(), RunnerOk, _ => true, s, calls);
    Play(Caller(), s, calls)
  }

  /** What every call keeps, every run keeps. */
  lemma {:induction false} PlayKeeps(
    apply: (Runner, Call) -> Result, kept: Runner -> bool, allowed: Call -> bool, s: Runner, calls: seq<Call>)
    requires kept(s) && (forall c | c in calls :: allowed(c))
    requires forall x, c | kept(x) && allowed(c) :: kept(apply(x, c).next)
    ensures kept(Play(apply, s, calls).next)
    decreases |calls|
  {
    if calls != [] {
      PlayKeeps(apply, kept, allowed, apply(s, calls[0]).next, calls[1..]);
    }
  }

  /** A runner with a ring of `capacity` bytes, before its first transaction. */
  function PowerUp(capacity: u32): (s: Runner)
    requires RECORD_SIZE_MAX <= capacity
    ensures RunnerOk(s)
  {
    var none := Session(0, 0, 0, STARVATION_TIMEOUT_US, Keepalive(0, 0, 0, []));
    Runner(capacity - RECORD_SIZE_MAX, false, none, NO_DEFINITIONS, Ledger([], 0, false, 0, 0, 0),
           0, 0, 0, 0, 0, 0, NOTHING, I.Closed(), [], [])
  }

  /** The wrapping counters account for the ring, and the step in execution is its front record. */
  predicate Balanced(s: Runner) {
    && (s.ledger.pushed - s.ledger.consumed) % WORD == Bytes(s.ledger.queue)
    && s.ledger.nextSeq == (s.ledger.completed + Counted(s.ledger.queue)) % WORD
    && (forall q | q in s.ledger.queue :: AcceptsRecord(s.defs, q))
    && (s.current.phase != Idle ==> s.ledger.queue != [] && s.ledger.queue[0] == s.current.step)
  }

  lemma RunningBalances(s: Runner)
    requires Running(s)
    ensures Balanced(s)
  {
    WrapDifference(s.ledger.consumed, s.ledger.consumed, Bytes(s.ledger.queue));
  }

  lemma LedgerBalances(capacity: u32, calls: seq<Call>)
    requires RECORD_SIZE_MAX <= capacity
    ensures var s := Run(PowerUp(capacity), calls).next; s.active ==> Balanced(s)
  {
    var s := Run(PowerUp(capacity), calls).next;
    if s.active {
      RunningBalances(s);
    }
  }

  predicate StartsAnother(s: Runner, c: Call) {
    c.BeginCall? && BeginAck(s, c.channel, c.keepalive).status == BeginOk
  }

  /** The calls stay within the transaction of state `s`: none of them starts another. */
  predicate Within(apply: (Runner, Call) -> Result, s: Runner, calls: seq<Call>)
    decreases |calls|
  {
    calls == [] || (!StartsAnother(s, calls[0]) && Within(apply, apply(s, calls[0]).next, calls[1..]))
  }

  /** Ended without a word. */
  predicate Silent(s: Runner, r: Result) {
    !r.next.active && Plain(s.session, r.outputs)
  }

  /** What one call within a transaction does. */
  predicate CallIsLawful(s: Runner, c: Call, r: Result) {
    && RunnerOk(r.next)
    && if !s.active then
         r.outputs == [] && !r.next.active && r.next.ledger == s.ledger.(queue := r.next.ledger.queue)
       else r.next.session == s.session && if c.CancelCall? then Silent(s, r) else OutputsOk(s.session, r)
  }

  ghost predicate IsLawful(apply: (Runner, Call) -> Result) {
    forall s, c | RunnerOk(s) && !StartsAnother(s, c) :: CallIsLawful(s, c, apply(s, c))
  }

  lemma CallerIsLawful()
    ensures IsLawful(Caller())
  {
    forall s, c | RunnerOk(s) && !StartsAnother(s, c) ensures CallIsLawful(s, c, Caller()(s, c)) {
      OneCall(s, c);
    }
  }

  lemma OneCall(s: Runner, c: Call)
    requires RunnerOk(s) && !StartsAnother(s, c)
    ensures CallIsLawful(s, c, Apply(s, c))
  {
  }

  lemma {:induction false} QuietAfterwards(apply: (Runner, Call) -> Result, s: Runner, calls: seq<Call>)
    requires IsLawful(apply) && RunnerOk(s) && !s.active && Within(apply, s, calls)
    ensures var r := Play(apply, s, calls);
      r.outputs == [] && !r.next.active && r.next.ledger == s.ledger.(queue := r.next.ledger.queue)
    decreases |calls|
  {
    if calls != [] {
      QuietAfterwards(apply, apply(s, calls[0]).next, calls[1..]);
    }
  }

  lemma {:induction false} StatusAtTheEnd(apply: (Runner, Call) -> Result, s: Runner, calls: seq<Call>)
    requires IsLawful(apply) && Running(s) && Within(apply, s, calls)
    ensures var r := Play(apply, s, calls);
      OutputsOk(s.session, r) || (CancelCall in calls && Silent(s, r))
    decreases |calls|
  {
    if calls != [] {
      var first := apply(s, calls[0]);
      if first.next.active {
        StatusAtTheEnd(apply, first.next, calls[1..]);
        var rest := Play(apply, first.next, calls[1..]);
        if OutputsOk(s.session, rest) {
          AfterPlain(s.session, first.outputs, rest);
        }
      } else {
        QuietAfterwards(apply, first.next, calls[1..]);
        assert Play(apply, s, calls).outputs == first.outputs;
      }
    }
  }

  /** Once over, a transaction transmits and reports nothing more. */
  lemma NothingAfterTheEnd(s: Runner, calls: seq<Call>)
    requires RunnerOk(s) && !s.active && Within(Caller(), s, calls)
    ensures Run(s, calls).outputs == [] && !Run(s, calls).next.active
  {
    CallerIsLawful();
    QuietAfterwards(Caller(), s, calls);
  }

  /**
    Whatever the calls, a transaction gives at most one status: the last thing
    it says, said exactly when it ends. Only Cancel ends it silently. A status
    of DONE means all steps were received, consumed and completed.
   */
  lemma OneStatusAtTheEnd(s: Runner, calls: seq<Call>)
    requires Running(s) && Within(Caller(), s, calls)
    ensures var r := Run(s, calls);
      OutputsOk(s.session, r) || (CancelCall in calls && Silent(s, r))
  {
    CallerIsLawful();
    StatusAtTheEnd(Caller(), s, calls);
  }
}
