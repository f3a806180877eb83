/**
  The transactions the hub relays (src/hub/domain/transaction_table.c, the
  transaction handlers of src/hub/broker.c): at most one for each agent, and
  every one begun is counted once when it ends.
 */
module HubRelay {
  import opened Frames

  const NO_CLIENT: u32 := 0

  datatype RelayState = Free | Pending | Active

  datatype Relayed = Relayed(
    state: RelayState, exclusive: bool, txnId: u16, interfaceId: u32, agent: u32, client: u32, clientChannel: u8)

  const UNUSED := Relayed(Free, false, 0, 0, 0, 0, 0)

  predicate InUse(e: Relayed) {
    !e.state.Free?
  }

  predicate IsActive(e: Relayed) {
    e.state.Active?
  }

  predicate HoldsLease(e: Relayed) {
    e.state.Active? && e.exclusive
  }

  predicate IsAgents(e: Relayed, agent: u32) {
    InUse(e) && e.agent == agent
  }

  predicate IsClients(e: Relayed, client: u32) {
    InUse(e) && e.client == client
  }

  /** An abandoned transaction: pending, it has no client; active, it is over. */
  function Abandoned(e: Relayed): Relayed {
    if e.state.Pending? then e.(client := NO_CLIENT) else UNUSED
  }

  /** An entry once a client has left. */
  function Without(e: Relayed, client: u32): Relayed {
    if IsClients(e, client) then Abandoned(e) else e
  }

  // ---------- counting ----------

  function Count(entries: seq<Relayed>, p: Relayed -> bool): nat {
    if entries == [] then 0 else Count(entries[..|entries| - 1], p) + if p(entries[|entries| - 1]) then 1 else 0
  }

  function One(b: bool): nat {
    if b then 1 else 0
  }

  lemma {:induction false} CountUpdated(entries: seq<Relayed>, p: Relayed -> bool, i: nat, e: Relayed)
    requires i < |entries|
    ensures Count(entries[i := e], p) + One(p(entries[i])) == Count(entries, p) + One(p(e))
    decreases |entries|
  {
    var less := entries[..|entries| - 1];
    if i == |entries| - 1 {
      assert entries[i := e][..|entries| - 1] == less;
    } else {
      assert entries[i := e][..|entries| - 1] == less[i := e];
      CountUpdated(less, p, i, e);
    }
  }

  lemma {:induction false} CountNone(entries: seq<Relayed>, p: Relayed -> bool)
    requires forall e | e in entries :: !p(e)
    ensures Count(entries, p) == 0
    decreases |entries|
  {
    if entries != [] {
      CountNone(entries[..|entries| - 1], p);
    }
  }

  predicate OnePerAgent(entries: seq<Relayed>) {
    forall i, j | 0 <= i < j < |entries| && InUse(entries[i]) && InUse(entries[j]) :: entries[i].agent != entries[j].agent
  }

  // ---------- the table ----------

  class TransactionTable {
    const entries: array<Relayed>
    var activeLeases: nat

    ghost predicate Valid()
      reads this, entries
    {
      OnePerAgent(entries[..]) && activeLeases == Count(entries[..], HoldsLease)
    }

    constructor (size: nat)
      ensures Valid() && fresh(entries) && entries.Length == size && forall e | e in entries[..] :: e == UNUSED
    {
      entries := new Relayed[size](_ => UNUSED);
      activeLeases := 0;
      new;
      CountNone(entries[..], HoldsLease);
    }

    /** The agent's transaction, if it has one. */
    method ForAgent(agent: u32) returns (found: Option<nat>)
      ensures found.Some? ==> found.value < entries.Length && IsAgents(entries[found.value], agent)
      ensures found.None? ==> forall i | 0 <= i < entries.Length :: !IsAgents(entries[i], agent)
    {
      for i := 0 to entries.Length
        invariant forall k | 0 <= k < i :: !IsAgents(entries[k], agent)
      {
        if entries[i].state != Free && entries[i].agent == agent {
          return Some(i);
        }
      }
      return None;
    }

    /** The client's next transaction from `from` on. */
    method NextForClient(client: u32, from: nat) returns (found: Option<nat>)
      requires from <= entries.Length
      ensures found.Some? ==> from <= found.value < entries.Length && IsClients(entries[found.value], client)
      ensures forall k | from <= k < (if found.Some? then found.value else entries.Length) :: !IsClients(entries[k], client)
    {
      for i := from to entries.Length
        invariant forall k | from <= k < i :: !IsClients(entries[k], client)
      {
        if entries[i].state != Free && entries[i].client == client {
          return Some(i);
        }
      }
      return None;
    }

    method ForClientChannel(client: u32, channel: u8) returns (found: Option<nat>)
      ensures found.Some? ==>
        && found.value < entries.Length && IsClients(entries[found.value], client)
        && entries[found.value].clientChannel == channel
      ensures found.None? ==>
        forall i | 0 <= i < entries.Length :: IsClients(entries[i], client) ==> entries[i].clientChannel != channel
    {
      var from := 0;
      found := NextForClient(client, from);
      while found.Some?
        invariant from <= entries.Length
        invariant found.Some? ==> from <= found.value < entries.Length && IsClients(entries[found.value], client)
        invariant forall k | from <= k < (if found.Some? then found.value else entries.Length) :: !IsClients(entries[k], client)
        invariant forall k | 0 <= k < from :: IsClients(entries[k], client) ==> entries[k].clientChannel != channel
        decreases entries.Length - from, found.Some?
      {
        if entries[found.value].clientChannel == channel {
          return;
        }
        from := found.value + 1;
        found := NextForClient(client, from);
      }
    }

    /** The one place where an entry changes. */
    method Put(i: nat, e: Relayed)
      requires i < entries.Length
      modifies entries
      ensures entries[..] == old(entries[..])[i := e]
      ensures Count(entries[..], HoldsLease) + One(HoldsLease(old(entries[i])))
           == old(Count(entries[..], HoldsLease)) + One(HoldsLease(e))
    {
      CountUpdated(entries[..], HoldsLease, i, e);
      entries[i] := e;
    }

    /** A request becomes pending unless its agent is taken or no entry is free. */
    method Open(request: Relayed) returns (place: Option<nat>)
      requires Valid()
      modifies entries
      ensures Valid()
      ensures place.None? ==> entries[..] == old(entries[..])
      ensures place.None? <==>
        || (exists i :: 0 <= i < entries.Length && IsAgents(old(entries[i]), request.agent))
        || (forall i | 0 <= i < entries.Length :: InUse(old(entries[i])))
      ensures place.Some? ==>
        && place.value < entries.Length && old(entries[place.value]).state.Free?
        && entries[..] == old(entries[..])[place.value := request.(state := Pending)]
    {
      var taken := ForAgent(request.agent);
      if taken.Some? {
        return None;
      }
      for i := 0 to entries.Length
        invariant forall k | 0 <= k < i :: InUse(entries[k])
        invariant entries[..] == old(entries[..])
      {
        if entries[i].state == Free {
          Put(i, request.(state := Pending));
          return Some(i);
        }
      }
      return None;
    }

    method Activate(i: nat, txnId: u16)
      requires Valid() && i < entries.Length && entries[i].state.Pending?
      modifies this, entries
      ensures Valid() && entries[..] == old(entries[..])[i := old(entries[i]).(state := Active, txnId := txnId)]
    {
      var e := entries[i];
      Put(i, e.(state := Active, txnId := txnId));
      if e.exclusive {
        activeLeases := activeLeases + 1;
      }
    }

    method Close(i: nat)
      requires Valid() && i < entries.Length && InUse(entries[i])
      modifies this, entries
      ensures Valid() && entries[..] == old(entries[..])[i := UNUSED]
    {
      var leased := entries[i].state == Active && entries[i].exclusive;
      Put(i, UNUSED);
      if leased {
        activeLeases := activeLeases - 1;
      }
    }
  }

  // ---------- the broker ----------

  /** Whoever a transaction is between is connected; only a pending one may have lost its client. */
  predicate Connected(entries: seq<Relayed>, agents: set<u32>, clients: set<u32>) {
    forall e | e in entries && InUse(e) ::
      e.agent in agents && (e.client in clients || (e.state.Pending? && e.client == NO_CLIENT))
  }

  predicate HasActive(entries: seq<Relayed>, agent: u32, txnId: u16) {
    exists e | e in entries :: IsAgents(e, agent) && IsActive(e) && e.txnId == txnId
  }

  predicate IsPending(e: Relayed) {
    e.state.Pending?
  }

  predicate HasPending(entries: seq<Relayed>, agent: u32) {
    exists e | e in entries :: IsAgents(e, agent) && IsPending(e)
  }

  /** The agent's pending transaction still has its client. */
  predicate IsAwaited(entries: seq<Relayed>, agent: u32, clients: set<u32>) {
    exists e | e in entries :: IsAgents(e, agent) && IsPending(e) && e.client in clients
  }

  predicate HasAny(entries: seq<Relayed>, agent: u32) {
    exists e | e in entries :: IsAgents(e, agent)
  }

  predicate IsRunning(entries: seq<Relayed>, agent: u32) {
    exists e | e in entries :: IsAgents(e, agent) && IsActive(e)
  }

  predicate IsOn(e: Relayed, client: u32, channel: u8) {
    IsClients(e, client) && e.clientChannel == channel
  }

  /** `found` is an entry of the client on the channel, if there is one. */
  predicate IsFound(entries: seq<Relayed>, client: u32, channel: u8, found: Option<nat>) {
    match found
    case Some(i) => i < |entries| && IsOn(entries[i], client, channel)
    case None => forall e | e in entries :: !IsOn(e, client, channel)
  }

  class Broker {
    const table: TransactionTable
    var agents: set<u32>
    var clients: set<u32>
    var started: nat
    var completed: nat
    var aborted: nat
    var rejected: nat

    /** TXN_BEGIN messages handled, and transactions granted to a client that had left. */
    ghost var begun: nat
    ghost var orphaned: nat

    ghost function Live(): nat
      reads this, table, table.entries
    {
      Count(table.entries[..], InUse)
    }

    ghost function Running(): nat
      reads this, table, table.entries
    {
      Count(table.entries[..], IsActive)
    }

    /** Every transaction begun is live or counted once; so is every one started. */
    ghost predicate Balanced()
      reads this, table, table.entries
    {
      && begun == completed + aborted + rejected + Live()
      && started + orphaned == completed + aborted + Running()
    }

    ghost predicate Valid()
      reads this, table, table.entries
    {
      && table.Valid() && NO_CLIENT !in clients && Connected(table.entries[..], agents, clients)
      && Balanced()
    }

    constructor (size: nat)
      ensures Valid() && agents == clients == {} && begun == 0 && table.entries.Length == size
    {
      table := new TransactionTable(size);
      agents, clients, started, completed, aborted, rejected := {}, {}, 0, 0, 0, 0;
      begun, orphaned := 0, 0;
      new;
      CountNone(table.entries[..], InUse);
      CountNone(table.entries[..], IsActive);
    }

    method Connect(peer: u32, isAgent: bool)
      requires Valid() && peer != NO_CLIENT
      modifies this
      ensures Valid() && Live() == old(Live())
    {
      if isAgent {
        agents := agents + {peer};
      } else {
        clients := clients + {peer};
      }
    }

    /** A client asks to begin; `admitted` is whether the request is one the hub can relay. */
    method Begin(admitted: bool, request: Relayed)
      requires Valid() && (admitted ==> request.client in clients && request.agent in agents)
      modifies this, table, table.entries
      ensures Valid() && begun == old(begun) + 1
      ensures rejected == old(rejected) + One(
        !admitted || old(HasAny(table.entries[..], request.agent)) || forall e | e in old(table.entries[..]) :: InUse(e))
      ensures Live() + rejected == old(Live() + rejected) + 1
      ensures rejected == old(rejected) ==> request.(state := Pending) in table.entries[..]
      ensures aborted == old(aborted) && completed == old(completed) && started == old(started)
    {
      begun := begun + 1;
      var entered := false;
      if admitted {
        entered := Enter(request);
      }
      if !entered {
        rejected := rejected + 1;
      }
    }

    /** The request gets an entry, unless its agent is taken or the table is full. */
    method Enter(request: Relayed) returns (entered: bool)
      requires request.client in clients && request.agent in agents
      requires table.Valid() && Connected(table.entries[..], agents, clients)
      modifies table, table.entries
      ensures table.Valid() && Connected(table.entries[..], agents, clients)
      ensures entered <==>
        !old(HasAny(table.entries[..], request.agent)) && !forall e | e in old(table.entries[..]) :: InUse(e)
      ensures Live() == old(Live()) + One(entered) && Running() == old(Running())
      ensures entered ==> request.(state := Pending) in table.entries[..]
    {
      var place := table.Open(request);
      entered := place.Some?;
      if entered {
        CountUpdated(old(table.entries[..]), InUse, place.value, request.(state := Pending));
        CountUpdated(old(table.entries[..]), IsActive, place.value, request.(state := Pending));
        assert table.entries[..][place.value] == request.(state := Pending);
        assert old(table.entries[..])[place.value] in old(table.entries[..]);
      }
    }

    /** An entry is closed and no longer live. */
    method Finish(i: nat)
      requires i < table.entries.Length && InUse(table.entries[i])
      requires table.Valid() && Connected(table.entries[..], agents, clients)
      modifies table, table.entries
      ensures table.Valid() && Connected(table.entries[..], agents, clients)
      ensures table.entries[..] == old(table.entries[..])[i := UNUSED]
      ensures Live() == old(Live()) - 1 && Running() == old(Running() - One(IsActive(table.entries[i])))
    {
      CountUpdated(table.entries[..], InUse, i, UNUSED);
      CountUpdated(table.entries[..], IsActive, i, UNUSED);
      table.Close(i);
    }

    /** The agent answers a pending request: refused, granted to nobody, or started. */
    method BeginAck(agent: u32, ok: bool, txnId: u16)
      requires Valid()
      modifies this, table, table.entries
      ensures Valid() && begun == old(begun) && completed == old(completed)
      ensures rejected == old(rejected) + One(old(HasPending(table.entries[..], agent)) && !ok)
      ensures started == old(started) + One(old(IsAwaited(table.entries[..], agent, clients)) && ok)
      ensures aborted == old(aborted) +
        One(old(HasPending(table.entries[..], agent) && !IsAwaited(table.entries[..], agent, clients)) && ok)
      ensures Live() + rejected + aborted == old(Live() + rejected + aborted)
    {
      var found := table.ForAgent(agent);
      if found.Some? {
        NoneOther(table.entries[..], found.value, agent);
      }
      if found.None? || table.entries[found.value].state != Pending {
        return;
      }
      var i := found.value;
      var e := table.entries[i];
      assert e in table.entries[..];
      if !ok {
        rejected := rejected + 1;
        Finish(i);
      } else if e.client !in clients {
        aborted, orphaned := aborted + 1, orphaned + 1;
        Finish(i);
      } else {
        Start(i, txnId);
      }
    }

    method Start(i: nat, txnId: u16)
      requires i < table.entries.Length && table.entries[i].state.Pending? && table.entries[i].client in clients
      requires table.Valid() && Connected(table.entries[..], agents, clients)
      modifies this`started, table, table.entries
      ensures table.Valid() && Connected(table.entries[..], agents, clients)
      ensures started == old(started) + 1 && Live() == old(Live()) && Running() == old(Running()) + 1
    {
      var e := table.entries[i];
      assert e in table.entries[..];
      CountUpdated(table.entries[..], InUse, i, e.(state := Active, txnId := txnId));
      CountUpdated(table.entries[..], IsActive, i, e.(state := Active, txnId := txnId));
      table.Activate(i, txnId);
      started := started + 1;
    }

    /** The agent reports the end of its active transaction. */
    method Status(agent: u32, txnId: u16, done: bool)
      requires Valid()
      modifies this, table, table.entries
      ensures Valid() && begun == old(begun) && rejected == old(rejected) && started == old(started)
      ensures completed == old(completed) + One(old(HasActive(table.entries[..], agent, txnId)) && done)
      ensures aborted == old(aborted) + One(old(HasActive(table.entries[..], agent, txnId)) && !done)
    {
      var found := table.ForAgent(agent);
      if found.Some? {
        NoneOther(table.entries[..], found.value, agent);
      }
      if found.None? || table.entries[found.value].state != Active || table.entries[found.value].txnId != txnId {
        return;
      }
      assert table.entries[found.value] in table.entries[..];
      if done {
        completed := completed + 1;
      } else {
        aborted := aborted + 1;
      }
      Finish(found.value);
    }

    /** A pending transaction loses its client and waits for the agent's answer; an active one is aborted. */
    method Abandon(i: nat)
      requires Valid() && i < table.entries.Length && InUse(table.entries[i])
      modifies this, table, table.entries
      ensures Valid() && begun == old(begun) && completed == old(completed) && rejected == old(rejected)
      ensures aborted == old(aborted) + One(IsActive(old(table.entries[i])))
      ensures agents == old(agents) && clients == old(clients)
      ensures table.entries[..] == old(table.entries[..])[i := Abandoned(old(table.entries[i]))]
    {
      var e := table.entries[i];
      if e.state == Pending {
        CountUpdated(table.entries[..], InUse, i, e.(client := NO_CLIENT));
        CountUpdated(table.entries[..], IsActive, i, e.(client := NO_CLIENT));
        assert e in table.entries[..];
        table.Put(i, e.(client := NO_CLIENT));
      } else {
        aborted := aborted + 1;
        Finish(i);
      }
    }

    /** A client cancels: a pending transaction is abandoned, an active one is left to its agent. */
    method Abort(client: u32, channel: u8) returns (found: Option<nat>)
      requires Valid()
      modifies this, table, table.entries
      ensures Valid() && IsFound(old(table.entries[..]), client, channel, found)
      ensures begun == old(begun) && Live() == old(Live())
      ensures completed == old(completed) && aborted == old(aborted) && rejected == old(rejected)
      ensures table.entries[..] ==
        if found.Some? && IsPending(old(table.entries[..])[found.value])
        then old(table.entries[..])[found.value := Abandoned(old(table.entries[..])[found.value])]
        else old(table.entries[..])
    {
      found := table.ForClientChannel(client, channel);
      if found.Some? && table.entries[found.value].state == Pending {
        Abandon(found.value);
      }
    }

    /** A channel is closed: its transaction is abandoned. */
    method CloseChannel(client: u32, channel: u8) returns (found: Option<nat>)
      requires Valid()
      modifies this, table, table.entries
      ensures Valid() && IsFound(old(table.entries[..]), client, channel, found)
      ensures begun == old(begun) && completed == old(completed) && rejected == old(rejected)
      ensures table.entries[..] ==
        if found.Some? then old(table.entries[..])[found.value := Abandoned(old(table.entries[..])[found.value])]
        else old(table.entries[..])
    {
      found := table.ForClientChannel(client, channel);
      if found.Some? {
        Abandon(found.value);
      }
    }

    /** The agent cannot run a template: an active transaction is aborted. */
    method RefuseTemplate(client: u32, channel: u8) returns (found: Option<nat>)
      requires Valid()
      modifies this, table, table.entries
      ensures Valid() && IsFound(old(table.entries[..]), client, channel, found)
      ensures begun == old(begun) && completed == old(completed) && rejected == old(rejected)
      ensures table.entries[..] ==
        if found.Some? && IsActive(old(table.entries[..])[found.value])
        then old(table.entries[..])[found.value := UNUSED] else old(table.entries[..])
    {
      found := table.ForClientChannel(client, channel);
      if found.Some? && table.entries[found.value].state == Active {
        aborted := aborted + 1;
        Finish(found.value);
      }
    }

    /** All transactions of a client, one after the other. */
    method AbandonAll(client: u32)
      requires Valid() && client in clients
      modifies this, table, table.entries
      ensures Valid() && begun == old(begun) && completed == old(completed) && rejected == old(rejected)
      ensures clients == old(clients)
      ensures forall i | 0 <= i < table.entries.Length :: table.entries[i] == Without(old(table.entries[i]), client)
    {
      var from := 0;
      var found := table.NextForClient(client, from);
      while found.Some?
        invariant Valid() && begun == old(begun) && completed == old(completed) && rejected == old(rejected)
        invariant clients == old(clients) && from <= table.entries.Length
        invariant found.Some? ==> from <= found.value < table.entries.Length && IsClients(table.entries[found.value], client)
        invariant forall k | from <= k < (if found.Some? then found.value else table.entries.Length) ::
          !IsClients(table.entries[k], client)
        invariant forall k | 0 <= k < from :: table.entries[k] == Without(old(table.entries[k]), client)
        invariant forall k | from <= k < table.entries.Length :: table.entries[k] == old(table.entries[k])
        decreases table.entries.Length - from, found.Some?
      {
        Abandon(found.value);
        from := found.value + 1;
        found := table.NextForClient(client, from);
      }
    }

    /** A client leaves: each of its transactions is abandoned, and none of the others is touched. */
    method ClientGone(client: u32)
      requires Valid() && client in clients
      modifies this, table, table.entries
      ensures Valid() && begun == old(begun) && completed == old(completed) && rejected == old(rejected)
      ensures clients == old(clients) - {client}
      ensures forall i | 0 <= i < table.entries.Length :: table.entries[i] == Without(old(table.entries[i]), client)
    {
      AbandonAll(client);
      forall e | e in table.entries[..] ensures !IsClients(e, client) {
      }
      clients := clients - {client};
    }

    /** The agent's transaction fails: an active one is aborted, a pending one rejected. */
    method FailAgent(agent: u32)
      requires Valid()
      modifies this, table, table.entries
      ensures Valid() && begun == old(begun) && completed == old(completed) && agents == old(agents)
      ensures aborted == old(aborted) + One(old(IsRunning(table.entries[..], agent)))
      ensures rejected == old(rejected) + One(old(HasPending(table.entries[..], agent)))
      ensures forall i | 0 <= i < table.entries.Length :: !IsAgents(table.entries[i], agent)
    {
      var found := table.ForAgent(agent);
      if found.None? {
        return;
      }
      NoneOther(table.entries[..], found.value, agent);
      assert table.entries[found.value] in table.entries[..];
      if table.entries[found.value].state == Active {
        aborted := aborted + 1;
      } else {
        rejected := rejected + 1;
      }
      Finish(found.value);
    }

    /** An agent leaves: its transaction is over. */
    method AgentGone(agent: u32)
      requires Valid() && agent in agents
      modifies this, table, table.entries
      ensures Valid() && begun == old(begun) && completed == old(completed)
      ensures agents == old(agents) - {agent}
      ensures aborted == old(aborted) + One(old(IsRunning(table.entries[..], agent)))
      ensures rejected == old(rejected) + One(old(HasPending(table.entries[..], agent)))
      ensures forall i | 0 <= i < table.entries.Length :: !IsAgents(table.entries[i], agent)
    {
      FailAgent(agent);
      agents := agents - {agent};
    }
  }

  /** No other entry is the agent's. */
  lemma NoneOther(entries: seq<Relayed>, i: nat, agent: u32)
    requires OnePerAgent(entries) && i < |entries| && IsAgents(entries[i], agent)
    ensures forall e | e in entries :: IsAgents(e, agent) ==> e == entries[i]
    ensures forall k | 0 <= k < |entries| && k != i :: !IsAgents(entries[k], agent)
  {
  }
}
