/** The acceptor and its durable store (pkg/paxos/acceptor.go, pkg/paxos/store.go, pkg/paxos/messages.go). */
module Acceptors {
  import opened Ballots
  import opened Wrappers

  /** Values are only copied and compared, so the 64-bit width plays no part. */
  type Value = nat

  datatype AcceptorState = AcceptorState(promised: Ballot, accepted: Ballot, value: Value, hasAccepted: bool)

  const EMPTY := AcceptorState(ZERO, ZERO, 0, false)

  datatype Request = Prepare(ballot: Ballot) | Accept(ballot: Ballot, value: Value)

  datatype PrepareResponse = PrepareResponse(
    promised: bool, highestPromised: Ballot, accepted: Ballot, value: Value, hasAccepted: bool, acceptorId: int)

  datatype AcceptResponse = AcceptResponse(accepted: bool, highestPromised: Ballot, acceptorId: int)

  datatype Reply = Promise(prepare: PrepareResponse) | Acceptance(accept: AcceptResponse)

  /** What a call of Save does: it stores and reports success, it reports an error and stores nothing,
      or it reports an error although the state reached the disk. */
  datatype SaveOutcome = Saved | Refused | Ambiguous

  /** One acceptance of a value at a ballot by one acceptor (pkg/paxostest/harness.go:21-25). */
  datatype Vote = Vote(acceptor: int, ballot: Ballot, value: Value)

  /** A request is handled only at a ballot that is not zero and not below the promise. */
  predicate Admits(st: AcceptorState, b: Ballot) {
    b.AtLeast(st.promised) && !b.IsZero()
  }

  /** The state an admitted request asks the store to keep. */
  function Next(st: AcceptorState, req: Request): AcceptorState {
    match req
    case Prepare(b) => st.(promised := b)
    case Accept(b, v) => AcceptorState(b, b, v, true)
  }

  /** The reply when no save fails. A promise reports the acceptance held before the request. */
  function Answer(id: int, st: AcceptorState, req: Request): Reply {
    var yes := Admits(st, req.ballot);
    var highest := if yes then req.ballot else st.promised;
    match req
    case Prepare(_) => Promise(PrepareResponse(yes, highest, st.accepted, st.value, st.hasAccepted, id))
    case Accept(_, _) => Acceptance(AcceptResponse(yes, highest, id))
  }

  /** A node's acceptor as the outside sees it: the state in memory, absent while the node is down, and the
      durable record. */
  datatype Machine = Machine(mem: Option<AcceptorState>, disk: AcceptorState)

  const FRESH := Machine(Some(EMPTY), EMPTY)

  /** One request handled by a machine: save first, then reply. A failed save gives an error and no reply. */
  function Handle(id: int, m: Machine, req: Request, save: SaveOutcome): (Machine, Option<Reply>) {
    if m.mem.None? then (m, None)
    else
      var st := m.mem.value;
      if !Admits(st, req.ballot) then (m, Some(Answer(id, st, req)))
      else match save
        case Saved => (Machine(Some(Next(st, req)), Next(st, req)), Some(Answer(id, st, req)))
        case Refused => (m, None)
        case Ambiguous => (m.(disk := Next(st, req)), None)
  }

  /** The state st after this request: it promises the ballot, and after an accept request holds that acceptance. */
  predicate Moved(st: AcceptorState, req: Request, st': AcceptorState) {
    && st'.promised == req.ballot
    && match req
       case Prepare(_) => st'.accepted == st.accepted && st'.value == st.value && st'.hasAccepted == st.hasAccepted
       case Accept(b, v) => st'.accepted == b && st'.value == v && st'.hasAccepted
  }

  /** The reply of acceptor id in state st' tells its promise, and one to a prepare its acceptance. */
  predicate Tells(id: int, st': AcceptorState, req: Request, positive: bool, reply: Reply) {
    match req
    case Prepare(_) =>
      reply == Promise(PrepareResponse(positive, st'.promised, st'.accepted, st'.value, st'.hasAccepted, id))
    case Accept(_, _) => reply == Acceptance(AcceptResponse(positive, st'.promised, id))
  }

  /** What handling a request comes to. A node that is down does nothing. A request at the zero ballot or below the promise
      is turned down, and changes nothing. Any other is stored first: if that succeeds, memory and disk hold the new state
      and the reply is positive; if not, memory stays, no reply is sent, and the new state may have reached the disk. Every
      reply tells the state its acceptor is then in. */
  lemma HandledExactly(id: int, m: Machine, req: Request, save: SaveOutcome)
    ensures var (m', reply) := Handle(id, m, req, save);
            if m.mem.None? then m' == m && reply.None?
            else if req.ballot == ZERO || req.ballot.Less(m.mem.value.promised) then
              m' == m && reply.Some? && Tells(id, m.mem.value, req, false, reply.value)
            else if save.Saved? then
              && m'.mem.Some? && m'.disk == m'.mem.value && Moved(m.mem.value, req, m'.disk)
              && reply.Some? && Tells(id, m'.disk, req, true, reply.value)
            else
              && m'.mem == m.mem && reply.None?
              && if save.Ambiguous? then Moved(m.mem.value, req, m'.disk) else m'.disk == m.disk
  {
  }

  function Crash(m: Machine): Machine {
    m.(mem := None)
  }

  function Restart(m: Machine): Machine {
    m.(mem := Some(m.disk))
  }

  class Store {
    var state: AcceptorState

    constructor ()
      ensures state == EMPTY
    {
      state := EMPTY;
    }

    method Load() returns (st: AcceptorState)
      ensures st == state
    {
      st := state;
    }

    method Save(next: AcceptorState, outcome: SaveOutcome) returns (ok: bool)
      modifies this
      ensures ok == outcome.Saved?
      ensures state == if outcome.Refused? then old(state) else next
    {
      if !outcome.Refused? {
        state := next;
      }
      ok := outcome.Saved?;
    }
  }

  class Acceptor {
    const id: int
    const store: Store
    var state: AcceptorState

    ghost function View(): Machine
      reads this, store
    {
      Machine(Some(state), store.state)
    }

    constructor (id: int, store: Store)
      ensures this.id == id && this.store == store && state == store.state
      ensures View() == Restart(Machine(None, store.state))
    {
      this.id := id;
      this.store := store;
      new;
      state := store.Load();
    }

    /** An acceptor built earlier, as it is by now: what a call that fetched it then still works with. */
    constructor Earlier(id: int, store: Store, st: AcceptorState)
      ensures this.id == id && this.store == store && state == st
      ensures View() == Machine(Some(st), store.state)
    {
      this.id := id;
      this.store := store;
      state := st;
    }

    method Prepare(ballot: Ballot, save: SaveOutcome) returns (r: Option<PrepareResponse>)
      modifies this`state, store
      ensures View() == Handle(id, old(View()), Request.Prepare(ballot), save).0
      ensures r.None? <==> Handle(id, old(View()), Request.Prepare(ballot), save).1.None?
      ensures r.Some? ==> Handle(id, old(View()), Request.Prepare(ballot), save).1 == Some(Promise(r.value))
    {
      var resp := PrepareResponse(false, state.promised, state.accepted, state.value, state.hasAccepted, id);
      if !ballot.AtLeast(state.promised) || ballot.IsZero() {
        return Some(resp);
      }
      var next := state.(promised := ballot);
      var ok := store.Save(next, save);
      if !ok {
        return None;
      }
      state := next;
      r := Some(resp.(promised := true, highestPromised := ballot));
    }

    method Accept(ballot: Ballot, value: Value, save: SaveOutcome) returns (r: Option<AcceptResponse>)
      modifies this`state, store
      ensures View() == Handle(id, old(View()), Request.Accept(ballot, value), save).0
      ensures r.None? <==> Handle(id, old(View()), Request.Accept(ballot, value), save).1.None?
      ensures r.Some? ==> Handle(id, old(View()), Request.Accept(ballot, value), save).1 == Some(Acceptance(r.value))
    {
      var resp := AcceptResponse(false, state.promised, id);
      if !ballot.AtLeast(state.promised) || ballot.IsZero() {
        return Some(resp);
      }
      var next := AcceptorState(ballot, ballot, value, true);
      var ok := store.Save(next, save);
      if !ok {
        return None;
      }
      state := next;
      r := Some(resp.(accepted := true, highestPromised := ballot));
    }
  }
}
