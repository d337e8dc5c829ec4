/** A harness node: an acceptor that can crash and restart over its store (pkg/paxostest/harness.go:80-121, 243-271;
    the acceptor side of Kill and Revive, pkg/node/node.go:205-297). */
module Nodes {
  import opened Wrappers
  import opened Ballots
  import opened Acceptors
  import opened Ledgers

  class Node {
    const id: int
    const store: Store
    const ledger: Ledger
    var alive: bool
    var acceptor: Acceptor?

    ghost predicate Valid()
      reads this
    {
      && (alive <==> acceptor != null)
      && (acceptor != null ==> acceptor.id == id && acceptor.store == store)
    }

    ghost function View(): Machine
      requires Valid()
      reads this, acceptor, store
    {
      if acceptor == null then Machine(None, store.state) else acceptor.View()
    }

    constructor (id: int, ledger: Ledger)
      ensures Valid() && View() == FRESH && fresh(store) && fresh(acceptor)
      ensures this.id == id && this.ledger == ledger
    {
      this.id := id;
      this.ledger := ledger;
      var store := new Store();
      this.store := store;
      acceptor := new Acceptor(id, store);
      alive := true;
    }

    /** Fetches the acceptor. The lock is let go of after this, so the acceptor may be superseded before it is called. */
    method Current() returns (at: Acceptor?)
      requires Valid()
      ensures at == acceptor
    {
      at := if alive then acceptor else null;
    }

    /** A prepare goes on at an acceptor fetched before, over the store as it is now. The node's own memory is touched only
        if that is still its acceptor. */
    method PrepareAt(at: Acceptor, ballot: Ballot, save: SaveOutcome) returns (r: Option<PrepareResponse>)
      requires Valid() && at.id == id && at.store == store
      modifies at`state, store
      ensures Valid() && (at != acceptor ==> View() == old(View()).(disk := at.View().disk))
      ensures at.View() == Handle(id, old(at.View()), Request.Prepare(ballot), save).0
      ensures match r
              case None => Handle(id, old(at.View()), Request.Prepare(ballot), save).1 == None
              case Some(resp) => Handle(id, old(at.View()), Request.Prepare(ballot), save).1 == Some(Promise(resp))
    {
      r := at.Prepare(ballot, save);
    }

    method AcceptAt(at: Acceptor, ballot: Ballot, value: Value, save: SaveOutcome) returns (r: Option<AcceptResponse>)
      requires Valid() && at.id == id && at.store == store
      modifies at`state, store, ledger
      ensures Valid() && (at != acceptor ==> View() == old(View()).(disk := at.View().disk))
      ensures at.View() == Handle(id, old(at.View()), Request.Accept(ballot, value), save).0
      ensures match r
              case None => Handle(id, old(at.View()), Request.Accept(ballot, value), save).1 == None
              case Some(resp) => Handle(id, old(at.View()), Request.Accept(ballot, value), save).1 == Some(Acceptance(resp))
      ensures ledger.records == old(ledger.records)
                              + if r.Some? && r.value.accepted then [Vote(id, ballot, value)] else []
    {
      r := at.Accept(ballot, value, save);
      if r.Some? && r.value.accepted {
        ledger.Record(Vote(id, ballot, value));
      }
    }

    /** A call during which the node keeps its acceptor. A request to a dead node is an error, and so is a failed save. */
    method Prepare(ballot: Ballot, save: SaveOutcome) returns (r: Option<PrepareResponse>)
      requires Valid()
      modifies acceptor, store
      ensures Valid()
      ensures View() == Handle(id, old(View()), Request.Prepare(ballot), save).0
      ensures match r
              case None => Handle(id, old(View()), Request.Prepare(ballot), save).1 == None
              case Some(resp) => Handle(id, old(View()), Request.Prepare(ballot), save).1 == Some(Promise(resp))
    {
      var at := Current();
      if at == null {
        return None;
      }
      r := PrepareAt(at, ballot, save);
    }

    method Accept(ballot: Ballot, value: Value, save: SaveOutcome) returns (r: Option<AcceptResponse>)
      requires Valid()
      modifies acceptor, store, ledger
      ensures Valid()
      ensures View() == Handle(id, old(View()), Request.Accept(ballot, value), save).0
      ensures match r
              case None => Handle(id, old(View()), Request.Accept(ballot, value), save).1 == None
              case Some(resp) => Handle(id, old(View()), Request.Accept(ballot, value), save).1 == Some(Acceptance(resp))
      ensures ledger.records == old(ledger.records)
                              + if r.Some? && r.value.accepted then [Vote(id, ballot, value)] else []
    {
      var at := Current();
      if at == null {
        return None;
      }
      r := AcceptAt(at, ballot, value, save);
    }

    method CrashNow()
      requires Valid()
      modifies this
      ensures Valid() && View() == Crash(old(View())) && acceptor == null
    {
      alive := false;
      acceptor := null;
    }

    /** The first half of a restart, outside the lock: a new acceptor with what the store holds now. */
    method LoadNew() returns (next: Acceptor)
      requires Valid()
      ensures fresh(next) && next.id == id && next.store == store && next.state == store.state
    {
      next := new Acceptor(id, store);
    }

    /** The second half: the new acceptor takes over with the memory it loaded, which may be older than the store by now. */
    method Install(next: Acceptor)
      requires Valid() && next.id == id && next.store == store
      modifies this
      ensures Valid() && acceptor == next && View() == old(View()).(mem := Some(old(next.state)))
    {
      acceptor := next;
      alive := true;
    }

    /** A restart during which nothing is saved. A node may be restarted while it runs: its acceptor is rebuilt from the
        store all the same. */
    method RestartNow()
      requires Valid()
      modifies this
      ensures Valid() && View() == Restart(old(View())) && fresh(acceptor)
    {
      var next := LoadNew();
      Install(next);
    }
  }

  /** Nodes that share nothing but their ledger. */
  ghost predicate Apart(nodes: seq<Node>, ledger: Ledger)
    reads nodes
  {
    && (forall i | 0 <= i < |nodes| :: nodes[i].Valid() && nodes[i].ledger == ledger)
    && (forall i, j | 0 <= i < j < |nodes| ::
          && nodes[i] != nodes[j] && nodes[i].store != nodes[j].store
          && (nodes[i].acceptor != null ==> nodes[i].acceptor != nodes[j].acceptor))
  }

  /** Every object a list of nodes is made of. */
  ghost function Parts(nodes: seq<Node>, ledger: Ledger): set<object>
    reads nodes
  {
    {ledger}
    + (set i | 0 <= i < |nodes| :: nodes[i])
    + (set i | 0 <= i < |nodes| :: nodes[i].store)
    + (set i | 0 <= i < |nodes| && nodes[i].acceptor != null :: nodes[i].acceptor)
  }
}
