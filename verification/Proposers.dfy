/** The proposer (pkg/paxos/proposer.go, pkg/paxos/prepare.go, pkg/paxos/accept.go) over real acceptors: each method
    is proved to do what Broadcasts says, and so to be a run of the protocol. */
module Proposers {
  import opened Ballots
  import opened Wrappers
  import opened Acceptors
  import opened Tallies
  import opened Attempts
  import opened Protocol
  import opened Broadcasts
  import opened Campaigns
  import opened Backoffs
  import opened Ledgers
  import opened Nodes

  ghost function Ids(nodes: seq<Node>): (ids: seq<int>)
    ensures |ids| == |nodes| && forall i | 0 <= i < |ids| :: ids[i] == nodes[i].id
  {
    seq(|nodes|, i requires 0 <= i < |nodes| => nodes[i].id)
  }

  /** The world the nodes and their ledger are in. */
  ghost predicate InWorld(nodes: seq<Node>, ledger: Ledger, w: World)
    requires Apart(nodes, ledger)
    reads nodes, Parts(nodes, ledger)
  {
    && |w.machines| == |nodes| && w.ledger == ledger.records
    && forall i | 0 <= i < |nodes| :: nodes[i].View() == w.machines[i]
  }

  /** One request served by one node. */
  method Send(nodes: seq<Node>, ledger: Ledger, ghost w: World, slot: nat, req: Request, save: SaveOutcome)
    returns (reply: Option<Reply>, ghost w': World)
    requires Apart(nodes, ledger) && InWorld(nodes, ledger, w) && slot < |nodes|
    modifies Parts(nodes, ledger)
    ensures Apart(nodes, ledger) && InWorld(nodes, ledger, w') && fresh(Parts(nodes, ledger) - old(Parts(nodes, ledger)))
    ensures (w', reply) == Serve(nodes[slot].id, w, slot, req, save)
  {
    var node := nodes[slot];
    w' := Serve(node.id, w, slot, req, save).0;
    match req
    case Prepare(b) =>
      var r := node.Prepare(b, save);
      reply := if r.Some? then Some(Promise(r.value)) else None;
    case Accept(b, v) =>
      var r := node.Accept(b, v, save);
      reply := if r.Some? then Some(Acceptance(r.value)) else None;
  }

  /** One request that goes on at an old acceptor of one node, in state st. */
  method SendLate(nodes: seq<Node>, ledger: Ledger, ghost w: World, slot: nat, st: AcceptorState, req: Request, save: SaveOutcome)
    returns (reply: Option<Reply>, ghost w': World)
    requires Apart(nodes, ledger) && InWorld(nodes, ledger, w) && slot < |nodes|
    modifies Parts(nodes, ledger)
    ensures Apart(nodes, ledger) && InWorld(nodes, ledger, w') && Parts(nodes, ledger) == old(Parts(nodes, ledger))
    ensures (w', reply) == ServeLate(nodes[slot].id, w, slot, st, req, save)
  {
    var node := nodes[slot];
    w' := ServeLate(node.id, w, slot, st, req, save).0;
    var at := new Acceptor.Earlier(node.id, node.store, st);
    match req
    case Prepare(b) =>
      var r := node.PrepareAt(at, b, save);
      reply := if r.Some? then Some(Promise(r.value)) else None;
    case Accept(b, v) =>
      var r := node.AcceptAt(at, b, v, save);
      reply := if r.Some? then Some(Acceptance(r.value)) else None;
    forall i | 0 <= i < |nodes| && i != slot ensures nodes[i].View() == old(nodes[i].View()) {
    }
  }

  /** The proposer's own call, at the peer or at an old acceptor of it. */
  method CallOut(nodes: seq<Node>, ledger: Ledger, ghost w: World, own: Request, event: Event)
    returns (reply: Option<Reply>, ghost w': World)
    requires Apart(nodes, ledger) && InWorld(nodes, ledger, w) && (event.Call? || event.Late?) && event.slot < |nodes|
    modifies Parts(nodes, ledger)
    ensures Apart(nodes, ledger) && InWorld(nodes, ledger, w') && fresh(Parts(nodes, ledger) - old(Parts(nodes, ledger)))
    ensures reply.Some? ==> (own.Prepare? <==> reply.value.Promise?)
    ensures forall rs: Replies | |rs| == |nodes| ::
      Happen(Ids(nodes), w, own, rs, event) == (w', if reply.Some? then rs[event.slot := reply] else rs)
  {
    if event.Call? {
      reply, w' := Send(nodes, ledger, w, event.slot, own, event.save);
    } else {
      reply, w' := SendLate(nodes, ledger, w, event.slot, event.st, own, event.save);
    }
    if !event.replied {
      reply := None;
    }
  }

  /** What others do to the peers while a broadcast is out. */
  method Disturb(nodes: seq<Node>, ledger: Ledger, ghost w: World, event: Event) returns (ghost w': World)
    requires Apart(nodes, ledger) && InWorld(nodes, ledger, w) && SlotIn(event, |nodes|) && !event.Call? && !event.Late?
    modifies Parts(nodes, ledger)
    ensures Apart(nodes, ledger) && InWorld(nodes, ledger, w') && fresh(Parts(nodes, ledger) - old(Parts(nodes, ledger)))
    ensures forall own, rs: Replies | |rs| == |nodes| :: Happen(Ids(nodes), w, own, rs, event) == (w', rs)
  {
    w' := w;
    match event
    case Foreign(slot, _, req, save) =>
      var reply;
      reply, w' := Send(nodes, ledger, w, slot, req, save);
    case ForeignLate(slot, _, st, _, req, save) =>
      var reply;
      reply, w' := SendLate(nodes, ledger, w, slot, st, req, save);
    case Swap(slot, _, st) =>
      w' := PutInPlace(nodes, ledger, w, slot, st);
    case Down(slot) =>
      nodes[slot].CrashNow();
      w' := w.(machines := w.machines[slot := Crash(w.machines[slot])]);
    case Up(slot) =>
      nodes[slot].RestartNow();
      w' := w.(machines := w.machines[slot := Restart(w.machines[slot])]);
    case Elsewhere(_) =>
  }

  /** A restart puts the acceptor in place that it loaded earlier. */
  method PutInPlace(nodes: seq<Node>, ledger: Ledger, ghost w: World, slot: nat, st: AcceptorState) returns (ghost w': World)
    requires Apart(nodes, ledger) && InWorld(nodes, ledger, w) && slot < |nodes|
    modifies Parts(nodes, ledger)
    ensures Apart(nodes, ledger) && InWorld(nodes, ledger, w') && fresh(Parts(nodes, ledger) - old(Parts(nodes, ledger)))
    ensures w' == w.(machines := w.machines[slot := w.machines[slot].(mem := Some(st))])
  {
    var next := new Acceptor.Earlier(nodes[slot].id, nodes[slot].store, st);
    nodes[slot].Install(next);
    w' := w.(machines := w.machines[slot := w.machines[slot].(mem := Some(st))]);
  }

  /** One event of a broadcast: the reply to file in the peer's slot, if one came back. */
  method Occur(nodes: seq<Node>, ledger: Ledger, ghost w: World, own: Request, ghost rs: Replies, event: Event)
    returns (reply: Option<Reply>, ghost w': World, ghost rs': Replies)
    requires Apart(nodes, ledger) && InWorld(nodes, ledger, w) && SlotIn(event, |nodes|) && |nodes| == |rs|
    modifies Parts(nodes, ledger)
    ensures Apart(nodes, ledger) && InWorld(nodes, ledger, w') && fresh(Parts(nodes, ledger) - old(Parts(nodes, ledger)))
    ensures (w', rs') == Happen(Ids(nodes), w, own, rs, event)
    ensures reply.Some? ==> !event.Elsewhere?
    ensures rs' == if reply.Some? then rs[event.slot := reply] else rs
    ensures reply.Some? ==> (own.Prepare? <==> reply.value.Promise?)
  {
    reply, rs' := None, rs;
    if event.Call? || event.Late? {
      reply, w' := CallOut(nodes, ledger, w, own, event);
      rs' := if reply.Some? then rs[event.slot := reply] else rs;
    } else {
      w' := Disturb(nodes, ledger, w, event);
    }
  }

  lemma {:induction false} BroadcastStep(ids: seq<int>, w: World, own: Request, events: seq<Event>, i: nat)
    requires |ids| == |w.machines| && SlotsIn(events, |ids|) && i < |events|
    ensures var (w1, rs1) := Broadcast(ids, w, own, events[..i]);
            SlotIn(events[i], |ids|) && Broadcast(ids, w, own, events[..i + 1]) == Happen(ids, w1, own, rs1, events[i])
  {
    assert events[..i + 1][..i] == events[..i];
    assert events[i] in events;
  }

  lemma FilePrepare(rs: Replies, slot: nat, resp: PrepareResponse)
    requires slot < |rs|
    ensures AsPrepares(rs[slot := Some(Promise(resp))]) == AsPrepares(rs)[slot := Some(resp)]
  {
  }

  lemma FileAccept(rs: Replies, slot: nat, resp: AcceptResponse)
    requires slot < |rs|
    ensures AsAccepts(rs[slot := Some(Acceptance(resp))]) == AsAccepts(rs)[slot := Some(resp)]
  {
  }

  lemma RoundEndsEarly(obj: ProposerObj, w: World, script: Script, w1: World, rs: Replies, a1: Attempt)
    requires |obj.peers| == |w.machines| && ScriptFits(script, |obj.peers|) && FirstPhase(obj, w, script, w1, rs, a1)
    ensures !a1.outcome.Unknown? ==> IsRound(obj, w, script, w1, a1)
  {
  }

  lemma RoundGoesThrough(obj: ProposerObj, w: World, script: Script, w1: World, rs: Replies, a1: Attempt,
                         w2: World, rs2: Replies, a2: Attempt)
    requires |obj.peers| == |w.machines| == |w1.machines| && ScriptFits(script, |obj.peers|)
    requires FirstPhase(obj, w, script, w1, rs, a1) && a1.outcome.Unknown?
    requires SecondPhase(obj, w1, a1, script, w2, rs2, a2)
    ensures IsRound(obj, w, script, w2, a2)
  {
  }

  class Proposer {
    const id: int
    const value: Value
    const peers: seq<Node>
    const ledger: Ledger
    const cfg: Config
    var round: nat

    constructor (id: int, value: Value, peers: seq<Node>, ledger: Ledger, cfg: Config)
      ensures View() == ProposerObj(id, value, Ids(peers), 0)
      ensures this.peers == peers && this.ledger == ledger && this.cfg == WithDefaults(cfg)
    {
      this.id, this.value, this.peers, this.ledger, this.round := id, value, peers, ledger, 0;
      this.cfg := WithDefaults(cfg);
    }

    ghost function View(): ProposerObj
      reads this
    {
      ProposerObj(id, value, Ids(peers), round)
    }

    /** The peers are as this world says, and the proposer is no part of them. */
    ghost predicate Ready(w: World)
      reads this, peers, Parts(peers, ledger)
    {
      Apart(peers, ledger) && InWorld(peers, ledger, w) && this !in Parts(peers, ledger)
    }

    function Quorum(): nat {
      |peers| / 2 + 1
    }

    method NextProposalNumber() returns (b: Ballot)
      modifies this`round
      ensures round == old(round) + 1 && b == NextBallot(old(View()))
    {
      round := round + 1;
      b := Ballot(round, id);
    }

    method FastForwardProposalNumber(n: Ballot)
      modifies this`round
      ensures View() == Forwarded(old(View()), n)
    {
      if n.round > round {
        round := n.round;
      }
    }

    /** One event of phase 1, the reply filed in its slot. */
    method FilePromise(proposal: Ballot, event: Event, responses: array<Option<PrepareResponse>>, ghost w: World, ghost rs: Replies)
      returns (ghost w': World, ghost rs': Replies)
      requires Ready(w) && SlotIn(event, |peers|) && |peers| == |rs|
      requires responses !in Parts(peers, ledger) && responses[..] == AsPrepares(rs)
      modifies Parts(peers, ledger), responses
      ensures Ready(w') && fresh(Parts(peers, ledger) - old(Parts(peers, ledger)))
      ensures responses !in Parts(peers, ledger) && responses[..] == AsPrepares(rs')
      ensures (w', rs') == Happen(Ids(peers), w, Request.Prepare(proposal), rs, event)
    {
      var reply;
      reply, w', rs' := Occur(peers, ledger, w, Request.Prepare(proposal), rs, event);
      if reply.Some? {
        FilePrepare(rs, event.slot, reply.value.prepare);
        responses[event.slot] := Some(reply.value.prepare);
      }
    }

    /** The fan-out of phase 1: every reply that comes back is put in its peer's slot. */
    method GatherPrepares(proposal: Ballot, events: seq<Event>, responses: array<Option<PrepareResponse>>, ghost w: World)
      returns (ghost w': World, ghost rs: Replies)
      requires Ready(w) && SlotsIn(events, |peers|)
      requires responses !in Parts(peers, ledger) && responses.Length == |peers|
      requires responses[..] == AsPrepares(Silence(|peers|))
      modifies Parts(peers, ledger), responses
      ensures Ready(w') && fresh(Parts(peers, ledger) - old(Parts(peers, ledger)))
      ensures (w', rs) == Broadcast(Ids(peers), w, Request.Prepare(proposal), events)
      ensures responses[..] == AsPrepares(rs)
    {
      ghost var ids := Ids(peers);
      w', rs := w, Silence(|peers|);
      assert events[..0] == [];
      for i := 0 to |events|
        invariant Ready(w')
        invariant fresh(Parts(peers, ledger) - old(Parts(peers, ledger)))
        invariant responses !in Parts(peers, ledger)
        invariant (w', rs) == Broadcast(ids, w, Request.Prepare(proposal), events[..i])
        invariant responses[..] == AsPrepares(rs)
      {
        BroadcastStep(ids, w, Request.Prepare(proposal), events, i);
        w', rs := FilePromise(proposal, events[i], responses, w', rs);
      }
      assert events[..|events|] == events;
    }

    method Prepare(proposal: Ballot, events: seq<Event>, ghost w: World)
      returns (result: PrepareTally, ghost w': World, ghost rs: Replies)
      requires Ready(w) && SlotsIn(events, |peers|)
      modifies Parts(peers, ledger)
      ensures Ready(w') && fresh(Parts(peers, ledger) - old(Parts(peers, ledger)))
      ensures (w', rs) == Broadcast(Ids(peers), w, Request.Prepare(proposal), events)
      ensures IsPrepareTally(value, AsPrepares(rs), result)
    {
      var responses;
      responses, w', rs := AllPrepares(proposal, events, w);
      result := TallyPrepares(value, responses);
    }

    /** The slots, made and filled. */
    method AllPrepares(proposal: Ballot, events: seq<Event>, ghost w: World)
      returns (responses: array<Option<PrepareResponse>>, ghost w': World, ghost rs: Replies)
      requires Ready(w) && SlotsIn(events, |peers|)
      modifies Parts(peers, ledger)
      ensures Ready(w') && fresh(Parts(peers, ledger) - old(Parts(peers, ledger)))
      ensures (w', rs) == Broadcast(Ids(peers), w, Request.Prepare(proposal), events)
      ensures responses[..] == AsPrepares(rs)
    {
      responses := new Option<PrepareResponse>[|peers|](_ => None);
      assert responses[..] == AsPrepares(Silence(|peers|)) && Parts(peers, ledger) == old(Parts(peers, ledger));
      w', rs := GatherPrepares(proposal, events, responses, w);
    }

    method FileAcceptance(own: Request, event: Event, responses: array<Option<AcceptResponse>>, ghost w: World, ghost rs: Replies)
      returns (ghost w': World, ghost rs': Replies)
      requires Ready(w) && SlotIn(event, |peers|) && |peers| == |rs| && own.Accept?
      requires responses !in Parts(peers, ledger) && responses[..] == AsAccepts(rs)
      modifies Parts(peers, ledger), responses
      ensures Ready(w') && fresh(Parts(peers, ledger) - old(Parts(peers, ledger)))
      ensures responses !in Parts(peers, ledger) && responses[..] == AsAccepts(rs')
      ensures (w', rs') == Happen(Ids(peers), w, own, rs, event)
    {
      var reply;
      reply, w', rs' := Occur(peers, ledger, w, own, rs, event);
      if reply.Some? {
        FileAccept(rs, event.slot, reply.value.accept);
        responses[event.slot] := Some(reply.value.accept);
      }
    }

    /** The fan-out of phase 2. */
    method GatherAccepts(own: Request, events: seq<Event>, responses: array<Option<AcceptResponse>>, ghost w: World)
      returns (ghost w': World, ghost rs: Replies)
      requires Ready(w) && SlotsIn(events, |peers|) && own.Accept?
      requires responses !in Parts(peers, ledger) && responses.Length == |peers|
      requires responses[..] == AsAccepts(Silence(|peers|))
      modifies Parts(peers, ledger), responses
      ensures Ready(w') && fresh(Parts(peers, ledger) - old(Parts(peers, ledger)))
      ensures (w', rs) == Broadcast(Ids(peers), w, own, events)
      ensures responses[..] == AsAccepts(rs)
    {
      ghost var ids := Ids(peers);
      w', rs := w, Silence(|peers|);
      assert events[..0] == [];
      for i := 0 to |events|
        invariant Ready(w')
        invariant fresh(Parts(peers, ledger) - old(Parts(peers, ledger)))
        invariant responses !in Parts(peers, ledger)
        invariant (w', rs) == Broadcast(ids, w, own, events[..i])
        invariant responses[..] == AsAccepts(rs)
      {
        BroadcastStep(ids, w, own, events, i);
        w', rs := FileAcceptance(own, events[i], responses, w', rs);
      }
      assert events[..|events|] == events;
    }

    method Accept(proposal: Ballot, v: Value, events: seq<Event>, ghost w: World)
      returns (result: AcceptTally, ghost w': World, ghost rs: Replies)
      requires Ready(w) && SlotsIn(events, |peers|)
      modifies Parts(peers, ledger)
      ensures Ready(w') && fresh(Parts(peers, ledger) - old(Parts(peers, ledger)))
      ensures (w', rs) == Broadcast(Ids(peers), w, Request.Accept(proposal, v), events)
      ensures IsAcceptTally(AsAccepts(rs), result)
    {
      var responses;
      responses, w', rs := AllAccepts(Request.Accept(proposal, v), events, w);
      result := TallyAccepts(responses);
    }

    method AllAccepts(own: Request, events: seq<Event>, ghost w: World)
      returns (responses: array<Option<AcceptResponse>>, ghost w': World, ghost rs: Replies)
      requires Ready(w) && SlotsIn(events, |peers|) && own.Accept?
      modifies Parts(peers, ledger)
      ensures Ready(w') && fresh(Parts(peers, ledger) - old(Parts(peers, ledger)))
      ensures (w', rs) == Broadcast(Ids(peers), w, own, events)
      ensures responses[..] == AsAccepts(rs)
    {
      responses := new Option<AcceptResponse>[|peers|](_ => None);
      assert responses[..] == AsAccepts(Silence(|peers|)) && Parts(peers, ledger) == old(Parts(peers, ledger));
      w', rs := GatherAccepts(own, events, responses, w);
    }

    /** The first half of a round: a ballot, its prepares, and the verdict on them, if there is one yet. */
    method Begin(script: Script, ghost w: World) returns (attempt: Attempt, ghost w1: World, ghost rs: Replies)
      requires Ready(w) && ScriptFits(script, |peers|)
      modifies this, Parts(peers, ledger)
      ensures Ready(w1) && fresh(Parts(peers, ledger) - old(Parts(peers, ledger)))
      ensures FirstPhase(old(View()), w, script, w1, rs, attempt)
      ensures View() == old(View()).(round := old(round) + 1)
    {
      var proposal := NextProposalNumber();
      attempt := Attempt(proposal, 0, Unknown, 0, 0, Quorum(), false, ZERO);
      var prepared;
      prepared, w1, rs := Prepare(proposal, script.first, w);
      attempt := attempt.(promises := prepared.promises, value := prepared.value, adopted := prepared.adopted,
                          highestSeen := prepared.highestSeen);
      if script.gone1 {
        attempt := attempt.(outcome := Aborted);
      } else if attempt.promises < Quorum() {
        attempt := attempt.(outcome := PrepareFailed);
      }
      assert attempt == AfterPrepare(Opened(proposal, Quorum()), prepared, script.gone1);
    }

    /** The second half of a round, after a quorum of promises. */
    method Conclude(a1: Attempt, script: Script, ghost w1: World)
      returns (attempt: Attempt, ghost w': World, ghost rs: Replies)
      requires Ready(w1) && SlotsIn(script.second, |peers|) && a1.quorum == Quorum()
      modifies Parts(peers, ledger)
      ensures Ready(w') && fresh(Parts(peers, ledger) - old(Parts(peers, ledger)))
      ensures (w', rs) == Broadcast(Ids(peers), w1, Request.Accept(a1.ballot, a1.value), script.second)
      ensures exists tally :: IsAcceptTally(AsAccepts(rs), tally) && attempt == AfterAccept(a1, tally, script.gone2)
    {
      attempt := a1;
      var accepted;
      accepted, w', rs := Accept(attempt.ballot, attempt.value, script.second, w1);
      attempt := attempt.(accepts := accepted.accepts, highestSeen := Max(attempt.highestSeen, accepted.highestSeen));
      if attempt.accepts < Quorum() {
        attempt := attempt.(outcome := if script.gone2 then Aborted else AcceptFailed);
      } else {
        attempt := attempt.(outcome := Chosen);
      }
      assert attempt == AfterAccept(a1, accepted, script.gone2);
    }

    /** One round. It issues a ballot unless the caller has already gone. */
    method Propose(script: Script, ghost w: World) returns (attempt: Attempt, ghost w': World)
      requires Ready(w) && ScriptFits(script, |peers|)
      modifies this, Parts(peers, ledger)
      ensures Ready(w') && fresh(Parts(peers, ledger) - old(Parts(peers, ledger)))
      ensures script.gone ==>
        w' == w && round == old(round) && attempt == Attempt(ZERO, 0, Aborted, 0, 0, |peers| / 2 + 1, false, ZERO)
      ensures !script.gone ==>
        IsRound(old(View()), w, script, w', attempt) && View() == old(View()).(round := old(round) + 1)
    {
      if script.gone {
        return Attempt(ZERO, 0, Aborted, 0, 0, Quorum(), false, ZERO), w;
      }
      ghost var obj, w1, rs, rs2 := View(), w, Silence(|peers|), Silence(|peers|);
      attempt, w1, rs := Begin(script, w);
      w' := w1;
      if attempt.outcome.Unknown? {
        ghost var a1 := attempt;
        attempt, w', rs2 := Conclude(attempt, script, w1);
        RoundGoesThrough(obj, w, script, w1, rs, a1, w', rs2, attempt);
      } else {
        RoundEndsEarly(obj, w, script, w1, rs, attempt);
      }
    }

    /** The jump after a failed attempt leaves the peers alone. */
    method JumpPast(attempt: Attempt, ghost w: World)
      requires Ready(w)
      modifies this`round
      ensures Ready(w) && Parts(peers, ledger) == old(Parts(peers, ledger))
      ensures View() == Forwarded(old(View()), attempt.highestSeen)
    {
      FastForwardProposalNumber(attempt.highestSeen);
    }

    /** One turn of the campaign's loop: a round, and after a failure the jump past the highest ballot seen. */
    method TakeTurn(turn: Turn, last: bool, ghost w: World) returns (attempt: Attempt, done: bool, ghost w': World)
      requires Ready(w) && ScriptFits(turn.script, |peers|)
      modifies this, Parts(peers, ledger)
      ensures Ready(w') && fresh(Parts(peers, ledger) - old(Parts(peers, ledger)))
      ensures done ==> LastTurn(Stand(old(View()), w), turn, last, Stand(View(), w'), attempt)
      ensures !done ==> !last && FailedTurn(Stand(old(View()), w), turn, Stand(View(), w'), attempt)
    {
      ghost var at := Stand(View(), w);
      attempt, w' := Propose(turn.script, w);
      TurnComes(at, turn, last, w', attempt);
      if attempt.outcome.Chosen? || attempt.outcome.Aborted? {
        done := true;
        return;
      }
      assert fresh(Parts(peers, ledger) - old(Parts(peers, ledger)));
      JumpPast(attempt, w');
      done := turn.stop || last;
    }

    /** Propose until a value is chosen or the caller goes, which it does at the latest in the last turn. The backoff is
        the wait before the next attempt, doubled after each failed one. A quiet campaign with more turns than peers
        ahead of it ends chosen. */
    method Campaign(turns: seq<Turn>, ghost w: World)
      returns (attempt: Attempt, cancelled: bool, backoff: Duration, ghost path: seq<Stand>, ghost failed: seq<Attempt>, ghost w': World)
      requires Ready(w) && TurnsFit(turns, |peers|) && turns != []
      modifies this, Parts(peers, ledger)
      ensures Ready(w') && fresh(Parts(peers, ledger) - old(Parts(peers, ledger)))
      ensures IsCampaign(turns, path, failed, Stand(View(), w'), attempt) && path[0] == Stand(old(View()), w)
      ensures backoff == BackoffAfter(cfg, |failed|)
      ensures cancelled <==> !attempt.outcome.Chosen?
      ensures Assured(path[0], turns, attempt)
    {
      backoff, w' := cfg.minBackoff, w;
      path, failed := [Stand(View(), w)], [];
      var i := 0;
      while true
        invariant 0 <= i < |turns| && i == |failed| && backoff == BackoffAfter(cfg, i)
        invariant Ready(w') && fresh(Parts(peers, ledger) - old(Parts(peers, ledger)))
        invariant AllFailed(path, failed, turns) && path[0] == Stand(old(View()), w) && path[i] == Stand(View(), w')
        decreases |turns| - i
      {
        var done;
        attempt, done, w' := TakeTurn(turns[i], i == |turns| - 1, w');
        assert fresh(Parts(peers, ledger) - old(Parts(peers, ledger)));
        if done {
          break;
        }
        PathGrows(path, failed, turns, Stand(View(), w'), attempt);
        path, failed := path + [Stand(View(), w')], failed + [attempt];
        backoff := NextBackoff(backoff, cfg.maxBackoff);
        i := i + 1;
      }
      CampaignIsAssured(turns, path, failed, Stand(View(), w'), attempt);
      cancelled := !attempt.outcome.Chosen?;
    }
  }
}
