/** One broadcast of a proposer, run against the machines of its peers, and one whole round made of two
    broadcasts (pkg/paxos/prepare.go:31-46, pkg/paxos/accept.go:26-40, pkg/paxos/proposer.go:85-147). The calls of a
    broadcast run concurrently, so a broadcast is a list of events in any order. */
module Broadcasts {
  import opened Ballots
  import opened Wrappers
  import opened Acceptors
  import opened Quorums
  import opened Tallies
  import opened Attempts
  import opened Protocol

  /** What can happen while a broadcast is out. Call is the proposer's own request arriving, its reply making it back or
      not; a request that never arrives is no event. Late is the same call going on at an acceptor that is no longer the
      peer's, one of the cluster's spares, and in state st. The rest is the doing of others: a request of their round u
      arrives at a peer or goes on at a spare, a peer goes down or comes up, a restart puts its loaded acceptor in place,
      or they take a step that touches no peer. */
  datatype Event =
    | Call(slot: nat, save: SaveOutcome, replied: bool)
    | Late(slot: nat, spare: nat, st: AcceptorState, save: SaveOutcome, replied: bool)
    | Foreign(slot: nat, u: nat, req: Request, save: SaveOutcome)
    | ForeignLate(slot: nat, spare: nat, st: AcceptorState, u: nat, req: Request, save: SaveOutcome)
    | Swap(slot: nat, spare: nat, st: AcceptorState)
    | Down(slot: nat)
    | Up(slot: nat)
    | Elsewhere(action: Action)

  /** The peers' machines, slot by slot, and the ledger of the harness they report to. */
  datatype World = World(machines: seq<Machine>, ledger: seq<Vote>)

  type Replies = seq<Option<Reply>>

  function Serve(id: int, w: World, slot: nat, req: Request, save: SaveOutcome): (World, Option<Reply>)
    requires slot < |w.machines|
  {
    var (m, reply) := Handle(id, w.machines[slot], req, save);
    (World(w.machines[slot := m],
           if Confirmed(id, req, reply) == {} then w.ledger else w.ledger + [Vote(id, req.ballot, req.value)]),
     reply)
  }

  /** A request served at an old acceptor in state st: it works on the peer's disk and leaves the peer's memory alone. */
  function ServeLate(id: int, w: World, slot: nat, st: AcceptorState, req: Request, save: SaveOutcome): (World, Option<Reply>)
    requires slot < |w.machines|
  {
    var (m, reply) := Handle(id, Machine(Some(st), w.machines[slot].disk), req, save);
    (World(w.machines[slot := w.machines[slot].(disk := m.disk)],
           if Confirmed(id, req, reply) == {} then w.ledger else w.ledger + [Vote(id, req.ballot, req.value)]),
     reply)
  }

  /** One event: what becomes of the world and of the proposer's reply slots. */
  function Happen(peers: seq<int>, w: World, own: Request, rs: Replies, event: Event): (World, Replies)
    requires |peers| == |w.machines| == |rs| && SlotIn(event, |peers|)
  {
    match event
    case Call(i, save, replied) =>
      var (w', reply) := Serve(peers[i], w, i, own, save);
      (w', if reply.Some? && replied then rs[i := reply] else rs)
    case Late(i, _, st, save, replied) =>
      var (w', reply) := ServeLate(peers[i], w, i, st, own, save);
      (w', if reply.Some? && replied then rs[i := reply] else rs)
    case Foreign(i, _, req, save) => (Serve(peers[i], w, i, req, save).0, rs)
    case ForeignLate(i, _, st, _, req, save) => (ServeLate(peers[i], w, i, st, req, save).0, rs)
    case Swap(i, _, st) => (w.(machines := w.machines[i := w.machines[i].(mem := Some(st))]), rs)
    case Down(i) => (w.(machines := w.machines[i := Crash(w.machines[i])]), rs)
    case Up(i) => (w.(machines := w.machines[i := Restart(w.machines[i])]), rs)
    case Elsewhere(_) => (w, rs)
  }

  predicate SlotIn(event: Event, n: nat) {
    event.Elsewhere? || event.slot < n
  }

  predicate SlotsIn(events: seq<Event>, n: nat) {
    forall e | e in events :: SlotIn(e, n)
  }

  function Silence(n: nat): (rs: Replies)
    ensures |rs| == n && forall i | 0 <= i < n :: rs[i].None?
  {
    seq(n, _ => None)
  }

  /** The whole broadcast: the world after all its events and the replies gathered. */
  function Broadcast(peers: seq<int>, w: World, own: Request, events: seq<Event>): (r: (World, Replies))
    requires |peers| == |w.machines| && SlotsIn(events, |peers|)
    ensures |r.0.machines| == |r.1| == |peers|
    decreases |events|
  {
    if events == [] then (w, Silence(|peers|))
    else
      var last := |events| - 1;
      var (w', rs) := Broadcast(peers, w, own, events[..last]);
      Happen(peers, w', own, rs, events[last])
  }

  function AsPrepares(rs: Replies): (ps: PrepareSlots)
    ensures |ps| == |rs|
  {
    seq(|rs|, i requires 0 <= i < |rs| =>
      if rs[i].Some? && rs[i].value.Promise? then Some(rs[i].value.prepare) else None)
  }

  function AsAccepts(rs: Replies): (qs: AcceptSlots)
    ensures |qs| == |rs|
  {
    seq(|rs|, i requires 0 <= i < |rs| =>
      if rs[i].Some? && rs[i].value.Acceptance? then Some(rs[i].value.accept) else None)
  }

  /** What the outside does to one call of Propose: whether the caller has already gone, the events of each
      broadcast, and whether the caller is found gone after it. A round that only ran into its own timeout does not
      count as abandoned. */
  datatype Script = Script(gone: bool, first: seq<Event>, gone1: bool, second: seq<Event>, gone2: bool)

  predicate ScriptFits(script: Script, n: nat) {
    SlotsIn(script.first, n) && SlotsIn(script.second, n)
  }

  function NextBallot(obj: ProposerObj): Ballot {
    Ballot(obj.round + 1, obj.id)
  }

  ghost predicate FirstPhase(obj: ProposerObj, w: World, script: Script, w1: World, rs: Replies, a1: Attempt)
    requires |obj.peers| == |w.machines| && ScriptFits(script, |obj.peers|)
  {
    var b := NextBallot(obj);
    && (w1, rs) == Broadcast(obj.peers, w, Prepare(b), script.first)
    && exists tally :: IsPrepareTally(obj.value, AsPrepares(rs), tally)
                    && a1 == AfterPrepare(Opened(b, QuorumSize(|obj.peers|)), tally, script.gone1)
  }

  ghost predicate SecondPhase(obj: ProposerObj, w1: World, a1: Attempt, script: Script, w2: World, rs: Replies, a2: Attempt)
    requires |obj.peers| == |w1.machines| && ScriptFits(script, |obj.peers|)
  {
    && (w2, rs) == Broadcast(obj.peers, w1, Accept(a1.ballot, a1.value), script.second)
    && exists tally :: IsAcceptTally(AsAccepts(rs), tally) && a2 == AfterAccept(a1, tally, script.gone2)
  }

  /** A round as Propose runs it: from world w and proposer obj to world w' and the attempt it returns. */
  ghost predicate IsRound(obj: ProposerObj, w: World, script: Script, w': World, attempt: Attempt)
    requires |obj.peers| == |w.machines| && ScriptFits(script, |obj.peers|)
  {
    exists w1, rs, a1 ::
      && FirstPhase(obj, w, script, w1, rs, a1)
      && if a1.outcome.Unknown? then exists rs2 :: SecondPhase(obj, w1, a1, script, w', rs2, attempt)
         else w' == w1 && attempt == a1
  }

  // ---- every round is a run of the cluster ----

  /** The world is what the cluster state says of the peers. */
  ghost predicate Shows(s: Cluster, peers: seq<int>, w: World) {
    && Enumerates(peers, s.nodes.Keys) && |w.machines| == |peers| && w.ledger == s.ledger
    && forall i | 0 <= i < |peers| :: peers[i] in s.nodes && s.nodes[peers[i]] == w.machines[i]
  }

  /** The cluster's step that an event of round t is. */
  function ActionOf(t: nat, peers: seq<int>, own: Request, event: Event): Action
    requires SlotIn(event, |peers|)
  {
    match event
    case Call(i, save, _) => Deliver(peers[i], t, own, save)
    case Late(_, spare, _, save, _) => Straggle(spare, t, own, save)
    case Foreign(i, u, req, save) => Deliver(peers[i], u, req, save)
    case ForeignLate(_, spare, _, u, req, save) => Straggle(spare, u, req, save)
    case Swap(_, spare, _) => Install(spare)
    case Down(i) => CrashNode(peers[i])
    case Up(i) => RestartNode(peers[i])
    case Elsewhere(action) => action
  }

  function ActionsOf(t: nat, peers: seq<int>, own: Request, events: seq<Event>): (actions: seq<Action>)
    requires SlotsIn(events, |peers|)
    ensures |actions| == |events|
  {
    seq(|events|, i requires 0 <= i < |events| => assert events[i] in events; ActionOf(t, peers, own, events[i]))
  }

  /** A step that touches no peer and nothing of proposer k: any step of another proposer, a new proposer, something
      learned, and what becomes of superseded acceptors as long as they save nothing. */
  predicate Away(s: Cluster, k: nat, action: Action) {
    match action
    case Spawn(_) => true
    case Start(j) => j != k
    case TallyPrepare(t, _, _, _) => OfOther(s, k, t)
    case TallyAccept(t, _, _, _) => OfOther(s, k, t)
    case FastForward(t) => OfOther(s, k, t)
    case Learn(_) => true
    case Load(_) => true
    case Straggle(_, _, _, save) => save.Refused?
    case _ => false
  }

  predicate OfOther(s: Cluster, k: nat, t: nat) {
    t < |s.rounds| && s.rounds[t].obj != k
  }

  /** The spare is what the event says it is. */
  predicate IsSpare(s: Cluster, peers: seq<int>, slot: nat, spare: nat, st: AcceptorState)
    requires slot < |peers|
  {
    spare < |s.spares| && s.spares[spare].acceptor == peers[slot] && s.spares[spare].st == st
  }

  /** What happens in state s beside the proposer's own calls is possible there, and leaves proposer k alone. */
  ghost predicate Legal(s: Cluster, k: nat, t: nat, peers: seq<int>, own: Request, event: Event)
    requires SlotIn(event, |peers|)
  {
    match event
    case Late(i, spare, st, _, _) => IsSpare(s, peers, i, spare, st) && Enabled(s, ActionOf(t, peers, own, event))
    case Foreign(_, u, req, _) => Sent(u, req) in s.net
    case ForeignLate(i, spare, st, _, _, _) => IsSpare(s, peers, i, spare, st) && Enabled(s, ActionOf(t, peers, own, event))
    case Swap(i, spare, st) => IsSpare(s, peers, i, spare, st) && Enabled(s, ActionOf(t, peers, own, event))
    case Elsewhere(action) => Enabled(s, action) && Away(s, k, action)
    case _ => true
  }

  /** Others do what is possible when they do it. */
  ghost predicate Fair(s: Cluster, k: nat, t: nat, peers: seq<int>, own: Request, events: seq<Event>) {
    SlotsIn(events, |peers|) &&
    forall i, mid | 0 <= i < |events| && SlotsIn(events[..i], |peers|)
                 && Leads(s, ActionsOf(t, peers, own, events[..i]), mid) :: SlotIn(events[i], |peers|) && Legal(mid, k, t, peers, own, events[i])
  }

  /** Only acceptors have moved, and no node has changed its acceptor. */
  ghost predicate OnlyServed(s: Cluster, s': Cluster) {
    && s'.objs == s.objs && s'.rounds == s.rounds && s'.decisions == s.decisions && s'.spares == s.spares
    && s'.sealed == s.sealed && s'.exclusive == s.exclusive && s.net <= s'.net
    && (forall u: nat, req | Sent(u, req) in s'.net :: Sent(u, req) in s.net)
  }

  /** Whatever others have done, proposer k, its rounds and its requests are as they were. */
  ghost predicate Aside(s: Cluster, k: nat, s': Cluster) {
    && k < |s.objs| <= |s'.objs| && s'.objs[k] == s.objs[k] && |s.rounds| <= |s'.rounds|
    && (forall u | 0 <= u < |s.rounds| :: SameRound(k, s.rounds[u], s'.rounds[u]))
    && (forall u | |s.rounds| <= u < |s'.rounds| :: s'.rounds[u].obj != k)
    && s.net <= s'.net
    && (forall u: nat, req | Sent(u, req) in s'.net && Sent(u, req) !in s.net :: OfOther(s', k, u))
  }

  predicate SameRound(k: nat, round: Round, round': Round) {
    round'.obj == round.obj && (round.obj == k ==> round' == round)
  }

  lemma AsideThrough(s: Cluster, k: nat, s1: Cluster, s2: Cluster)
    requires Aside(s, k, s1) && Aside(s1, k, s2)
    ensures Aside(s, k, s2)
  {
    forall u | 0 <= u < |s2.rounds|
      ensures if u < |s.rounds| then SameRound(k, s.rounds[u], s2.rounds[u]) else s2.rounds[u].obj != k
    {
      if u < |s1.rounds| {
        assert SameRound(k, s1.rounds[u], s2.rounds[u]);
        if u < |s.rounds| { assert SameRound(k, s.rounds[u], s1.rounds[u]); }
      }
    }
    forall u: nat, req | Sent(u, req) in s2.net && Sent(u, req) !in s.net ensures OfOther(s2, k, u) {
      if Sent(u, req) in s1.net {
        assert OfOther(s1, k, u) && SameRound(k, s1.rounds[u], s2.rounds[u]);
      }
    }
  }

  ghost predicate Gathered(s: Cluster, t: nat, peers: seq<int>, rs: Replies) {
    |rs| == |peers| && forall i | 0 <= i < |rs| && rs[i].Some? :: Replied(t, peers[i], rs[i].value) in s.net
  }

  lemma AcceptorsAreAside(s: Cluster, k: nat, action: Action)
    requires k < |s.objs| && Enabled(s, action)
    requires action.Deliver? || action.CrashNode? || action.RestartNode? || action.Load? || action.Straggle? || action.Install?
    ensures Aside(s, k, Do(s, action))
  {
  }

  lemma TalliesAreAside(s: Cluster, k: nat, action: Action)
    requires k < |s.objs| && Enabled(s, action) && Away(s, k, action)
    requires action.TallyPrepare? || action.TallyAccept?
    ensures Aside(s, k, Do(s, action)) && Do(s, action).nodes == s.nodes && Do(s, action).ledger == s.ledger
  {
    TalliesRewriteOneRound(s, action);
  }

  lemma ElsewhereIsAside(s: Cluster, k: nat, action: Action)
    requires k < |s.objs| && Enabled(s, action) && Away(s, k, action)
    ensures Aside(s, k, Do(s, action)) && Do(s, action).nodes == s.nodes && Do(s, action).ledger == s.ledger
  {
    if action.Load? || action.Straggle? {
      AcceptorsAreAside(s, k, action);
      assert Do(s, action).nodes == s.nodes;
    } else if action.TallyPrepare? || action.TallyAccept? {
      TalliesAreAside(s, k, action);
    }
  }

  /** A call that goes on at a spare is the cluster's step for it. */
  lemma LateIsAction(s: Cluster, k: nat, t: nat, peers: seq<int>, w: World, i: nat, spare: nat, st: AcceptorState, req: Request, save: SaveOutcome)
    requires k < |s.objs| && Shows(s, peers, w) && i < |peers| && IsSpare(s, peers, i, spare, st)
    requires Enabled(s, Straggle(spare, t, req, save))
    ensures Aside(s, k, DoStraggle(s, spare, t, req, save))
    ensures var s', (w', reply) := DoStraggle(s, spare, t, req, save), ServeLate(peers[i], w, i, st, req, save);
            && Shows(s', peers, w') && s.net <= s'.net
            && (reply.Some? ==> Replied(t, peers[i], reply.value) in s'.net)
  {
    AcceptorsAreAside(s, k, Straggle(spare, t, req, save));
  }

  /** A restart that puts its acceptor in place is the cluster's step for it. */
  lemma SwapIsAction(s: Cluster, k: nat, peers: seq<int>, w: World, i: nat, spare: nat, st: AcceptorState)
    requires k < |s.objs| && Shows(s, peers, w) && i < |peers| && IsSpare(s, peers, i, spare, st)
    requires Enabled(s, Install(spare))
    ensures Aside(s, k, DoInstall(s, spare)) && s.net <= DoInstall(s, spare).net
    ensures Shows(DoInstall(s, spare), peers, w.(machines := w.machines[i := w.machines[i].(mem := Some(st))]))
  {
    AcceptorsAreAside(s, k, Install(spare));
  }

  lemma EventIsAction(s: Cluster, k: nat, t: nat, peers: seq<int>, w: World, own: Request, rs: Replies, event: Event)
    requires k < |s.objs| && Shows(s, peers, w) && Gathered(s, t, peers, rs) && SlotIn(event, |peers|)
    requires Sent(t, own) in s.net && Legal(s, k, t, peers, own, event)
    ensures var action := ActionOf(t, peers, own, event);
            && Enabled(s, action) && Aside(s, k, Do(s, action)) && (event.Call? ==> OnlyServed(s, Do(s, action)))
    ensures var s', (w', rs') := Do(s, ActionOf(t, peers, own, event)), Happen(peers, w, own, rs, event);
            Shows(s', peers, w') && Gathered(s', t, peers, rs')
  {
    match event
    case Elsewhere(action) => ElsewhereIsAside(s, k, action);
    case Late(_, _, _, _, _) => SpareEventIsAction(s, k, t, peers, w, own, rs, event);
    case ForeignLate(_, _, _, _, _, _) => SpareEventIsAction(s, k, t, peers, w, own, rs, event);
    case Swap(_, _, _) => SpareEventIsAction(s, k, t, peers, w, own, rs, event);
    case _ =>
      AcceptorsAreAside(s, k, ActionOf(t, peers, own, event));
      PeerEventIsAction(s, k, t, peers, w, own, rs, event);
  }

  lemma SpareEventIsAction(s: Cluster, k: nat, t: nat, peers: seq<int>, w: World, own: Request, rs: Replies, event: Event)
    requires k < |s.objs| && Shows(s, peers, w) && Gathered(s, t, peers, rs) && SlotIn(event, |peers|)
    requires (event.Late? || event.ForeignLate? || event.Swap?) && Legal(s, k, t, peers, own, event)
    ensures var action := ActionOf(t, peers, own, event); Enabled(s, action) && Aside(s, k, Do(s, action))
    ensures var s', (w', rs') := Do(s, ActionOf(t, peers, own, event)), Happen(peers, w, own, rs, event);
            Shows(s', peers, w') && Gathered(s', t, peers, rs')
  {
    match event
    case Late(i, spare, st, save, _) => LateIsAction(s, k, t, peers, w, i, spare, st, own, save);
    case ForeignLate(i, spare, st, u, req, save) => LateIsAction(s, k, u, peers, w, i, spare, st, req, save);
    case Swap(i, spare, st) => SwapIsAction(s, k, peers, w, i, spare, st);
  }

  lemma PeerEventIsAction(s: Cluster, k: nat, t: nat, peers: seq<int>, w: World, own: Request, rs: Replies, event: Event)
    requires k < |s.objs| && Shows(s, peers, w) && Gathered(s, t, peers, rs) && SlotIn(event, |peers|)
    requires event.Call? || event.Foreign? || event.Down? || event.Up?
    requires Sent(t, own) in s.net && Legal(s, k, t, peers, own, event)
    ensures var action := ActionOf(t, peers, own, event);
            Enabled(s, action) && (event.Call? ==> OnlyServed(s, Do(s, action)))
    ensures var s', (w', rs') := Do(s, ActionOf(t, peers, own, event)), Happen(peers, w, own, rs, event);
            Shows(s', peers, w') && Gathered(s', t, peers, rs')
  {
    match event
    case Call(i, save, _) => ServedIsAction(s, t, peers, w, i, own, save);
    case Foreign(i, u, req, save) => ServedIsAction(s, u, peers, w, i, req, save);
    case _ =>
  }

  /** A call that a peer's acceptor serves is the cluster's step for it. */
  lemma ServedIsAction(s: Cluster, t: nat, peers: seq<int>, w: World, i: nat, req: Request, save: SaveOutcome)
    requires Shows(s, peers, w) && i < |peers|
    ensures var s', (w', reply) := DoDeliver(s, peers[i], t, req, save), Serve(peers[i], w, i, req, save);
            && Shows(s', peers, w') && OnlyServed(s, s')
            && (reply.Some? ==> Replied(t, peers[i], reply.value) in s'.net)
  {
  }

  predicate CallsOnly(events: seq<Event>) {
    forall e | e in events :: e.Call?
  }

  /** Nobody else about is fair. */
  lemma CallsAreFair(s: Cluster, k: nat, t: nat, peers: seq<int>, own: Request, events: seq<Event>)
    requires SlotsIn(events, |peers|) && CallsOnly(events)
    ensures Fair(s, k, t, peers, own, events)
  {
  }

  lemma FairBefore(s: Cluster, k: nat, t: nat, peers: seq<int>, own: Request, events: seq<Event>)
    requires events != [] && Fair(s, k, t, peers, own, events)
    ensures Fair(s, k, t, peers, own, events[..|events| - 1])
  {
    var before := events[..|events| - 1];
    forall i, mid | 0 <= i < |before| && SlotsIn(before[..i], |peers|)
                 && Leads(s, ActionsOf(t, peers, own, before[..i]), mid)
      ensures SlotIn(before[i], |peers|) && Legal(mid, k, t, peers, own, before[i])
    {
      assert before[..i] == events[..i];
    }
  }

  /** A broadcast is a run, event by event. */
  lemma {:induction false} BroadcastIsRun(s: Cluster, k: nat, t: nat, peers: seq<int>, w: World, own: Request, events: seq<Event>)
    returns (s': Cluster)
    requires k < |s.objs| && Shows(s, peers, w) && Sent(t, own) in s.net && Fair(s, k, t, peers, own, events)
    ensures Leads(s, ActionsOf(t, peers, own, events), s') && Aside(s, k, s')
    ensures CallsOnly(events) ==> OnlyServed(s, s')
    ensures var (w', rs) := Broadcast(peers, w, own, events);
            Shows(s', peers, w') && Gathered(s', t, peers, rs)
    decreases |events|
  {
    if events == [] {
      s' := s;
    } else {
      var last := |events| - 1;
      FairBefore(s, k, t, peers, own, events);
      var mid := BroadcastIsRun(s, k, t, peers, w, own, events[..last]);
      var (w1, rs) := Broadcast(peers, w, own, events[..last]);
      assert events[last] in events && Legal(mid, k, t, peers, own, events[last]);
      EventIsAction(mid, k, t, peers, w1, own, rs, events[last]);
      s' := Do(mid, ActionOf(t, peers, own, events[last]));
      AsideThrough(s, k, mid, s');
      ActionsGrow(s, t, peers, own, events, mid);
    }
  }

  lemma ActionsGrow(s: Cluster, t: nat, peers: seq<int>, own: Request, events: seq<Event>, mid: Cluster)
    requires events != [] && SlotsIn(events, |peers|) && SlotsIn(events[..|events| - 1], |peers|)
    requires Leads(s, ActionsOf(t, peers, own, events[..|events| - 1]), mid)
    requires SlotIn(events[|events| - 1], |peers|) && Enabled(mid, ActionOf(t, peers, own, events[|events| - 1]))
    ensures Leads(s, ActionsOf(t, peers, own, events), Do(mid, ActionOf(t, peers, own, events[|events| - 1])))
  {
    var before, action := ActionsOf(t, peers, own, events[..|events| - 1]), ActionOf(t, peers, own, events[|events| - 1]);
    OneStep(mid, action);
    LeadsThrough(s, before, mid, [action], Do(mid, action));
    assert ActionsOf(t, peers, own, events) == before + [action];
  }

  lemma {:induction false} OneStep(s: Cluster, action: Action)
    requires Enabled(s, action)
    ensures Leads(s, [action], Do(s, action))
  {
    assert [action][1..] == [];
  }

  // ---- one round ----

  /** The state once round t of proposer k, having heard, has tallied its promises. */
  function Tallied(heard: Cluster, k: nat, t: nat, a1: Attempt): Cluster
    requires t < |heard.rounds|
  {
    heard.(rounds := heard.rounds[t := Round(k, a1.outcome.Unknown?, a1)],
           net := heard.net + (if a1.outcome.Unknown? then {Sent(t, Accept(a1.ballot, a1.value))} else {}))
  }

  /** The first phase leads from s, over the events of its broadcast, to the tally in s1. */
  ghost predicate Prepared(s: Cluster, k: nat, w: World, script: Script, s1: Cluster, w1: World, rs: Replies, a1: Attempt)
    requires k < |s.objs| && |s.objs[k].peers| == |w.machines| && ScriptFits(script, |s.objs[k].peers|)
  {
    && FirstPhase(s.objs[k], w, script, w1, rs, a1)
    && exists heard ::
         && Leads(DoStart(s, k), ActionsOf(|s.rounds|, s.objs[k].peers, Prepare(NextBallot(s.objs[k])), script.first), heard)
         && |s.rounds| < |heard.rounds| && s1 == Tallied(heard, k, |s.rounds|, a1)
  }

  /** The second phase leads from s1, over the events of its broadcast, to the tally in s'. */
  ghost predicate Settled(t: nat, k: nat, obj: ProposerObj, s1: Cluster, w1: World, a1: Attempt, script: Script, s': Cluster,
                          w2: World, rs: Replies, a2: Attempt)
    requires |obj.peers| == |w1.machines| && ScriptFits(script, |obj.peers|)
  {
    && SecondPhase(obj, w1, a1, script, w2, rs, a2)
    && exists heard ::
         && Leads(s1, ActionsOf(t, obj.peers, Accept(a1.ballot, a1.value), script.second), heard)
         && t < |heard.rounds| && s' == heard.(rounds := heard.rounds[t := Round(k, true, a2)])
  }

  /** Others do what is possible, in either phase of the round. */
  ghost predicate RoundFair(s: Cluster, k: nat, w: World, script: Script)
    requires k < |s.objs| && |s.objs[k].peers| == |w.machines| && ScriptFits(script, |s.objs[k].peers|)
  {
    && Fair(DoStart(s, k), k, |s.rounds|, s.objs[k].peers, Prepare(NextBallot(s.objs[k])), script.first)
    && forall s1, w1, rs, a1 | Prepared(s, k, w, script, s1, w1, rs, a1) && a1.outcome.Unknown? ::
         Fair(s1, k, |s.rounds|, s.objs[k].peers, Accept(a1.ballot, a1.value), script.second)
  }

  /** The state the whole round leads to. */
  ghost predicate RoundLeads(s: Cluster, k: nat, w: World, script: Script, s': Cluster)
    requires k < |s.objs| && |s.objs[k].peers| == |w.machines| && ScriptFits(script, |s.objs[k].peers|)
  {
    exists s1, w1, rs, a1 :: Prepared(s, k, w, script, s1, w1, rs, a1)
      && if a1.outcome.Unknown? then
           exists w2, rs2, a2 :: Settled(|s.rounds|, k, s.objs[k], s1, w1, a1, script, s', w2, rs2, a2)
         else s' == s1
  }

  /** The requests a round adds to the network: its prepare, and one accept exactly when it got past phase 1. */
  function Requests(t: nat, a1: Attempt): set<Message> {
    {Sent(t, Prepare(a1.ballot))} + (if a1.outcome.Unknown? then {Sent(t, Accept(a1.ballot, a1.value))} else {})
  }

  /** What a round does to its proposer's part of the cluster: it opens one round at the next ballot, with this outcome,
      and sends its own requests and nothing else. What others add is not the proposer's. */
  ghost predicate RoundAdded(s: Cluster, k: nat, a1: Attempt, attempt: Attempt, s': Cluster)
    requires k < |s.objs|
  {
    && |s.objs| <= |s'.objs| && s'.objs[k] == s.objs[k].(round := s.objs[k].round + 1)
    && |s.rounds| < |s'.rounds| && s'.rounds[|s.rounds|] == Round(k, a1.outcome.Unknown?, attempt)
    && (forall u | 0 <= u < |s.rounds| :: SameRound(k, s.rounds[u], s'.rounds[u]))
    && (forall u | |s.rounds| < u < |s'.rounds| :: s'.rounds[u].obj != k)
    && s.net <= s'.net && Requests(|s.rounds|, a1) <= s'.net
    && (forall u: nat, req | Sent(u, req) in s'.net && Sent(u, req) !in s.net ::
          Sent(u, req) in Requests(|s.rounds|, a1) || OfOther(s', k, u))
  }

  /** The proposer was alone, and no node changed its acceptor. */
  ghost predicate Alone(s: Cluster, k: nat, s': Cluster)
    requires k < |s.objs|
  {
    && s'.objs == s.objs[k := s.objs[k].(round := s.objs[k].round + 1)]
    && |s'.rounds| == |s.rounds| + 1 && s'.rounds[..|s.rounds|] == s.rounds
    && s'.spares == s.spares && s'.decisions == s.decisions && s'.sealed == s.sealed && s'.exclusive == s.exclusive
  }

  lemma StartedAside(s: Cluster, k: nat, heard: Cluster, a1: Attempt)
    requires k < |s.objs| && Aside(DoStart(s, k), k, heard) && a1.ballot == NextBallot(s.objs[k])
    ensures |s.rounds| < |heard.rounds| && heard.rounds[|s.rounds|] == DoStart(s, k).rounds[|s.rounds|]
    ensures RoundAdded(s, k, a1, a1, Tallied(heard, k, |s.rounds|, a1))
  {
    var t, begun, s' := |s.rounds|, DoStart(s, k), Tallied(heard, k, |s.rounds|, a1);
    assert SameRound(k, begun.rounds[t], heard.rounds[t]);
    assert Sent(t, Prepare(a1.ballot)) in begun.net;
    forall u | 0 <= u < |s.rounds| ensures SameRound(k, s.rounds[u], s'.rounds[u]) {
      assert SameRound(k, begun.rounds[u], heard.rounds[u]);
    }
    forall u: nat, req | Sent(u, req) in s'.net && Sent(u, req) !in s.net
      ensures Sent(u, req) in Requests(t, a1) || OfOther(s', k, u)
    {
      if Sent(u, req) in heard.net && Sent(u, req) !in begun.net {
        assert OfOther(heard, k, u);
      }
    }
  }

  /** Phase 1 of a round is a run: the ballot is begun, the events happen, the replies are tallied. */
  lemma FirstPhaseIsRun(s: Cluster, k: nat, w: World, script: Script, w1: World, rs: Replies, a1: Attempt)
    returns (actions: seq<Action>, s': Cluster)
    requires k < |s.objs| && Shows(s, s.objs[k].peers, w) && ScriptFits(script, |s.objs[k].peers|)
    requires Fair(DoStart(s, k), k, |s.rounds|, s.objs[k].peers, Prepare(NextBallot(s.objs[k])), script.first)
    requires FirstPhase(s.objs[k], w, script, w1, rs, a1)
    ensures Leads(s, actions, s') && Shows(s', s.objs[k].peers, w1)
    ensures RoundAdded(s, k, a1, a1, s') && Prepared(s, k, w, script, s', w1, rs, a1)
    ensures CallsOnly(script.first) ==> Alone(s, k, s')
  {
    var obj, b, t := s.objs[k], NextBallot(s.objs[k]), |s.rounds|;
    var begun := Do(s, Start(k));
    OneStep(s, Start(k));
    var heard := BroadcastIsRun(begun, k, t, obj.peers, w, Prepare(b), script.first);
    var served := ActionsOf(t, obj.peers, Prepare(b), script.first);
    LeadsThrough(s, [Start(k)], begun, served, heard);
    StartedAside(s, k, heard, a1);
    var end := TallyFirst(k, t, obj, w, script, w1, heard, rs, a1);
    LeadsThrough(s, [Start(k)] + served, heard, [end], Tallied(heard, k, t, a1));
    actions, s' := [Start(k)] + served + [end], Tallied(heard, k, t, a1);
  }

  lemma TallyFirst(k: nat, t: nat, obj: ProposerObj, w: World, script: Script, w1: World, heard: Cluster, rs: Replies, a1: Attempt)
    returns (end: Action)
    requires k < |heard.objs| && t < |heard.rounds|
    requires heard.objs[k].peers == obj.peers && heard.objs[k].value == obj.value
    requires heard.rounds[t] == Round(k, false, Opened(NextBallot(obj), QuorumSize(|obj.peers|)))
    requires |obj.peers| == |w.machines| && ScriptFits(script, |obj.peers|) && FirstPhase(obj, w, script, w1, rs, a1)
    requires Gathered(heard, t, obj.peers, rs)
    ensures Leads(heard, [end], Tallied(heard, k, t, a1))
  {
    var tally :| IsPrepareTally(obj.value, AsPrepares(rs), tally)
              && a1 == AfterPrepare(Opened(NextBallot(obj), QuorumSize(|obj.peers|)), tally, script.gone1);
    end := TallyOne(k, t, obj, heard, rs, tally, script.gone1);
  }

  /** The tally that ends phase 1 is a step. */
  lemma TallyOne(k: nat, t: nat, obj: ProposerObj, heard: Cluster, rs: Replies, tally: PrepareTally, abandoned: bool)
    returns (end: Action)
    requires k < |heard.objs| && t < |heard.rounds|
    requires heard.objs[k].peers == obj.peers && heard.objs[k].value == obj.value
    requires heard.rounds[t] == Round(k, false, Opened(NextBallot(obj), QuorumSize(|obj.peers|)))
    requires Gathered(heard, t, obj.peers, rs) && IsPrepareTally(obj.value, AsPrepares(rs), tally)
    ensures Enabled(heard, end) && Leads(heard, [end], Do(heard, end))
    ensures var a1 := AfterPrepare(Opened(NextBallot(obj), QuorumSize(|obj.peers|)), tally, abandoned);
            Do(heard, end) == Tallied(heard, k, t, a1)
  {
    end := TallyPrepare(t, AsPrepares(rs), tally, abandoned);
    assert Enabled(heard, end);
    OneStep(heard, end);
    assert heard.net + {} == heard.net;
  }

  lemma SecondPhaseIsRun(s: Cluster, k: nat, w1: World, a1: Attempt, script: Script, w2: World, rs: Replies, a2: Attempt, mid: Cluster)
    returns (actions: seq<Action>, s': Cluster)
    requires k < |s.objs| && RoundAdded(s, k, a1, a1, mid) && Shows(mid, s.objs[k].peers, w1)
    requires ScriptFits(script, |s.objs[k].peers|) && a1.outcome.Unknown?
    requires Fair(mid, k, |s.rounds|, s.objs[k].peers, Accept(a1.ballot, a1.value), script.second)
    requires SecondPhase(s.objs[k], w1, a1, script, w2, rs, a2)
    ensures Leads(mid, actions, s') && Shows(s', s.objs[k].peers, w2) && RoundAdded(s, k, a1, a2, s')
    ensures Settled(|s.rounds|, k, s.objs[k], mid, w1, a1, script, s', w2, rs, a2)
    ensures CallsOnly(script.second) && Alone(s, k, mid) ==> Alone(s, k, s')
  {
    var obj, t := s.objs[k], |s.rounds|;
    var heard := BroadcastIsRun(mid, k, t, obj.peers, w1, Accept(a1.ballot, a1.value), script.second);
    AddedAside(s, k, a1, mid, heard, a2);
    AloneAside(s, k, mid, heard, a1, a2);
    var tally :| IsAcceptTally(AsAccepts(rs), tally) && a2 == AfterAccept(a1, tally, script.gone2);
    var end := TallyTwo(k, t, obj.peers, heard, rs, a1, tally, script.gone2);
    var served := ActionsOf(t, obj.peers, Accept(a1.ballot, a1.value), script.second);
    LeadsThrough(mid, served, heard, [end], Do(heard, end));
    actions, s' := served + [end], Do(heard, end);
    HeardIsSettled(t, k, obj, mid, w1, a1, script, heard, w2, rs, a2);
  }

  lemma AloneAside(s: Cluster, k: nat, mid: Cluster, heard: Cluster, a1: Attempt, a2: Attempt)
    requires k < |s.objs| && |s.rounds| < |heard.rounds|
    ensures Alone(s, k, mid) && OnlyServed(mid, heard) ==> Alone(s, k, heard.(rounds := heard.rounds[|s.rounds| := Round(k, a1.outcome.Unknown?, a2)]))
  {
    var s' := heard.(rounds := heard.rounds[|s.rounds| := Round(k, a1.outcome.Unknown?, a2)]);
    assert s'.rounds[..|s.rounds|] == heard.rounds[..|s.rounds|];
  }

  /** The tally that ends phase 2 is a step. */
  lemma TallyTwo(k: nat, t: nat, peers: seq<int>, heard: Cluster, rs: Replies, a1: Attempt, tally: AcceptTally, abandoned: bool)
    returns (end: Action)
    requires k < |heard.objs| && t < |heard.rounds| && heard.objs[k].peers == peers
    requires heard.rounds[t] == Round(k, true, a1) && a1.outcome.Unknown?
    requires Gathered(heard, t, peers, rs) && IsAcceptTally(AsAccepts(rs), tally)
    ensures Enabled(heard, end) && Leads(heard, [end], Do(heard, end))
    ensures Do(heard, end) == heard.(rounds := heard.rounds[t := Round(k, true, AfterAccept(a1, tally, abandoned))])
  {
    end := TallyAccept(t, AsAccepts(rs), tally, abandoned);
    assert Enabled(heard, end);
    OneStep(heard, end);
  }

  lemma {:induction false} HeardIsSettled(t: nat, k: nat, obj: ProposerObj, s1: Cluster, w1: World, a1: Attempt, script: Script, heard: Cluster,
                       w2: World, rs: Replies, a2: Attempt)
    requires |obj.peers| == |w1.machines| && ScriptFits(script, |obj.peers|) && t < |heard.rounds|
    requires SecondPhase(obj, w1, a1, script, w2, rs, a2)
    requires Leads(s1, ActionsOf(t, obj.peers, Accept(a1.ballot, a1.value), script.second), heard)
    ensures Settled(t, k, obj, s1, w1, a1, script, heard.(rounds := heard.rounds[t := Round(k, true, a2)]), w2, rs, a2)
  {
  }

  lemma AddedAside(s: Cluster, k: nat, a1: Attempt, mid: Cluster, heard: Cluster, a2: Attempt)
    requires k < |s.objs| && RoundAdded(s, k, a1, a1, mid) && Aside(mid, k, heard)
    ensures |s.rounds| < |heard.rounds| && heard.rounds[|s.rounds|] == mid.rounds[|s.rounds|]
    ensures RoundAdded(s, k, a1, a2, heard.(rounds := heard.rounds[|s.rounds| := Round(k, a1.outcome.Unknown?, a2)]))
  {
    var t := |s.rounds|;
    var s' := heard.(rounds := heard.rounds[t := Round(k, a1.outcome.Unknown?, a2)]);
    forall u | 0 <= u < |mid.rounds| ensures SameRound(k, mid.rounds[u], heard.rounds[u]) {
    }
    forall u | 0 <= u < t ensures SameRound(k, s.rounds[u], s'.rounds[u]) {
      assert SameRound(k, s.rounds[u], mid.rounds[u]) && SameRound(k, mid.rounds[u], heard.rounds[u]);
    }
    forall u | t < u < |s'.rounds| ensures s'.rounds[u].obj != k {
      if u < |mid.rounds| { assert SameRound(k, mid.rounds[u], heard.rounds[u]); }
    }
    forall u: nat, req | Sent(u, req) in s'.net && Sent(u, req) !in s.net
      ensures Sent(u, req) in Requests(t, a1) || OfOther(s', k, u)
    {
      if Sent(u, req) !in mid.net {
        assert OfOther(heard, k, u);
      } else if Sent(u, req) !in Requests(t, a1) {
        assert OfOther(mid, k, u) && SameRound(k, mid.rounds[u], heard.rounds[u]);
      }
    }
  }

  /** A round that its first tally ends is a run. */
  lemma EarlyRoundIsRun(s: Cluster, k: nat, w: World, script: Script, w1: World, rs: Replies, a1: Attempt)
    returns (actions: seq<Action>, s': Cluster)
    requires k < |s.objs| && Shows(s, s.objs[k].peers, w) && ScriptFits(script, |s.objs[k].peers|)
    requires RoundFair(s, k, w, script) && FirstPhase(s.objs[k], w, script, w1, rs, a1) && !a1.outcome.Unknown?
    ensures Leads(s, actions, s') && Shows(s', s.objs[k].peers, w1) && RoundLeads(s, k, w, script, s')
    ensures RoundAdded(s, k, a1, a1, s') && (CallsOnly(script.first) ==> Alone(s, k, s'))
  {
    actions, s' := FirstPhaseIsRun(s, k, w, script, w1, rs, a1);
    EarlyLeads(s, k, w, script, s', w1, rs, a1);
  }

  /** And so is one that goes through both phases. */
  lemma FullRoundIsRun(s: Cluster, k: nat, w: World, script: Script, w1: World, rs: Replies, a1: Attempt,
                       w2: World, rs2: Replies, a2: Attempt)
    returns (actions: seq<Action>, s': Cluster)
    requires k < |s.objs| && Shows(s, s.objs[k].peers, w) && ScriptFits(script, |s.objs[k].peers|)
    requires RoundFair(s, k, w, script) && FirstPhase(s.objs[k], w, script, w1, rs, a1) && a1.outcome.Unknown?
    requires |w1.machines| == |s.objs[k].peers| && SecondPhase(s.objs[k], w1, a1, script, w2, rs2, a2)
    ensures Leads(s, actions, s') && Shows(s', s.objs[k].peers, w2) && RoundLeads(s, k, w, script, s')
    ensures RoundAdded(s, k, a1, a2, s')
    ensures CallsOnly(script.first) && CallsOnly(script.second) ==> Alone(s, k, s')
  {
    var p1, s1 := FirstPhaseIsRun(s, k, w, script, w1, rs, a1);
    var p2, s2 := SecondPhaseIsRun(s, k, w1, a1, script, w2, rs2, a2, s1);
    LeadsThrough(s, p1, s1, p2, s2);
    ThroughLeads(s, k, w, script, s1, w1, rs, a1, s2, w2, rs2, a2);
    actions, s' := p1 + p2, s2;
  }

  lemma OpensWithQuorum(s: Cluster, k: nat, w: World, script: Script, w1: World, rs: Replies, a1: Attempt)
    requires k < |s.objs| && Shows(s, s.objs[k].peers, w) && ScriptFits(script, |s.objs[k].peers|)
    requires FirstPhase(s.objs[k], w, script, w1, rs, a1)
    ensures a1.ballot == NextBallot(s.objs[k])
    ensures a1.outcome.Unknown? <==> a1.promises >= QuorumSize(|s.nodes|) && !script.gone1
  {
    EnumerationSize(s.objs[k].peers, s.nodes.Keys);
    assert |s.nodes| == |s.nodes.Keys|;
  }

  /** Propose refines the protocol: whatever its peers, the network and other proposers do meanwhile, a round is a legal
      run of the cluster. It issues one ballot, tallies what it has heard, goes on to its accepts exactly after a quorum of
      promises, and sends them all with the value tallied. */
  lemma RoundIsRun(s: Cluster, k: nat, w: World, script: Script, w': World, attempt: Attempt)
    returns (actions: seq<Action>, s': Cluster, w1: World, rs: Replies, a1: Attempt)
    requires k < |s.objs| && Shows(s, s.objs[k].peers, w)
    requires ScriptFits(script, |s.objs[k].peers|) && RoundFair(s, k, w, script)
    requires IsRound(s.objs[k], w, script, w', attempt)
    ensures Leads(s, actions, s') && Shows(s', s.objs[k].peers, w') && RoundLeads(s, k, w, script, s')
    ensures FirstPhase(s.objs[k], w, script, w1, rs, a1)
    ensures RoundAdded(s, k, a1, attempt, s') && a1.ballot == NextBallot(s.objs[k]) && attempt.value == a1.value
    ensures a1.outcome.Unknown? <==> a1.promises >= QuorumSize(|s.nodes|) && !script.gone1
    ensures !a1.outcome.Unknown? ==> attempt == a1
    ensures CallsOnly(script.first) && CallsOnly(script.second) ==> Alone(s, k, s')
  {
    w1, rs, a1 :|
      && FirstPhase(s.objs[k], w, script, w1, rs, a1)
      && if a1.outcome.Unknown? then exists rs2 :: SecondPhase(s.objs[k], w1, a1, script, w', rs2, attempt)
         else w' == w1 && attempt == a1;
    OpensWithQuorum(s, k, w, script, w1, rs, a1);
    if a1.outcome.Unknown? {
      var rs2 :| SecondPhase(s.objs[k], w1, a1, script, w', rs2, attempt);
      actions, s' := FullRoundIsRun(s, k, w, script, w1, rs, a1, w', rs2, attempt);
    } else {
      actions, s' := EarlyRoundIsRun(s, k, w, script, w1, rs, a1);
    }
  }

  lemma EarlyLeads(s: Cluster, k: nat, w: World, script: Script, s1: Cluster, w1: World, rs: Replies, a1: Attempt)
    requires k < |s.objs| && |s.objs[k].peers| == |w.machines| && ScriptFits(script, |s.objs[k].peers|)
    requires Prepared(s, k, w, script, s1, w1, rs, a1) && !a1.outcome.Unknown?
    ensures RoundLeads(s, k, w, script, s1)
  {
  }

  lemma ThroughLeads(s: Cluster, k: nat, w: World, script: Script, s1: Cluster, w1: World, rs: Replies, a1: Attempt,
                     s': Cluster, w2: World, rs2: Replies, a2: Attempt)
    requires k < |s.objs| && |s.objs[k].peers| == |w.machines| == |w1.machines| && ScriptFits(script, |s.objs[k].peers|)
    requires Prepared(s, k, w, script, s1, w1, rs, a1) && a1.outcome.Unknown?
    requires Settled(|s.rounds|, k, s.objs[k], s1, w1, a1, script, s', w2, rs2, a2)
    ensures RoundLeads(s, k, w, script, s')
  {
  }

  /** A proposer alone with its peers is dealt with fairly. */
  lemma AloneIsFair(s: Cluster, k: nat, w: World, script: Script)
    requires k < |s.objs| && |s.objs[k].peers| == |w.machines| && ScriptFits(script, |s.objs[k].peers|)
    requires CallsOnly(script.first) && CallsOnly(script.second)
    ensures RoundFair(s, k, w, script)
  {
    var peers, t := s.objs[k].peers, |s.rounds|;
    CallsAreFair(DoStart(s, k), k, t, peers, Prepare(NextBallot(s.objs[k])), script.first);
    forall s1, w1, rs, a1 | Prepared(s, k, w, script, s1, w1, rs, a1) && a1.outcome.Unknown?
      ensures Fair(s1, k, t, peers, Accept(a1.ballot, a1.value), script.second)
    {
      CallsAreFair(s1, k, t, peers, Accept(a1.ballot, a1.value), script.second);
    }
  }

  // ---- what a round reports ----

  lemma HighestOfBoth(p: seq<Option<Ballot>>, q: seq<Option<Ballot>>, h: Ballot, g: Ballot)
    requires HighestPromise(p, h) && HighestPromise(q, g)
    ensures HighestPromise(p + q, Max(h, g))
  {
    var top := Max(h, g);
    forall i | 0 <= i < |p + q| && (p + q)[i].Some? ensures top.AtLeast((p + q)[i].value) {
      assert (p + q)[i] == if i < |p| then p[i] else q[i - |p|];
    }
    assert Some(top) in p || Some(top) in q ==> Some(top) in p + q;
  }

  /** What an attempt says of phase 1: the next ballot, over the proposer's peers, the promises it got and the value they
      lead to. */
  ghost predicate ReportsFirst(obj: ProposerObj, rs: Replies, attempt: Attempt) {
    && attempt.ballot == Ballot(obj.round + 1, obj.id) && attempt.quorum == |obj.peers| / 2 + 1
    && attempt.promises == |Promisers(AsPrepares(rs))|
    && exists lead :: Adopts(obj.value, AsPrepares(rs), attempt.adopted, attempt.value, lead)
  }

  /** What it says of a round that ends there. */
  ghost predicate ReportsEarly(script: Script, rs: Replies, attempt: Attempt) {
    && attempt.accepts == 0 && HighestPromise(PreparePromises(AsPrepares(rs)), attempt.highestSeen)
    && attempt.outcome == if script.gone1 then Aborted else PrepareFailed
  }

  /** And of one that goes through both phases: the highest ballot seen is that of all replies of both. */
  ghost predicate ReportsBoth(script: Script, rs: Replies, rs2: Replies, attempt: Attempt) {
    && attempt.accepts == |Accepters(AsAccepts(rs2))|
    && HighestPromise(PreparePromises(AsPrepares(rs)) + AcceptPromises(AsAccepts(rs2)), attempt.highestSeen)
    && (attempt.outcome.Chosen? <==> attempt.accepts >= attempt.quorum)
    && (attempt.outcome.Aborted? <==> attempt.accepts < attempt.quorum && script.gone2)
    && (attempt.outcome.AcceptFailed? <==> attempt.accepts < attempt.quorum && !script.gone2)
  }

  /** What the attempt of a round says is what happened in it: its requests, who promised and who accepted, and the
      highest ballot in any reply to either. */
  lemma RoundReports(obj: ProposerObj, w: World, script: Script, w': World, attempt: Attempt)
    returns (w1: World, rs: Replies, rs2: Replies)
    requires |obj.peers| == |w.machines| && ScriptFits(script, |obj.peers|)
    requires IsRound(obj, w, script, w', attempt)
    ensures |w1.machines| == |obj.peers| && ReportsFirst(obj, rs, attempt)
    ensures (w1, rs) == Broadcast(obj.peers, w, Prepare(attempt.ballot), script.first)
    ensures if attempt.promises < attempt.quorum || script.gone1 then w' == w1 && ReportsEarly(script, rs, attempt)
            else
              && (w', rs2) == Broadcast(obj.peers, w1, Accept(attempt.ballot, attempt.value), script.second)
              && ReportsBoth(script, rs, rs2, attempt)
  {
    var a1;
    w1, rs, a1 :|
      && FirstPhase(obj, w, script, w1, rs, a1)
      && if a1.outcome.Unknown? then exists rs2 :: SecondPhase(obj, w1, a1, script, w', rs2, attempt)
         else w' == w1 && attempt == a1;
    FirstReports(obj, w, script, w1, rs, a1);
    rs2 := Silence(|obj.peers|);
    if a1.outcome.Unknown? {
      rs2 :| SecondPhase(obj, w1, a1, script, w', rs2, attempt);
      BothReport(obj, w1, a1, script, w', rs, rs2, attempt);
    }
  }

  lemma {:induction false} FirstReports(obj: ProposerObj, w: World, script: Script, w1: World, rs: Replies, a1: Attempt)
    requires |obj.peers| == |w.machines| && ScriptFits(script, |obj.peers|)
    requires FirstPhase(obj, w, script, w1, rs, a1)
    ensures |w1.machines| == |obj.peers| && ReportsFirst(obj, rs, a1)
    ensures (w1, rs) == Broadcast(obj.peers, w, Prepare(a1.ballot), script.first)
    ensures HighestPromise(PreparePromises(AsPrepares(rs)), a1.highestSeen) && a1.accepts == 0
    ensures a1.outcome == if script.gone1 then Aborted else if a1.promises < a1.quorum then PrepareFailed else Unknown
  {
  }

  lemma {:induction false} BothReport(obj: ProposerObj, w1: World, a1: Attempt, script: Script, w': World, rs: Replies, rs2: Replies, attempt: Attempt)
    requires |obj.peers| == |w1.machines| && ScriptFits(script, |obj.peers|)
    requires ReportsFirst(obj, rs, a1) && HighestPromise(PreparePromises(AsPrepares(rs)), a1.highestSeen)
    requires SecondPhase(obj, w1, a1, script, w', rs2, attempt)
    ensures ReportsFirst(obj, rs, attempt) && ReportsBoth(script, rs, rs2, attempt)
    ensures attempt.promises == a1.promises && attempt.quorum == a1.quorum
    ensures (w', rs2) == Broadcast(obj.peers, w1, Accept(attempt.ballot, attempt.value), script.second)
  {
    var tally :| IsAcceptTally(AsAccepts(rs2), tally) && attempt == AfterAccept(a1, tally, script.gone2);
    HighestOfBoth(PreparePromises(AsPrepares(rs)), AcceptPromises(AsAccepts(rs2)), a1.highestSeen, tally.highestSeen);
  }

  // ---- which slots are filled ----

  /** An acceptor in state st answers: it turns the request down, or its save succeeds. */
  predicate Answers(st: AcceptorState, own: Request, save: SaveOutcome) {
    own.ballot == ZERO || own.ballot.Less(st.promised) || save.Saved?
  }

  /** In world w the event is a call of the proposer to slot i that is answered, and whose answer comes back. */
  predicate ComesBack(w: World, own: Request, event: Event, i: nat)
    requires i < |w.machines|
  {
    match event
    case Call(slot, save, replied) =>
      slot == i && replied && w.machines[i].mem.Some? && Answers(w.machines[i].mem.value, own, save)
    case Late(slot, _, st, save, replied) => slot == i && replied && Answers(st, own, save)
    case _ => false
  }

  /** Event j of the broadcast brings an answer to slot i. */
  predicate BringsAnswer(peers: seq<int>, w: World, own: Request, events: seq<Event>, i: nat, j: nat)
    requires |peers| == |w.machines| && SlotsIn(events, |peers|) && i < |peers|
  {
    j < |events| && ComesBack(Broadcast(peers, w, own, events[..j]).0, own, events[j], i)
  }

  lemma FilledNext(peers: seq<int>, w: World, own: Request, rs: Replies, event: Event, i: nat)
    requires |peers| == |w.machines| == |rs| && SlotIn(event, |peers|) && i < |peers|
    ensures Happen(peers, w, own, rs, event).1[i].Some? <==> rs[i].Some? || ComesBack(w, own, event, i)
  {
    if event.Call? {
      HandledExactly(peers[event.slot], w.machines[event.slot], own, event.save);
    } else if event.Late? {
      HandledExactly(peers[event.slot], Machine(Some(event.st), w.machines[event.slot].disk), own, event.save);
    }
  }

  /** What brings an answer before the last event does not depend on that. */
  lemma BroughtBefore(peers: seq<int>, w: World, own: Request, events: seq<Event>, i: nat, j: nat)
    requires |peers| == |w.machines| && SlotsIn(events, |peers|) && i < |peers| && j + 1 < |events|
    ensures SlotsIn(events[..|events| - 1], |peers|)
    ensures BringsAnswer(peers, w, own, events, i, j) <==> BringsAnswer(peers, w, own, events[..|events| - 1], i, j)
  {
    assert events[..j] == events[..|events| - 1][..j];
  }

  /** A slot is filled if and only if some call of the proposer to that peer was answered and the answer came back. */
  lemma {:induction false} FilledExactly(peers: seq<int>, w: World, own: Request, events: seq<Event>, i: nat)
    requires |peers| == |w.machines| && SlotsIn(events, |peers|) && i < |peers|
    ensures Broadcast(peers, w, own, events).1[i].Some? <==> exists j: nat :: BringsAnswer(peers, w, own, events, i, j)
    decreases |events|
  {
    if events != [] {
      var last := |events| - 1;
      var fewer := events[..last];
      FilledExactly(peers, w, own, fewer, i);
      assert events[last] in events;
      var (w1, rs) := Broadcast(peers, w, own, fewer);
      FilledNext(peers, w1, own, rs, events[last], i);
      assert BringsAnswer(peers, w, own, events, i, last) <==> ComesBack(w1, own, events[last], i);
      if j: nat :| BringsAnswer(peers, w, own, events, i, j) && j < last {
        BroughtBefore(peers, w, own, events, i, j);
      }
      if j: nat :| BringsAnswer(peers, w, own, fewer, i, j) {
        BroughtBefore(peers, w, own, events, i, j);
      }
    }
  }
}
