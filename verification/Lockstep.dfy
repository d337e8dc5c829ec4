/** Rounds that every acceptor serves in step: one after the other each request reaches all of them, with working
    disks. */
module Lockstep {
  import opened Ballots
  import opened Wrappers
  import opened Acceptors
  import opened Quorums
  import opened Tallies
  import opened Attempts
  import opened Protocol
  import opened Broadcasts
  import opened Schedules

  /** Every acceptor is up and in state st, in memory and on disk. */
  ghost predicate AllHold(s: Cluster, st: AcceptorState) {
    forall a | a in s.nodes :: s.nodes[a] == Holding(st)
  }

  /** The acceptors of q have accepted v at b on the record. */
  ghost predicate AllEntered(ledger: seq<Vote>, q: set<int>, b: Ballot, v: Value) {
    forall a | a in q :: Vote(a, b, v) in ledger
  }

  lemma StillEntered(ledger: seq<Vote>, ledger': seq<Vote>, q: set<int>, b: Ballot, v: Value)
    requires AllEntered(ledger, q, b, v) && forall vote | vote in ledger :: vote in ledger'
    ensures AllEntered(ledger', q, b, v)
  {
  }

  /** What the acceptors of q hold after a request at which all held st. */
  function HeldAfter(st: AcceptorState, req: Request, served: bool): AcceptorState {
    if served && Admits(st, req.ballot) then Next(st, req) else st
  }

  /** What holds slot by slot holds acceptor by acceptor. */
  lemma SeenByAcceptor(s: Cluster, t: nat, own: Request, peers: seq<int>, q: set<int>, st: AcceptorState, w: World, w': World, rs: Replies, s': Cluster)
    requires Shows(s, peers, w) && Shows(s', peers, w') && Gathered(s', t, peers, rs)
    requires ServedBy(peers, w, own, SlotsOf(peers, q), |peers|, w', rs) && AllHold(s, st) && q <= s.nodes.Keys
    ensures s'.nodes.Keys == s.nodes.Keys
    ensures forall a | a in s.nodes :: s'.nodes[a] == Holding(HeldAfter(st, own, a in q))
    ensures forall a | a in q :: Replied(t, a, Answer(a, st, own)) in s'.net
    ensures own.Accept? && Admits(st, own.ballot) ==> AllEntered(s'.ledger, q, own.ballot, own.value)
  {
    SameKeys(s, s', peers);
    forall a | a in s.nodes
      ensures s'.nodes[a] == Holding(HeldAfter(st, own, a in q))
      ensures a in q ==> Replied(t, a, Answer(a, st, own)) in s'.net
      ensures a in q && own.Accept? && Admits(st, own.ballot) ==> Vote(a, own.ballot, own.value) in s'.ledger
    {
      assert a in peers;
      var i :| 0 <= i < |peers| && peers[i] == a;
      assert SlotServed(peers[i], w.machines[i], own, i in SlotsOf(peers, q), w'.machines[i], rs[i]);
    }
  }

  /** The acceptors of q serve a request of round t: what that makes of the cluster. */
  lemma SomeServe(s: Cluster, k: nat, t: nat, own: Request, peers: seq<int>, q: set<int>, st: AcceptorState)
    returns (actions: seq<Action>, s': Cluster)
    requires k < |s.objs| && Enumerates(peers, s.nodes.Keys) && Sent(t, own) in s.net && AllHold(s, st) && q <= s.nodes.Keys
    ensures Leads(s, actions, s') && OnlyServed(s, s') && s'.nodes.Keys == s.nodes.Keys
    ensures forall a | a in s.nodes :: s'.nodes[a] == Holding(HeldAfter(st, own, a in q))
    ensures forall a | a in q :: Replied(t, a, Answer(a, st, own)) in s'.net
    ensures forall vote | vote in s.ledger :: vote in s'.ledger
    ensures own.Accept? && Admits(st, own.ballot) ==> AllEntered(s'.ledger, q, own.ballot, own.value)
    ensures own.Prepare? || !Admits(st, own.ballot) ==> s'.ledger == s.ledger
  {
    var w := TheWorld(s, peers);
    var keep, n := SlotsOf(peers, q), |peers|;
    forall i | 0 <= i < n ensures w.machines[i] == Holding(st) {
      assert peers[i] in peers;
    }
    assert AllUp(w);
    CallsAreServed(peers, w, own, keep, n);
    var events := CallsTo(keep, n);
    CallsAreFair(s, k, t, peers, own, events);
    s' := BroadcastIsRun(s, k, t, peers, w, own, events);
    actions := ActionsOf(t, peers, own, events);
    var (w', rs) := Broadcast(peers, w, own, events);
    SeenByAcceptor(s, t, own, peers, q, st, w, w', rs, s');
    if !Admits(st, own.ballot) {
      CallingIsBroadcast(peers, w, own, keep, n);
      RefusedIsNotEntered(peers, w, own, keep, n);
    }
  }

  /** Everybody does. */
  lemma EveryoneServes(s: Cluster, k: nat, t: nat, own: Request, peers: seq<int>, st: AcceptorState)
    returns (actions: seq<Action>, s': Cluster)
    requires k < |s.objs| && Enumerates(peers, s.nodes.Keys) && Sent(t, own) in s.net && AllHold(s, st)
    ensures Leads(s, actions, s') && OnlyServed(s, s') && s'.nodes.Keys == s.nodes.Keys
    ensures AllHold(s', HeldAfter(st, own, true))
    ensures forall a | a in s.nodes :: Replied(t, a, Answer(a, st, own)) in s'.net
    ensures forall vote | vote in s.ledger :: vote in s'.ledger
    ensures own.Accept? && Admits(st, own.ballot) ==> AllEntered(s'.ledger, s.nodes.Keys, own.ballot, own.value)
    ensures own.Prepare? || !Admits(st, own.ballot) ==> s'.ledger == s.ledger
  {
    actions, s' := SomeServe(s, k, t, own, peers, s.nodes.Keys, st);
  }

  lemma {:induction false} RefusedIsNotEntered(peers: seq<int>, w: World, own: Request, keep: set<nat>, n: nat)
    requires |peers| == |w.machines| && n <= |peers| && AllUp(w)
    requires forall i | 0 <= i < |peers| :: !Admits(w.machines[i].mem.value, own.ballot)
    ensures Calling(peers, w, own, keep, n).0 == w
  {
    if n > 0 {
      RefusedIsNotEntered(peers, w, own, keep, n - 1);
    }
  }

  function PromisedOnly(b: Ballot): AcceptorState {
    AcceptorState(b, ZERO, 0, false)
  }

  function PromiseOf(b: Ballot, a: int): Reply {
    Promise(PrepareResponse(true, b, ZERO, 0, false, a))
  }

  /** Every acceptor has promised b and accepted nothing. */
  ghost predicate AllPromised(s: Cluster, b: Ballot) {
    && s.ledger == []
    && AllHold(s, PromisedOnly(b))
  }

  /** A proposer opens a round at b or above, and everybody promises it. */
  lemma StartPromised(s: Cluster, j: nat, b: Ballot) returns (actions: seq<Action>, s': Cluster)
    requires j < |s.objs| && Enumerates(s.objs[j].peers, s.nodes.Keys)
    requires AllPromised(s, b) && b.AtLeast(ZERO) && ZERO.Less(NextBallot(s.objs[j])) && NextBallot(s.objs[j]).AtLeast(b)
    ensures Leads(s, actions, s') && s'.nodes.Keys == s.nodes.Keys && s.net <= s'.net
    ensures s'.spares == s.spares && s'.sealed == s.sealed && s'.exclusive == s.exclusive
    ensures s'.objs == s.objs[j := s.objs[j].(round := s.objs[j].round + 1)]
    ensures s'.rounds == s.rounds + [Round(j, false, Opened(NextBallot(s.objs[j]), QuorumSize(|s.nodes|)))]
    ensures AllPromised(s', NextBallot(s.objs[j]))
    ensures forall a | a in s.nodes :: Replied(|s.rounds|, a, PromiseOf(NextBallot(s.objs[j]), a)) in s'.net
  {
    var b', peers := NextBallot(s.objs[j]), s.objs[j].peers;
    EnumerationSize(peers, s.nodes.Keys);
    assert |s.nodes| == |s.nodes.Keys|;
    var s1 := Do(s, Start(j));
    OneStep(s, Start(j));
    var acts, s2 := EveryoneServes(s1, j, |s.rounds|, Prepare(b'), peers, PromisedOnly(b));
    LeadsThrough(s, [Start(j)], s1, acts, s2);
    actions, s' := [Start(j)] + acts, s2;
    forall a | a in s.nodes ensures Replied(|s.rounds|, a, PromiseOf(b', a)) in s'.net {
      assert Answer(a, PromisedOnly(b), Prepare(b')) == PromiseOf(b', a);
    }
  }

  /** The replies of everybody, in the order of the peers. */
  function PromisesOf(peers: seq<int>, b: Ballot): (rs: PrepareSlots)
    ensures |rs| == |peers|
  {
    seq(|peers|, i requires 0 <= i < |peers| => Some(PromiseOf(b, peers[i]).prepare))
  }

  lemma EveryPromiseCounts(own: Value, peers: seq<int>, b: Ballot)
    requires |peers| > 0 && b.AtLeast(ZERO)
    ensures IsPrepareTally(own, PromisesOf(peers, b), PrepareTally(|peers|, own, false, b))
  {
    var rs := PromisesOf(peers, b);
    assert Promisers(rs) == Slots(|peers|);
    assert PreparePromises(rs)[0] == Some(b);
    assert Adopts(own, rs, false, own, ZERO);
  }

  /** Round t, promised by everybody at b, is tallied and sends its accepts. */
  lemma LateTally(s: Cluster, t: nat, b: Ballot) returns (s': Cluster, v: Value)
    requires t < |s.rounds| && s.rounds[t].obj < |s.objs| && |s.nodes| > 0 && ZERO.Less(b)
    requires Enumerates(s.objs[s.rounds[t].obj].peers, s.nodes.Keys)
    requires s.rounds[t] == Round(s.rounds[t].obj, false, Opened(b, QuorumSize(|s.nodes|)))
    requires forall a | a in s.nodes :: Replied(t, a, PromiseOf(b, a)) in s.net
    ensures (exists action :: Leads(s, [action], s')) && v == s.objs[s.rounds[t].obj].value
    ensures s' == s.(rounds := s'.rounds, net := s.net + {Sent(t, Accept(b, v))}) && |s'.rounds| == |s.rounds|
    ensures s'.rounds == s.rounds[t := s'.rounds[t]]
    ensures Accepting(s', t, s.rounds[t].obj, b, v)
    ensures s'.rounds[t] == Round(s.rounds[t].obj, true,
      Attempt(b, v, Unknown, |s.nodes|, 0, QuorumSize(|s.nodes|), false, b))
  {
    var obj := s.objs[s.rounds[t].obj];
    v := obj.value;
    EnumerationSize(obj.peers, s.nodes.Keys);
    assert |s.nodes| == |s.nodes.Keys|;
    EveryPromiseCounts(v, obj.peers, b);
    var action := TallyPrepare(t, PromisesOf(obj.peers, b), PrepareTally(|s.nodes|, v, false, b), false);
    forall i | 0 <= i < |obj.peers| ensures Replied(t, obj.peers[i], PromiseOf(b, obj.peers[i])) in s.net {
      assert obj.peers[i] in obj.peers;
    }
    assert Enabled(s, action);
    s' := Do(s, action);
    OneStep(s, action);
  }

  /** Round t, of object i, has sent its accepts with value v at b and waits for the replies. */
  ghost predicate Accepting(s: Cluster, t: nat, i: nat, b: Ballot, v: Value) {
    && t < |s.rounds| && s.rounds[t].obj == i && s.rounds[t].accepting && s.rounds[t].attempt.outcome.Unknown?
    && s.rounds[t].attempt.quorum == QuorumSize(|s.nodes|) && s.rounds[t].attempt.value == v
    && Sent(t, Accept(b, v)) in s.net
  }

  /** The replies of the acceptors in q, in the order of the peers: each has accepted. */
  function AcceptancesOf(peers: seq<int>, q: set<int>, b: Ballot): (rs: AcceptSlots)
    ensures |rs| == |peers|
  {
    seq(|peers|, i requires 0 <= i < |peers| =>
      if peers[i] in q then Some(AcceptResponse(true, b, peers[i])) else None)
  }

  lemma EveryAcceptanceCounts(peers: seq<int>, all: set<int>, q: set<int>, b: Ballot)
    requires Enumerates(peers, all) && IsQuorum(all, q) && b.AtLeast(ZERO)
    ensures IsAcceptTally(AcceptancesOf(peers, q, b), AcceptTally(|q|, b))
  {
    var rs := AcceptancesOf(peers, q, b);
    SlotsOfSize(peers, all, q);
    assert Accepters(rs) == SlotsOf(peers, q);
    Inhabited(q);
    var a :| a in q;
    assert a in peers;
    var i: nat :| i < |peers| && peers[i] == a;
    assert AcceptPromises(rs)[i] == Some(b);
  }

  /** Round t, accepted by a quorum at b, is tallied and reported as chosen. */
  lemma AcceptedTally(s: Cluster, t: nat, q: set<int>, b: Ballot) returns (action: Action)
    requires t < |s.rounds| && s.rounds[t].obj < |s.objs| && b.AtLeast(ZERO)
    requires Enumerates(s.objs[s.rounds[t].obj].peers, s.nodes.Keys) && IsQuorum(s.nodes.Keys, q)
    requires s.rounds[t].accepting && s.rounds[t].attempt.outcome.Unknown?
    requires s.rounds[t].attempt.quorum == QuorumSize(|s.nodes|)
    requires forall a | a in q :: Replied(t, a, Acceptance(AcceptResponse(true, b, a))) in s.net
    ensures Enabled(s, action) && Leads(s, [action], Do(s, action))
    ensures var s' := Do(s, action);
            && s' == s.(rounds := s'.rounds) && |s'.rounds| == |s.rounds| && s'.rounds == s.rounds[t := s'.rounds[t]]
            && s'.rounds[t].attempt.outcome.Chosen? && s'.rounds[t].attempt.value == s.rounds[t].attempt.value
  {
    var peers := s.objs[s.rounds[t].obj].peers;
    assert |s.nodes| == |s.nodes.Keys|;
    EveryAcceptanceCounts(peers, s.nodes.Keys, q, b);
    action := TallyAccept(t, AcceptancesOf(peers, q, b), AcceptTally(|q|, b), false);
    assert Enabled(s, action);
    OneStep(s, action);
  }
}
