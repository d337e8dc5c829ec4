/** Why a campaign needs a quiet period: two proposers that preempt each other can go on forever, with every message
    delivered and every save succeeding (pkg/paxostest/scenarios_test.go:75-108). */
module Duels {
  import opened Ballots
  import opened Wrappers
  import opened Acceptors
  import opened Quorums
  import opened Tallies
  import opened Attempts
  import opened Protocol
  import opened Broadcasts
  import opened Safety
  import opened Theorems
  import opened Lockstep

  /** Round t of proposer i has been promised by everybody and waits to be tallied, while j can go above its ballot. */
  ghost predicate Waiting(s: Cluster, i: nat, j: nat, t: nat, b: Ballot) {
    && i < |s.objs| && j < |s.objs| && i != j
    && (forall obj | obj in s.objs :: Enumerates(obj.peers, s.nodes.Keys))
    && t == |s.rounds| - 1 && s.rounds[t] == Round(i, false, Opened(b, QuorumSize(|s.nodes|)))
    && AllPromised(s, b) && ZERO.Less(b) && b.Less(NextBallot(s.objs[j]))
    && (forall a | a in s.nodes :: Replied(t, a, PromiseOf(b, a)) in s.net)
  }

  function RefusalsOf(peers: seq<int>, b: Ballot): (rs: AcceptSlots)
    ensures |rs| == |peers|
  {
    seq(|peers|, i requires 0 <= i < |peers| => Some(AcceptResponse(false, b, peers[i])))
  }

  lemma NoRefusalCounts(peers: seq<int>, b: Ballot)
    requires |peers| > 0 && b.AtLeast(ZERO)
    ensures IsAcceptTally(RefusalsOf(peers, b), AcceptTally(0, b))
  {
    var rs := RefusalsOf(peers, b);
    assert Accepters(rs) == {};
    assert AcceptPromises(rs)[0] == Some(b);
  }

  /** A round that everybody promised and nobody accepted, turned down by a higher ballot. */
  predicate Preempted(round: Round, n: nat) {
    && round.attempt.outcome.AcceptFailed? && round.attempt.promises == n && round.attempt.accepts == 0
    && round.attempt.ballot.Less(round.attempt.highestSeen)
  }

  /** The accepts of round t, refused by everybody for b', fail it and move its proposer past b'. */
  lemma RefusedTally(s: Cluster, t: nat, b': Ballot) returns (actions: seq<Action>, s': Cluster)
    requires t < |s.rounds| && s.rounds[t].obj < |s.objs| && |s.nodes| > 0 && ZERO.Less(b')
    requires Enumerates(s.objs[s.rounds[t].obj].peers, s.nodes.Keys)
    requires s.rounds[t].accepting && s.rounds[t].attempt.outcome.Unknown? && s.rounds[t].attempt.quorum > 0
    requires s.rounds[t].attempt.highestSeen == s.rounds[t].attempt.ballot && s.rounds[t].attempt.ballot.Less(b')
    requires forall a | a in s.nodes :: Replied(t, a, Acceptance(AcceptResponse(false, b', a))) in s.net
    ensures Leads(s, actions, s') && |s'.rounds| == |s.rounds|
    ensures s' == s.(rounds := s'.rounds, objs := s'.objs) && s'.rounds == s.rounds[t := s'.rounds[t]]
    ensures s'.rounds[t].obj == s.rounds[t].obj && s'.rounds[t].attempt.promises == s.rounds[t].attempt.promises
    ensures Preempted(s'.rounds[t], s.rounds[t].attempt.promises)
    ensures |s'.objs| == |s.objs| && s'.objs == s.objs[s.rounds[t].obj := s'.objs[s.rounds[t].obj]]
    ensures s'.objs[s.rounds[t].obj].peers == s.objs[s.rounds[t].obj].peers
    ensures b'.Less(NextBallot(s'.objs[s.rounds[t].obj]))
  {
    var obj := s.objs[s.rounds[t].obj];
    EnumerationSize(obj.peers, s.nodes.Keys);
    assert |s.nodes| == |s.nodes.Keys|;
    NoRefusalCounts(obj.peers, b');
    var tally := TallyAccept(t, RefusalsOf(obj.peers, b'), AcceptTally(0, b'), false);
    forall i | 0 <= i < |obj.peers| ensures Replied(t, obj.peers[i], Acceptance(AcceptResponse(false, b', obj.peers[i]))) in s.net {
      assert obj.peers[i] in obj.peers;
    }
    assert Enabled(s, tally);
    var mid := Do(s, tally);
    OneStep(s, tally);
    OneStep(mid, FastForward(t));
    s' := Do(mid, FastForward(t));
    LeadsThrough(s, [tally], mid, [FastForward(t)], s');
    actions := [tally] + [FastForward(t)];
  }

  /** Round t's accepts reach everybody, too late: all refuse, and its proposer moves past b'. */
  lemma TooLate(s: Cluster, t: nat, b: Ballot, b': Ballot) returns (actions: seq<Action>, s': Cluster)
    requires t < |s.rounds| && s.rounds[t].obj < |s.objs| && |s.nodes| > 0
    requires ZERO.Less(b) && b.Less(b') && AllPromised(s, b')
    requires Enumerates(s.objs[s.rounds[t].obj].peers, s.nodes.Keys)
    requires s.rounds[t] == Round(s.rounds[t].obj, false, Opened(b, QuorumSize(|s.nodes|)))
    requires forall a | a in s.nodes :: Replied(t, a, PromiseOf(b, a)) in s.net
    ensures Leads(s, actions, s') && s'.nodes.Keys == s.nodes.Keys && AllPromised(s', b') && s.net <= s'.net
    ensures |s'.rounds| == |s.rounds| && s'.rounds == s.rounds[t := s'.rounds[t]]
    ensures s'.rounds[t].obj == s.rounds[t].obj && Preempted(s'.rounds[t], |s.nodes|)
    ensures |s'.objs| == |s.objs| && s'.objs == s.objs[s.rounds[t].obj := s'.objs[s.rounds[t].obj]]
    ensures s'.objs[s.rounds[t].obj].peers == s.objs[s.rounds[t].obj].peers
    ensures b'.Less(NextBallot(s'.objs[s.rounds[t].obj]))
  {
    var i := s.rounds[t].obj;
    var s1, v := LateTally(s, t, b);
    var action :| Leads(s, [action], s1);
    var acts2, s2 := EveryoneServes(s1, i, t, Accept(b, v), s.objs[i].peers, PromisedOnly(b'));
    LeadsThrough(s, [action], s1, acts2, s2);
    forall a | a in s.nodes ensures Replied(t, a, Acceptance(AcceptResponse(false, b', a))) in s2.net {
      assert Answer(a, PromisedOnly(b'), Accept(b, v)) == Acceptance(AcceptResponse(false, b', a));
    }
    var acts3, s3 := RefusedTally(s2, t, b');
    LeadsThrough(s, [action] + acts2, s2, acts3, s3);
    actions, s' := [action] + acts2 + acts3, s3;
  }

  /** One alternation: j opens a higher round, everybody promises it, and i's round is lost to it. */
  lemma Preempt(s: Cluster, i: nat, j: nat, t: nat, b: Ballot) returns (actions: seq<Action>, s': Cluster, b': Ballot)
    requires |s.nodes| > 0 && Waiting(s, i, j, t, b)
    ensures Leads(s, actions, s') && s'.nodes.Keys == s.nodes.Keys && Waiting(s', j, i, t + 1, b')
    ensures |s'.objs| == |s.objs|
    ensures s'.rounds[..t] == s.rounds[..t] && s'.rounds[t].obj == i && Preempted(s'.rounds[t], |s.nodes|)
  {
    b' := NextBallot(s.objs[j]);
    assert s.objs[j] in s.objs && s.objs[i] in s.objs;
    var acts1, s1 := StartPromised(s, j, b);
    assert s1.rounds[t] == s.rounds[t];
    var acts2, s2 := TooLate(s1, t, b, b');
    LeadsThrough(s, acts1, s1, acts2, s2);
    actions, s' := acts1 + acts2, s2;
    forall obj | obj in s'.objs ensures Enumerates(obj.peers, s'.nodes.Keys) {
      var k :| 0 <= k < |s'.objs| && s'.objs[k] == obj;
      assert s.objs[k] in s.objs && obj.peers == s.objs[k].peers;
    }
    assert s'.rounds[t + 1] == s1.rounds[t + 1];
  }

  /** The first k rounds alternate between i and j, and each is preempted. */
  ghost predicate Alternating(s: Cluster, i: nat, j: nat, k: nat) {
    && k <= |s.rounds|
    && forall u | 0 <= u < k :: Preempted(s.rounds[u], |s.nodes|) && s.rounds[u].obj == Mover(i, j, u)
  }

  function Mover(i: nat, j: nat, u: nat): nat
    decreases u
  {
    if u == 0 then i else Mover(j, i, u - 1)
  }

  lemma {:induction false} NextMover(i: nat, j: nat, u: nat)
    ensures Mover(i, j, u + 1) == Mover(j, i, u)
    decreases u
  {
    if u > 0 { NextMover(j, i, u - 1); }
  }

  lemma {:induction false} AlternatingGrows(s: Cluster, s': Cluster, i: nat, j: nat, k: nat)
    requires Alternating(s, i, j, k) && |s'.nodes| == |s.nodes| && k < |s'.rounds|
    requires s'.rounds[..k] == s.rounds[..k]
    requires s'.rounds[k].obj == Mover(i, j, k) && Preempted(s'.rounds[k], |s.nodes|)
    ensures Alternating(s', i, j, k + 1)
  {
    forall u | 0 <= u < k + 1 ensures Preempted(s'.rounds[u], |s'.nodes|) && s'.rounds[u].obj == Mover(i, j, u) {
      if u < k {
        assert s'.rounds[u] == s'.rounds[..k][u] == s.rounds[u];
      }
    }
  }

  /** The duel after k alternations: the next round to fall is waiting. */
  ghost predicate DuelAt(s: Cluster, i: nat, j: nat, k: nat, b: Ballot) {
    Waiting(s, Mover(i, j, k), Mover(j, i, k), k, b) && Alternating(s, i, j, k)
  }

  ghost predicate Duelling(s: Cluster, i: nat, j: nat, k: nat) {
    |s.nodes| > 0 && exists b :: DuelAt(s, i, j, k, b)
  }

  lemma OneMore(s: Cluster, i: nat, j: nat, k: nat) returns (s': Cluster)
    requires Duelling(s, i, j, k)
    ensures RunsTo(s, s') && Duelling(s', i, j, k + 1)
  {
    var b :| DuelAt(s, i, j, k, b);
    var actions, last, b' := Preempt(s, Mover(i, j, k), Mover(j, i, k), k, b);
    s' := last;
    assert |s.nodes.Keys| == |s.nodes| && |s'.nodes.Keys| == |s'.nodes|;
    NextMover(i, j, k);
    NextMover(j, i, k);
    AlternatingGrows(s, s', i, j, k);
    assert DuelAt(s', i, j, k + 1, b');
  }

  lemma {:induction false} DuelGoesOn(s: Cluster, i: nat, j: nat, k: nat) returns (s': Cluster)
    requires Duelling(s, i, j, 0)
    ensures RunsTo(s, s') && Duelling(s', i, j, k)
  {
    s' := s;
    RunsNowhere(s);
    if k > 0 {
      var s1 := DuelGoesOn(s, i, j, k - 1);
      s' := OneMore(s1, i, j, k - 1);
      RunsOn(s, s1, s');
    }
  }

  lemma {:induction false} RunsNowhere(s: Cluster)
    ensures RunsTo(s, s)
  {
    assert Leads(s, [], s);
  }

  /** The first prepare of the duel. */
  lemma DuelBegins(s: Cluster, i: nat, j: nat) returns (s': Cluster)
    requires Roster(s) && |s.nodes| > 0 && i < |s.objs| && j < |s.objs| && s.objs[i].id < s.objs[j].id
    ensures RunsTo(s, s') && Duelling(s', i, j, 0)
  {
    assert s.objs[i] in s.objs && s.objs[j] in s.objs;
    assert AllPromised(s, ZERO);
    assert ZERO.Less(NextBallot(s.objs[i]));
    var actions, s1 := StartPromised(s, i, ZERO);
    s' := s1;
    forall obj | obj in s'.objs ensures Enumerates(obj.peers, s'.nodes.Keys) {
      var k :| 0 <= k < |s'.objs| && s'.objs[k] == obj;
      assert s.objs[k] in s.objs && obj.peers == s.objs[k].peers;
    }
    assert |s.nodes.Keys| == |s.nodes| && |s'.nodes.Keys| == |s'.nodes|;
    assert DuelAt(s', i, j, 0, Ballot(1, s.objs[i].id));
  }

  /** Livelock at every length, for every cluster: two proposers can preempt each other k times, each round heard and
      promised by every node and accepted by none, with nothing accepted anywhere in the end. */
  lemma Livelock(s: Cluster, i: nat, j: nat, k: nat) returns (s': Cluster)
    requires Roster(s) && |s.nodes| > 0
    requires i < |s.objs| && j < |s.objs| && s.objs[i].id < s.objs[j].id
    ensures RunsTo(s, s') && s'.nodes.Keys == s.nodes.Keys && Alternating(s', i, j, k)
    ensures s'.ledger == [] && forall a | a in s'.nodes :: s'.nodes[a].mem.Some? && !s'.nodes[a].mem.value.hasAccepted
  {
    var s1 := DuelBegins(s, i, j);
    s' := DuelGoesOn(s1, i, j, k);
    RunsOn(s, s1, s');
    var actions :| Leads(s, actions, s');
    RunsGrow(s, actions, s');
    var b :| DuelAt(s', i, j, k, b);
  }
}
