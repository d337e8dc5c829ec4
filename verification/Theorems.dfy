/** What the invariant means for whoever uses the cluster: when ballots are fresh, what the ledger, the learners and the
    disks can be relied on for. */
module Theorems {
  import opened Ballots
  import opened Acceptors
  import opened Quorums
  import opened Tallies
  import opened Protocol
  import opened Soundness
  import opened Safety
  import opened Ledgers

  // ---- ballots ----

  /** Each round carries its proposer's id and a round number the proposer has reached, and the later of two rounds of
      one proposer the higher number. */
  ghost predicate BallotsOk(s: Cluster) {
    && (forall t | 0 <= t < |s.rounds| :: BallotOk(s, s.rounds[t]))
    && (forall t, u | 0 <= t < u < |s.rounds| && s.rounds[t].obj == s.rounds[u].obj ::
          s.rounds[t].attempt.ballot.round < s.rounds[u].attempt.ballot.round)
  }

  ghost predicate BallotOk(s: Cluster, round: Round) {
    && round.obj < |s.objs|
    && round.attempt.ballot.node == s.objs[round.obj].id
    && 1 <= round.attempt.ballot.round <= s.objs[round.obj].round
  }

  /** No proposer's round goes back, and no round's ballot changes. */
  ghost predicate BallotsKept(s: Cluster, action: Action, s': Cluster) {
    && |s.objs| <= |s'.objs|
    && (forall k | 0 <= k < |s.objs| :: s'.objs[k].id == s.objs[k].id && s.objs[k].round <= s'.objs[k].round)
    && |s'.rounds| == |s.rounds| + (if action.Start? then 1 else 0)
    && (forall t | 0 <= t < |s.rounds| ::
          s'.rounds[t].obj == s.rounds[t].obj && s'.rounds[t].attempt.ballot == s.rounds[t].attempt.ballot)
  }

  lemma AcceptorsKeepBallots(s: Cluster, action: Action)
    requires Enabled(s, action) && ByAcceptors(action)
    ensures BallotsKept(s, action, Do(s, action))
  {
  }

  lemma TalliesKeepBallots(s: Cluster, action: Action)
    requires Enabled(s, action) && (action.TallyPrepare? || action.TallyAccept?)
    ensures BallotsKept(s, action, Do(s, action))
  {
    TalliesRewriteOneRound(s, action);
    var s' := Do(s, action);
    forall t | 0 <= t < |s.rounds|
      ensures s'.rounds[t].obj == s.rounds[t].obj && s'.rounds[t].attempt.ballot == s.rounds[t].attempt.ballot
    {
    }
  }

  lemma BallotsStay(s: Cluster, action: Action)
    requires Enabled(s, action)
    ensures BallotsKept(s, action, Do(s, action))
  {
    if ByAcceptors(action) {
      AcceptorsKeepBallots(s, action);
    } else if action.TallyPrepare? || action.TallyAccept? {
      TalliesKeepBallots(s, action);
    }
  }

  lemma BallotsStayOk(s: Cluster, action: Action)
    requires BallotsOk(s) && Enabled(s, action)
    ensures BallotsOk(Do(s, action))
  {
    var s' := Do(s, action);
    BallotsStay(s, action);
    forall t | 0 <= t < |s'.rounds| ensures BallotOk(s', s'.rounds[t]) {
      if t < |s.rounds| { assert BallotOk(s, s.rounds[t]); }
    }
    forall t, u | 0 <= t < u < |s'.rounds| && s'.rounds[t].obj == s'.rounds[u].obj
      ensures s'.rounds[t].attempt.ballot.round < s'.rounds[u].attempt.ballot.round
    {
      assert BallotOk(s, s.rounds[t]);
    }
  }

  lemma {:induction false} RunKeepsBallots(s: Cluster, actions: seq<Action>, s': Cluster)
    requires BallotsOk(s) && Leads(s, actions, s')
    ensures BallotsOk(s')
    decreases |actions|
  {
    if actions != [] {
      BallotsStayOk(s, actions[0]);
      RunKeepsBallots(Do(s, actions[0]), actions[1..], s');
    }
  }

  /** One proposer object issues strictly increasing ballots, however its campaigns interleave. */
  lemma BallotsIncrease(s: Cluster, t: nat, u: nat)
    requires Reachable(s) && t < u < |s.rounds| && s.rounds[t].obj == s.rounds[u].obj
    ensures s.rounds[t].attempt.ballot.Less(s.rounds[u].attempt.ballot)
  {
    var s0, actions :| Init(s0) && Leads(s0, actions, s);
    RunKeepsBallots(s0, actions, s);
  }

  ghost predicate DistinctIds(objs: seq<ProposerObj>) {
    forall i, j | 0 <= i < j < |objs| :: objs[i].id != objs[j].id
  }

  lemma DistinctIdsDistinctBallots(s: Cluster)
    requires BallotsOk(s) && DistinctIds(s.objs)
    ensures DistinctBallots(s)
  {
  }

  lemma {:induction false} ObjsGrow(s: Cluster, actions: seq<Action>, s': Cluster)
    requires Leads(s, actions, s')
    ensures |s.objs| <= |s'.objs| && forall k | 0 <= k < |s.objs| :: SameProposer(s.objs[k], s'.objs[k])
    decreases |actions|
  {
    if actions != [] {
      ObjsGrow(Do(s, actions[0]), actions[1..], s');
    }
  }

  /** Some run leads from s to s', with the proposers of s and no other. */
  ghost predicate RunsTo(s: Cluster, s': Cluster) {
    |s'.objs| == |s.objs| && exists actions :: Leads(s, actions, s')
  }

  lemma RunsOn(s: Cluster, s1: Cluster, s2: Cluster)
    requires RunsTo(s, s1) && RunsTo(s1, s2)
    ensures RunsTo(s, s2)
  {
    var p :| Leads(s, p, s1);
    var q :| Leads(s1, q, s2);
    LeadsThrough(s, p, s1, q, s2);
  }

  /** Proposers over fresh acceptors, none of which has started. */
  ghost predicate Roster(s: Cluster) {
    && Init(s.(objs := []))
    && forall obj | obj in s.objs :: obj.round == 0 && Enumerates(obj.peers, s.nodes.Keys)
  }

  lemma RosterHolds(s: Cluster)
    requires Roster(s)
    ensures Sound(s) && Durable(s) && ProposalsSafe(s)
  {
  }

  ghost predicate AlwaysDistinct(s: Cluster) {
    forall s' | RunsTo(s, s') :: DistinctBallots(s')
  }

  lemma DistinctIdsAlwaysDistinct(s: Cluster, s': Cluster)
    requires Roster(s) && DistinctIds(s.objs) && RunsTo(s, s')
    ensures DistinctBallots(s')
  {
    var actions :| Leads(s, actions, s');
    RunKeepsBallots(s, actions, s');
    ObjsGrow(s, actions, s');
    assert forall k | 0 <= k < |s.objs| :: SameProposer(s.objs[k], s'.objs[k]);
    DistinctIdsDistinctBallots(s');
  }

  /** A roster never issues a ballot twice, in any run, if and only if no two of its proposers share a node id. */
  lemma BallotsFreshExactly(s: Cluster)
    requires Roster(s)
    ensures AlwaysDistinct(s) <==> DistinctIds(s.objs)
  {
    if DistinctIds(s.objs) {
      forall s' | RunsTo(s, s') ensures DistinctBallots(s') {
        DistinctIdsAlwaysDistinct(s, s');
      }
    } else {
      var i, j :| 0 <= i < j < |s.objs| && s.objs[i].id == s.objs[j].id;
      var s' := SharedIdRepeats(s, i, j);
    }
  }

  lemma SharedIdRepeats(s: Cluster, i: nat, j: nat) returns (s': Cluster)
    requires Roster(s) && i < j < |s.objs| && s.objs[i].id == s.objs[j].id
    ensures RunsTo(s, s') && !DistinctBallots(s')
  {
    var s1 := Do(s, Start(i));
    s' := Do(s1, Start(j));
    var actions := [Start(i), Start(j)];
    assert actions[1..] == [Start(j)] && actions[1..][1..] == [];
    assert Leads(s1, [Start(j)], s') && Leads(s, actions, s');
    assert s.objs[i] in s.objs && s.objs[j] in s.objs;
    assert s'.rounds[0].attempt.ballot == s'.rounds[1].attempt.ballot;
  }

  // ---- what was proposed and accepted ----

  /** P2c: whatever was or can still be chosen below an accept request's ballot is the request's value. */
  lemma EveryProposalIsSafe(s: Cluster, t: nat, b: Ballot, v: Value, b': Ballot, v': Value)
    requires Reachable(s) && Fenced(s) && OneValueEach(s.net) && Sent(t, Accept(b, v)) in s.net
    requires b'.Less(b) && Choosable(s.nodes, s.votes, b', v')
    ensures v' == v
  {
    ReachableInv(s);
    assert Proposed(s.net, b, v);
  }

  /** A round that has sent its accepts did so on a quorum of promises, whose tally gave its value. */
  ghost predicate Backed(s: Cluster, t: nat) {
    t < |s.rounds| && s.rounds[t].obj < |s.objs| &&
    exists rs, tally :: BackedBy(s, t, rs, tally)
  }

  ghost predicate BackedBy(s: Cluster, t: nat, rs: PrepareSlots, tally: PrepareTally)
    requires t < |s.rounds| && s.rounds[t].obj < |s.objs|
  {
    var obj, attempt := s.objs[s.rounds[t].obj], s.rounds[t].attempt;
    && HeardPrepares(s, t, obj.peers, rs) && IsPrepareTally(obj.value, rs, tally)
    && tally.value == attempt.value && tally.promises >= attempt.quorum
  }

  ghost predicate AllBackedUp(s: Cluster) {
    forall t | 0 <= t < |s.rounds| && s.rounds[t].accepting :: Backed(s, t)
  }

  lemma BackedStays(s: Cluster, s': Cluster, t: nat)
    requires Backed(s, t) && s.net <= s'.net && |s.rounds| <= |s'.rounds| && |s.objs| <= |s'.objs|
    requires forall k | 0 <= k < |s.objs| :: SameProposer(s.objs[k], s'.objs[k])
    requires s'.rounds[t].obj == s.rounds[t].obj && s'.rounds[t].attempt.value == s.rounds[t].attempt.value
    requires s'.rounds[t].attempt.quorum == s.rounds[t].attempt.quorum
    ensures Backed(s', t)
  {
    var rs, tally :| BackedBy(s, t, rs, tally);
    assert SameProposer(s.objs[s.rounds[t].obj], s'.objs[s.rounds[t].obj]);
    assert BackedBy(s', t, rs, tally);
  }

  /** The rounds after a step: what they were, unless the step tallied them; a new one has sent no accepts. */
  ghost predicate RoundsMove(s: Cluster, action: Action, s': Cluster) {
    && |s.rounds| <= |s'.rounds| && |s.objs| <= |s'.objs| && s.net <= s'.net
    && (forall k | 0 <= k < |s.objs| :: SameProposer(s.objs[k], s'.objs[k]))
    && (forall t | |s.rounds| <= t < |s'.rounds| :: !s'.rounds[t].accepting)
    && (forall t | 0 <= t < |s.rounds| && !(action.TallyPrepare? && action.t == t) :: RoundKept(s.rounds[t], s'.rounds[t]))
  }

  predicate RoundKept(round: Round, round': Round) {
    && round'.obj == round.obj && round'.accepting == round.accepting
    && round'.attempt.value == round.attempt.value && round'.attempt.quorum == round.attempt.quorum
  }

  lemma AcceptorsMoveNoRound(s: Cluster, action: Action)
    requires Enabled(s, action) && ByAcceptors(action)
    ensures RoundsMove(s, action, Do(s, action))
  {
  }

  lemma TalliesMoveOneRound(s: Cluster, action: Action)
    requires Enabled(s, action) && (action.TallyPrepare? || action.TallyAccept?)
    ensures RoundsMove(s, action, Do(s, action))
  {
  }

  lemma StepMovesRounds(s: Cluster, action: Action)
    requires Enabled(s, action)
    ensures RoundsMove(s, action, Do(s, action))
  {
    if ByAcceptors(action) {
      AcceptorsMoveNoRound(s, action);
    } else if action.TallyPrepare? || action.TallyAccept? {
      TalliesMoveOneRound(s, action);
    }
  }

  lemma TalliedIsBacked(s: Cluster, action: Action)
    requires Enabled(s, action) && action.TallyPrepare? && Do(s, action).rounds[action.t].accepting
    ensures Backed(Do(s, action), action.t)
  {
    assert BackedBy(Do(s, action), action.t, action.prepares, action.prepareTally);
  }

  lemma StepBacks(s: Cluster, action: Action)
    requires Enabled(s, action) && AllBackedUp(s)
    ensures AllBackedUp(Do(s, action))
  {
    var s' := Do(s, action);
    StepMovesRounds(s, action);
    forall t | 0 <= t < |s'.rounds| && s'.rounds[t].accepting ensures Backed(s', t) {
      if action.TallyPrepare? && action.t == t {
        TalliedIsBacked(s, action);
      } else {
        assert RoundKept(s.rounds[t], s'.rounds[t]);
        BackedStays(s, s', t);
      }
    }
  }

  lemma {:induction false} RunBacks(s: Cluster, actions: seq<Action>, s': Cluster)
    requires Leads(s, actions, s') && AllBackedUp(s)
    ensures AllBackedUp(s')
    decreases |actions|
  {
    if actions != [] {
      StepBacks(s, actions[0]);
      RunBacks(Do(s, actions[0]), actions[1..], s');
    }
  }

  /** In every run at all, an accept request ever sent is backed: a quorum of distinct acceptors has promised its round,
      and their replies tally to its value. */
  lemma EveryProposalIsBacked(s: Cluster, t: nat, b: Ballot, v: Value) returns (rs: PrepareSlots, tally: PrepareTally, q: set<int>)
    requires Reachable(s) && Sent(t, Accept(b, v)) in s.net
    ensures t < |s.rounds| && s.rounds[t].attempt.ballot == b && s.rounds[t].obj < |s.objs|
    ensures var obj := s.objs[s.rounds[t].obj];
            HeardPrepares(s, t, obj.peers, rs) && IsPrepareTally(obj.value, rs, tally) && tally.value == v
    ensures IsQuorum(s.nodes.Keys, q)
    ensures forall a | a in q :: exists resp: PrepareResponse :: resp.promised && Replied(t, a, Promise(resp)) in s.net
  {
    var s0, actions :| Init(s0) && Leads(s0, actions, s);
    RunBacks(s0, actions, s);
    ReachableIsSound(s);
    assert RequestOk(s, t, Accept(b, v)) && Backed(s, t);
    rs, tally :| BackedBy(s, t, rs, tally);
    var obj := s.objs[s.rounds[t].obj];
    assert s.rounds[t] in s.rounds && RoundOk(s, s.rounds[t]) && obj in s.objs;
    q := SlotsFormQuorum(s, obj.peers, Promisers(rs));
    forall a | a in q ensures exists resp: PrepareResponse :: resp.promised && Replied(t, a, Promise(resp)) in s.net {
      var i :| i in Promisers(rs) && obj.peers[i] == a;
      assert Replied(t, a, Promise(rs[i].value)) in s.net;
    }
  }

  /** Validity: in every run at all, a value that was proposed, accepted, stored, kept by any acceptor object, recorded or
      learned is some proposer's own. */
  lemma Validity(s: Cluster, v: Value)
    requires Reachable(s)
    requires (exists b :: Proposed(s.net, b, v))
          || (exists vote :: vote in s.votes && vote.value == v)
          || (exists vote :: vote in s.ledger && vote.value == v)
          || (exists a :: a in s.nodes && s.nodes[a].disk.hasAccepted && s.nodes[a].disk.value == v)
          || (exists a :: a in s.nodes && s.nodes[a].mem.Some? && s.nodes[a].mem.value.hasAccepted && s.nodes[a].mem.value.value == v)
          || (exists spare :: spare in s.spares && spare.st.hasAccepted && spare.st.value == v)
          || (exists i :: i in s.decisions && s.decisions[i].value == v)
    ensures Configured(s.objs, v)
  {
    ReachableIsSound(s);
    var b := ComesFromProposal(s, v);
    ProposedIsConfigured(s, b, v);
  }

  lemma ComesFromProposal(s: Cluster, v: Value) returns (b: Ballot)
    requires Sound(s)
    requires (exists b :: Proposed(s.net, b, v))
          || (exists vote :: vote in s.votes && vote.value == v)
          || (exists vote :: vote in s.ledger && vote.value == v)
          || (exists a :: a in s.nodes && s.nodes[a].disk.hasAccepted && s.nodes[a].disk.value == v)
          || (exists a :: a in s.nodes && s.nodes[a].mem.Some? && s.nodes[a].mem.value.hasAccepted && s.nodes[a].mem.value.value == v)
          || (exists spare :: spare in s.spares && spare.st.hasAccepted && spare.st.value == v)
          || (exists i :: i in s.decisions && s.decisions[i].value == v)
    ensures Proposed(s.net, b, v)
  {
    if c :| Proposed(s.net, c, v) {
      b := c;
    } else if vote :| vote in s.votes && vote.value == v {
      b := vote.ballot;
    } else if a :| a in s.nodes && s.nodes[a].disk.hasAccepted && s.nodes[a].disk.value == v {
      assert MachineSound(a, s.nodes[a], s.votes, s.net);
      b := s.nodes[a].disk.accepted;
    } else if a :| a in s.nodes && s.nodes[a].mem.Some? && s.nodes[a].mem.value.hasAccepted && s.nodes[a].mem.value.value == v {
      assert MachineSound(a, s.nodes[a], s.votes, s.net);
      b := s.nodes[a].mem.value.accepted;
    } else if spare :| spare in s.spares && spare.st.hasAccepted && spare.st.value == v {
      b := spare.st.accepted;
    } else {
      var i :| i in s.decisions && s.decisions[i].value == v;
      ChosenIsProposed(s, s.decisions[i].ballot, v);
      b := s.decisions[i].ballot;
    }
  }

  /** What a stored state owes to a positive reply: it still promises the ballot, and after an acceptance it holds that
      acceptance or a higher one. */
  ghost predicate Covers(st: AcceptorState, b: Ballot, accepted: bool) {
    st.promised.AtLeast(b) && (accepted ==> st.hasAccepted && st.accepted.AtLeast(b))
  }

  /** The state holds no other value at b. */
  ghost predicate Same(st: AcceptorState, b: Ballot, v: Value) {
    st.hasAccepted && st.accepted == b ==> st.value == v
  }

  predicate IsPositive(reply: Reply) {
    match reply
    case Promise(p) => p.promised
    case Acceptance(c) => c.accepted
  }

  /** Disk and memory of node a cover a reply it gave to round t. */
  ghost predicate Covered(s: Cluster, t: nat, a: int, reply: Reply) {
    && t < |s.rounds| && a in s.nodes
    && Covers(s.nodes[a].disk, s.rounds[t].attempt.ballot, reply.Acceptance?)
    && (s.nodes[a].mem.Some? ==> Covers(s.nodes[a].mem.value, s.rounds[t].attempt.ballot, reply.Acceptance?))
  }

  ghost predicate AllCovered(s: Cluster) {
    forall t: nat, a, reply | Replied(t, a, reply) in s.net && IsPositive(reply) :: Covered(s, t, a, reply)
  }

  lemma DurableCovers(s: Cluster)
    requires Sound(s) && Durable(s)
    ensures AllCovered(s)
  {
    forall t: nat, a, reply | Replied(t, a, reply) in s.net && IsPositive(reply) ensures Covered(s, t, a, reply) {
      assert ReplyOk(s, t, a, reply);
      var m, b := s.nodes[a], s.rounds[t].attempt.ballot;
      assert MachineSound(a, m, s.votes, s.net) && MachineDurable(a, m, s.votes);
      if reply.Promise? {
        assert PromisedTo(s, t, a, reply.prepare);
      } else {
        assert Vote(a, b, s.rounds[t].attempt.value) in s.votes;
      }
    }
  }

  /** Write-ahead durability: every promise and every acceptance ever answered stays covered by the disk, and by the
      memory of a node that is up, whatever saves failed and nodes crashed since and whatever ballots were issued. */
  lemma RepliesStayCovered(s: Cluster, t: nat, a: int, reply: Reply)
    requires Reachable(s) && Fenced(s) && Replied(t, a, reply) in s.net && IsPositive(reply)
    ensures Covered(s, t, a, reply)
  {
    ReachableIsSound(s);
    ReachableIsDurable(s);
    DurableCovers(s);
  }

  /** And where no ballot carries two values, an acceptance answered is covered by its own value. */
  lemma CoveredBySameValue(s: Cluster, t: nat, a: int, resp: AcceptResponse)
    requires Reachable(s) && OneValueEach(s.net) && Replied(t, a, Acceptance(resp)) in s.net && resp.accepted
    ensures t < |s.rounds| && a in s.nodes
    ensures var b, v := s.rounds[t].attempt.ballot, s.rounds[t].attempt.value;
            && Same(s.nodes[a].disk, b, v) && (s.nodes[a].mem.Some? ==> Same(s.nodes[a].mem.value, b, v))
  {
    ReachableIsSound(s);
    assert ReplyOk(s, t, a, Acceptance(resp));
    assert MachineSound(a, s.nodes[a], s.votes, s.net);
    assert Vote(a, s.rounds[t].attempt.ballot, s.rounds[t].attempt.value) in s.votes;
  }

  /** The comparison with the zero ballot never drops an acceptance that a promise reports; and where no ballot carries
      two values, the replies a round can tally agree on each ballot, so the tally does not depend on the order of the
      peers. */
  lemma RepliesAreConsistent(s: Cluster, t: nat, peers: seq<int>, rs: PrepareSlots)
    requires Reachable(s) && HeardPrepares(s, t, peers, rs)
    ensures forall i | 0 <= i < |rs| && rs[i].Some? && rs[i].value.promised && rs[i].value.hasAccepted :: Reports(rs[i])
    ensures OneValueEach(s.net) ==> Consistent(rs)
  {
    ReachableIsSound(s);
    forall i | 0 <= i < |rs| && rs[i].Some? && rs[i].value.promised && rs[i].value.hasAccepted
      ensures Reports(rs[i]) && Proposed(s.net, rs[i].value.accepted, rs[i].value.value)
    {
      assert ReplyOk(s, t, peers[i], Promise(rs[i].value));
    }
  }

  // ---- the ledger ----

  lemma RecordedIsChosen(s: Cluster, r: Vote)
    requires Sound(s) && OneValueEach(s.net) && r in s.ledger && HasQuorum(s.ledger, QuorumSize(|s.nodes|), r.ballot)
    ensures ChosenAt(s.nodes.Keys, s.votes, r.ballot, r.value)
  {
    var q := Backers(s.ledger, r.ballot);
    forall a | a in q ensures a in s.nodes && Vote(a, r.ballot, r.value) in s.votes {
      var vote :| vote in s.ledger && vote.ballot == r.ballot && vote.acceptor == a;
      assert Proposed(s.net, r.ballot, r.value) && Proposed(s.net, r.ballot, vote.value);
    }
    assert |s.nodes| == |s.nodes.Keys|;
    assert IsQuorum(s.nodes.Keys, q) && AllVoted(s.votes, q, r.ballot, r.value);
  }

  /** Where no ballot carries two values each ballot was recorded with one, and behind a fence the harness's agreement
      check passes: no two ballots with a quorum differ. */
  lemma LedgerAgrees(s: Cluster)
    requires Reachable(s) && OneValueEach(s.net)
    ensures SingleValued(s.ledger)
    ensures Fenced(s) ==> Agrees(s.ledger, QuorumSize(|s.nodes|))
  {
    ReachableIsSound(s);
    forall r, r' | r in s.ledger && r' in s.ledger && r.ballot == r'.ballot ensures r.value == r'.value {
      assert Proposed(s.net, r.ballot, r.value) && Proposed(s.net, r.ballot, r'.value);
    }
    var quorum := QuorumSize(|s.nodes|);
    if Fenced(s) {
      forall r, r' | r in s.ledger && r' in s.ledger && HasQuorum(s.ledger, quorum, r.ballot) && HasQuorum(s.ledger, quorum, r'.ballot)
        ensures r.value == r'.value
      {
        RecordedIsChosen(s, r);
        RecordedIsChosen(s, r');
        Agreement(s, r.ballot, r.value, r'.ballot, r'.value);
      }
    }
  }

  // ---- learning ----

  /** In every run at all, a round reported as chosen was accepted by a quorum of distinct acceptors. */
  lemma ReportedIsChosen(s: Cluster, t: nat)
    requires Reachable(s) && t < |s.rounds| && s.rounds[t].attempt.outcome.Chosen?
    ensures ChosenAt(s.nodes.Keys, s.votes, s.rounds[t].attempt.ballot, s.rounds[t].attempt.value)
  {
    ReachableIsSound(s);
    assert s.rounds[t] in s.rounds && RoundOk(s, s.rounds[t]);
  }

  lemma {:induction false} ReachesOn(s: Cluster, actions: seq<Action>, s': Cluster)
    requires Reachable(s) && Leads(s, actions, s')
    ensures Reachable(s')
  {
    var s0, before :| Init(s0) && Leads(s0, before, s);
    LeadsThrough(s0, before, s, actions, s');
  }

  /** Round t is one of node i, is reported as chosen, and says d. */
  ghost predicate WonBy(s: Cluster, i: int, t: nat, d: Decision) {
    && t < |s.rounds| && s.rounds[t].obj < |s.objs| && s.objs[s.rounds[t].obj].id == i
    && s.rounds[t].attempt.outcome.Chosen? && d == Decision(s.rounds[t].attempt.ballot, s.rounds[t].attempt.value)
  }

  ghost predicate AllWon(s: Cluster) {
    forall i | i in s.decisions :: exists t: nat :: WonBy(s, i, t, s.decisions[i])
  }

  /** A round reported as chosen never changes, nor whose it is. */
  ghost predicate VerdictsStay(s: Cluster, s': Cluster) {
    && |s.objs| <= |s'.objs| && (forall k | 0 <= k < |s.objs| :: s'.objs[k].id == s.objs[k].id)
    && |s.rounds| <= |s'.rounds|
    && (forall t | 0 <= t < |s.rounds| && s.rounds[t].attempt.outcome.Chosen? :: s'.rounds[t] == s.rounds[t])
  }

  lemma AcceptorsKeepVerdicts(s: Cluster, action: Action)
    requires Enabled(s, action) && ByAcceptors(action)
    ensures VerdictsStay(s, Do(s, action)) && Do(s, action).decisions == s.decisions
  {
  }

  lemma TalliesKeepVerdicts(s: Cluster, action: Action)
    requires Enabled(s, action) && (action.TallyPrepare? || action.TallyAccept?)
    ensures VerdictsStay(s, Do(s, action)) && Do(s, action).decisions == s.decisions
  {
    TalliesRewriteOneRound(s, action);
  }

  lemma StepKeepsVerdicts(s: Cluster, action: Action)
    requires Enabled(s, action)
    ensures VerdictsStay(s, Do(s, action))
    ensures !action.Learn? ==> Do(s, action).decisions == s.decisions
  {
    if ByAcceptors(action) {
      AcceptorsKeepVerdicts(s, action);
    } else if action.TallyPrepare? || action.TallyAccept? {
      TalliesKeepVerdicts(s, action);
    }
  }

  lemma StepKeepsWon(s: Cluster, action: Action)
    requires Enabled(s, action) && AllWon(s)
    ensures AllWon(Do(s, action))
  {
    var s' := Do(s, action);
    StepKeepsVerdicts(s, action);
    forall i | i in s'.decisions ensures exists t: nat :: WonBy(s', i, t, s'.decisions[i]) {
      if action.Learn? && s.objs[s.rounds[action.t].obj].id == i {
        assert WonBy(s', i, action.t, s'.decisions[i]);
      } else {
        var t: nat :| WonBy(s, i, t, s.decisions[i]);
        assert WonBy(s', i, t, s'.decisions[i]);
      }
    }
  }

  lemma {:induction false} RunKeepsWon(s: Cluster, actions: seq<Action>, s': Cluster)
    requires Leads(s, actions, s')
    ensures VerdictsStay(s, s') && (AllWon(s) ==> AllWon(s'))
    decreases |actions|
  {
    if actions != [] {
      var mid := Do(s, actions[0]);
      StepKeepsVerdicts(s, actions[0]);
      if AllWon(s) {
        StepKeepsWon(s, actions[0]);
      }
      RunKeepsWon(mid, actions[1..], s');
    }
  }

  /** In every run at all, what a node has learned at some moment is what a round of its own was reported as chosen with,
      then and ever after. */
  lemma {:induction false} LearnedFromOwnRound(s: Cluster, actions: seq<Action>, s': Cluster, i: int) returns (t: nat)
    requires Reachable(s) && Leads(s, actions, s') && i in s.decisions
    ensures WonBy(s, i, t, s.decisions[i]) && WonBy(s', i, t, s.decisions[i])
  {
    var s0, before :| Init(s0) && Leads(s0, before, s);
    RunKeepsWon(s0, before, s);
    RunKeepsWon(s, actions, s');
    t :| WonBy(s, i, t, s.decisions[i]);
  }

  /** In every run at all, what a node has learned at some moment is chosen, then and ever after. */
  lemma {:induction false} LearnedIsChosen(s: Cluster, actions: seq<Action>, s': Cluster, i: int)
    requires Reachable(s) && Leads(s, actions, s') && i in s.decisions
    ensures ChosenAt(s'.nodes.Keys, s'.votes, s.decisions[i].ballot, s.decisions[i].value)
  {
    ReachableIsSound(s);
    RunsGrow(s, actions, s');
    ChoiceIsStable(s.nodes.Keys, s.votes, s'.votes, s.decisions[i].ballot, s.decisions[i].value);
  }

  /** Two decisions learned by any nodes at any two moments of one run are equal. */
  lemma {:induction false} LearnersAgree(s: Cluster, p: seq<Action>, s': Cluster, q: seq<Action>, end: Cluster, i: int, j: int)
    requires Reachable(s) && Leads(s, p, end) && Reachable(s') && Leads(s', q, end)
    requires Fenced(end) && OneValueEach(end.net)
    requires i in s.decisions && j in s'.decisions
    ensures s.decisions[i].value == s'.decisions[j].value
  {
    LearnedIsChosen(s, p, end, i);
    LearnedIsChosen(s', q, end, j);
    ReachesOn(s, p, end);
    Agreement(end, s.decisions[i].ballot, s.decisions[i].value, s'.decisions[j].ballot, s'.decisions[j].value);
  }
}
