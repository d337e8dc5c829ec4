/** Exactly when what an acceptor has answered stays covered by its disk and memory (pkg/paxos/acceptor.go:106-121,
    pkg/paxos/acceptor.go:164-179), and the fence as a property of a run instead of its surroundings. */
module Coverage {
  import opened Ballots
  import opened Wrappers
  import opened Acceptors
  import opened Quorums
  import opened Protocol
  import opened Soundness
  import opened Safety
  import opened Theorems
  import opened Broadcasts

  ghost predicate AlwaysCovered(s: Cluster) {
    forall s' | RunsTo(s, s') :: AllCovered(s')
  }

  // ---- without a fence ----

  /** A node's disk promises less than the node has answered. */
  ghost predicate PromiseLost(s: Cluster, a: int) {
    a in s.nodes && exists t: nat, resp: PrepareResponse ::
      && t < |s.rounds| && resp.promised && Replied(t, a, Promise(resp)) in s.net
      && s.nodes[a].disk.promised.Less(s.rounds[t].attempt.ballot)
  }

  lemma LostIsUncovered(s: Cluster, a: int)
    requires PromiseLost(s, a)
    ensures !AllCovered(s)
  {
    var t: nat, resp: PrepareResponse :|
      && t < |s.rounds| && resp.promised && Replied(t, a, Promise(resp)) in s.net
      && s.nodes[a].disk.promised.Less(s.rounds[t].attempt.ballot);
    assert IsPositive(Promise(resp)) && !Covered(s, t, a, Promise(resp));
  }

  /** The proposer has opened its first round, with the given spares about; no acceptor has served anything. */
  ghost predicate Begun(s: Cluster) {
    && s.objs != [] && s.objs[0].round == 1 && |s.rounds| == 1 && s.rounds[0].attempt.ballot == Ballot(1, s.objs[0].id)
    && Sent(0, Prepare(Ballot(1, s.objs[0].id))) in s.net
    && forall a | a in s.nodes :: s.nodes[a] == FRESH
  }

  lemma StepRuns(s: Cluster, action: Action)
    requires Enabled(s, action) && !action.Spawn?
    ensures RunsTo(s, Do(s, action))
  {
    OneStep(s, action);
  }

  lemma Begin(s: Cluster) returns (s': Cluster)
    requires Roster(s) && s.objs != []
    ensures RunsTo(s, s') && Begun(s') && s' == DoStart(s, 0) && s'.spares == []
  {
    assert s.objs[0] in s.objs;
    s' := Do(s, Start(0));
    StepRuns(s, Start(0));
  }

  function Promising(b: Ballot): Machine {
    Machine(Some(EMPTY.(promised := b)), EMPTY.(promised := b))
  }

  /** The second round of proposer 0 is promised by a. */
  ghost predicate SecondPromised(s: Cluster, a: int) {
    && s.objs != [] && a in s.nodes && s.nodes[a] == Promising(Ballot(2, s.objs[0].id))
    && |s.rounds| == 2 && s.rounds[1].attempt.ballot == Ballot(2, s.objs[0].id)
    && Replied(1, a, Promise(PrepareResponse(true, Ballot(2, s.objs[0].id), ZERO, 0, false, a))) in s.net
    && Sent(0, Prepare(Ballot(1, s.objs[0].id))) in s.net
  }

  lemma SecondRoundPromised(s: Cluster, a: int) returns (s': Cluster)
    requires Begun(s) && a in s.nodes
    ensures RunsTo(s, s') && SecondPromised(s', a) && s'.nodes.Keys == s.nodes.Keys
    ensures s'.objs[0].id == s.objs[0].id && s'.spares == s.spares
    ensures s'.sealed == s.sealed && s'.exclusive == s.exclusive
  {
    var begun := Do(s, Start(0));
    StepRuns(s, Start(0));
    var call := Deliver(a, 1, Prepare(Ballot(2, s.objs[0].id)), Saved);
    s' := Do(begun, call);
    StepRuns(begun, call);
    RunsOn(s, begun, s');
  }

  /** A disk that has gone back to the first round has lost the promise to the second. */
  lemma WentBack(s: Cluster, a: int)
    requires s.objs != [] && a in s.nodes && s.nodes[a].disk.promised == Ballot(1, s.objs[0].id)
    requires |s.rounds| == 2 && s.rounds[1].attempt.ballot == Ballot(2, s.objs[0].id)
    requires Replied(1, a, Promise(PrepareResponse(true, Ballot(2, s.objs[0].id), ZERO, 0, false, a))) in s.net
    ensures PromiseLost(s, a)
  {
  }

  /** Node a crashes and restarts with the first prepare out. */
  lemma FirstCallLeftOut(s: Cluster, a: int) returns (s': Cluster)
    requires Begun(s) && a in s.nodes && s.spares == []
    ensures RunsTo(s, s') && Begun(s') && s' == s.(spares := [Spare(a, EMPTY, s.net)])
  {
    var s1 := Do(s, CrashNode(a));
    StepRuns(s, CrashNode(a));
    s' := Do(s1, RestartNode(a));
    StepRuns(s1, RestartNode(a));
    RunsOn(s, s1, s');
    assert s'.nodes == s.nodes;
  }

  /** The first prepare is out at a when a crashes and restarts; a promises the second, and then the first call saves. */
  lemma LateCallLosesPromise(s: Cluster, a: int) returns (s': Cluster)
    requires Roster(s) && !s.sealed && s.objs != [] && a in s.nodes
    ensures RunsTo(s, s') && PromiseLost(s', a)
  {
    var s1 := Begin(s);
    var s2 := FirstCallLeftOut(s1, a);
    var s3 := SecondRoundPromised(s2, a);
    s' := LastCallSaves(s3, a, s.objs[0].id, s1.net);
    RunsOn(s, s1, s2);
    RunsOn(s, s2, s3);
    RunsOn(s, s3, s');
  }

  lemma LastCallSaves(s: Cluster, a: int, p: int, calls: set<Message>) returns (s': Cluster)
    requires SecondPromised(s, a) && !s.sealed && s.objs[0].id == p && s.spares == [Spare(a, EMPTY, calls)]
    requires Sent(0, Prepare(Ballot(1, p))) in calls
    ensures RunsTo(s, s') && PromiseLost(s', a)
  {
    var late := Straggle(0, 0, Prepare(Ballot(1, p)), Saved);
    s' := Do(s, late);
    StepRuns(s, late);
    WentBack(s', a);
  }

  /** A restart of a loads before a promises the second prepare and swaps after it; then the first prepare arrives. */
  lemma LateSwapLosesPromise(s: Cluster, a: int) returns (s': Cluster)
    requires Roster(s) && !s.exclusive && s.objs != [] && a in s.nodes
    ensures RunsTo(s, s') && PromiseLost(s', a)
  {
    var s1 := Begin(s);
    var s2 := Do(s1, Load(a));
    StepRuns(s1, Load(a));
    var s3 := SecondRoundPromised(s2, a);
    s' := OldOneSwapsIn(s3, a, s.objs[0].id);
    RunsOn(s, s1, s2);
    RunsOn(s, s2, s3);
    RunsOn(s, s3, s');
  }

  lemma OldOneSwapsIn(s: Cluster, a: int, p: int) returns (s': Cluster)
    requires SecondPromised(s, a) && !s.exclusive && s.objs[0].id == p && s.spares == [Spare(a, EMPTY, {})]
    ensures RunsTo(s, s') && PromiseLost(s', a)
  {
    var s1 := Do(s, Install(0));
    StepRuns(s, Install(0));
    var call := Deliver(a, 0, Prepare(Ballot(1, p)), Saved);
    s' := Do(s1, call);
    StepRuns(s1, call);
    RunsOn(s, s1, s');
    WentBack(s', a);
  }

  lemma UnfencedUncovers(s: Cluster)
    requires Roster(s) && !Fenced(s) && |s.nodes| > 0 && s.objs != []
    ensures !AlwaysCovered(s)
  {
    assert |s.nodes| == |s.nodes.Keys|;
    Inhabited(s.nodes.Keys);
    var a :| a in s.nodes.Keys;
    var s': Cluster;
    if !s.sealed {
      s' := LateCallLosesPromise(s, a);
    } else {
      s' := LateSwapLosesPromise(s, a);
    }
    LostIsUncovered(s', a);
  }

  // ---- exactly ----

  lemma AnswerNeedsBoth(s: Cluster, t: nat, a: int, reply: Reply)
    requires Sound(s) && Replied(t, a, reply) in s.net
    ensures s.nodes.Keys != {} && s.objs != []
  {
    assert ReplyOk(s, t, a, reply) && RoundOk(s, s.rounds[t]);
    assert a in s.nodes.Keys;
  }

  /** Without an acceptor or a proposer nobody answers anything. */
  lemma NothingToCover(s: Cluster, s': Cluster)
    requires Roster(s) && RunsTo(s, s') && (|s.nodes| == 0 || s.objs == [])
    ensures AllCovered(s')
  {
    var actions :| Leads(s, actions, s');
    RosterHolds(s);
    RunIsSound(s, actions, s');
    RunsGrow(s, actions, s');
    assert |s.nodes| == |s.nodes.Keys|;
    if !AllCovered(s') {
      var t: nat, a, reply :| Replied(t, a, reply) in s'.net && IsPositive(reply) && !Covered(s', t, a, reply);
      AnswerNeedsBoth(s', t, a, reply);
      assert false;
    }
  }

  /** Write-ahead coverage, exactly: over any acceptors and proposers, every promise and acceptance ever answered stays
      covered in every run if and only if no acceptor works on a store that another has taken over, unless there is
      nobody to answer or to ask. */
  lemma CoverageExactly(s: Cluster)
    requires Roster(s)
    ensures AlwaysCovered(s) <==> Fenced(s) || |s.nodes| == 0 || s.objs == []
  {
    if Fenced(s) {
      forall s' | RunsTo(s, s') ensures AllCovered(s') {
        FencedCovers(s, s');
      }
    } else if |s.nodes| == 0 || s.objs == [] {
      forall s' | RunsTo(s, s') ensures AllCovered(s') {
        NothingToCover(s, s');
      }
    } else {
      UnfencedUncovers(s);
    }
  }

  lemma FencedCovers(s: Cluster, s': Cluster)
    requires Roster(s) && RunsTo(s, s') && Fenced(s)
    ensures AllCovered(s')
  {
    var actions :| Leads(s, actions, s');
    RosterHolds(s);
    RunIsSound(s, actions, s');
    RunIsDurable(s, actions, s');
    DurableCovers(s');
  }

  // ---- a fence of the run ----

  /** In state s the step does no more than a fence would let it. */
  predicate Careful(s: Cluster, action: Action) {
    match action
    case Straggle(_, _, _, save) => save.Refused?
    case Install(i) =>
      i < |s.spares| && s.spares[i].acceptor in s.nodes && s.spares[i].st == s.nodes[s.spares[i].acceptor].disk
    case _ => true
  }

  ghost predicate CarefulRun(s: Cluster, actions: seq<Action>)
    decreases |actions|
  {
    actions != [] ==>
      Enabled(s, actions[0]) && Careful(s, actions[0]) && CarefulRun(Do(s, actions[0]), actions[1..])
  }

  /** The same cluster behind a fence. */
  function WithFence(s: Cluster): Cluster {
    s.(sealed := true, exclusive := true)
  }

  lemma CarefulStep(s: Cluster, action: Action)
    requires Enabled(s, action) && Careful(s, action)
    ensures Enabled(WithFence(s), action) && Do(WithFence(s), action) == WithFence(Do(s, action))
  {
  }

  lemma {:induction false} CarefulRunIsFenced(s: Cluster, actions: seq<Action>, s': Cluster)
    requires Leads(s, actions, s') && CarefulRun(s, actions)
    ensures Leads(WithFence(s), actions, WithFence(s'))
    decreases |actions|
  {
    if actions != [] {
      CarefulStep(s, actions[0]);
      CarefulRunIsFenced(Do(s, actions[0]), actions[1..], s');
    }
  }

  /** A run keeps agreement and coverage, whatever its surroundings would have allowed, if no superseded acceptor in fact
      saved anything and every restart in fact put in place what the disk held. */
  lemma {:induction false} CarefulRunAgrees(s: Cluster, actions: seq<Action>, s': Cluster, b: Ballot, v: Value, b': Ballot, v': Value)
    requires Init(s) && Leads(s, actions, s') && CarefulRun(s, actions) && OneValueEach(s'.net)
    requires ChosenAt(s'.nodes.Keys, s'.votes, b, v) && ChosenAt(s'.nodes.Keys, s'.votes, b', v')
    ensures v == v'
  {
    CarefulRunIsFenced(s, actions, s');
    assert Init(WithFence(s));
    Agreement(WithFence(s'), b, v, b', v');
  }

  lemma {:induction false} CarefulRunCovers(s: Cluster, actions: seq<Action>, s': Cluster)
    requires Init(s) && Leads(s, actions, s') && CarefulRun(s, actions)
    ensures AllCovered(s')
  {
    CarefulRunIsFenced(s, actions, s');
    assert Init(WithFence(s));
    ReachableIsSound(WithFence(s'));
    ReachableIsDurable(WithFence(s'));
    DurableCovers(WithFence(s'));
    forall t: nat, a, reply | Replied(t, a, reply) in s'.net && IsPositive(reply) ensures Covered(s', t, a, reply) {
      assert Covered(WithFence(s'), t, a, reply);
    }
  }
}
