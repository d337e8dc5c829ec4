/** Exactly when agreement holds in every run: of proposers that share ids, and of acceptors that share a store. */
module Exactness {
  import opened Quorums
  import opened Acceptors
  import opened Protocol
  import opened Ledgers
  import opened Soundness
  import opened Safety
  import opened Theorems
  import opened SmallClusters
  import opened Splits
  import opened Broadcasts
  import opened Reuse
  import opened Handovers

  /** When the proposers of a roster cannot disagree: there is no acceptor to choose anything; or all propose one value; or
      no acceptor works on a store that another has taken over, and either no two proposers share an id, or there are at
      most two acceptors and those that share an id propose one value. */
  ghost predicate Agreeable(s: Cluster) {
    || |s.nodes| == 0
    || OneConfiguredValue(s.objs)
    || (Fenced(s) && (DistinctIds(s.objs) || (|s.nodes| <= 2 && SameIdSameValue(s.objs))))
  }

  lemma NobodyChooses(s: Cluster)
    requires |s.nodes| == 0
    ensures !Split(s)
  {
    assert |s.nodes| == |s.nodes.Keys|;
    forall q ensures !IsQuorum(s.nodes.Keys, q) {
    }
  }

  lemma AgreeableNeverSplits(s: Cluster, s': Cluster)
    requires Roster(s) && Agreeable(s) && RunsTo(s, s')
    ensures !Split(s')
  {
    if |s.nodes| == 0 {
      var actions :| Leads(s, actions, s');
      RunsGrow(s, actions, s');
      assert |s.nodes| == |s.nodes.Keys| && |s'.nodes| == |s'.nodes.Keys|;
      NobodyChooses(s');
    } else if OneConfiguredValue(s.objs) {
      OneValueNeverSplits(s, s');
    } else if DistinctIds(s.objs) {
      DistinctIdsNeverSplit(s, s');
    } else {
      SmallRosterNeverSplits(s, s');
    }
  }

  lemma SmallRosterNeverSplits(s: Cluster, s': Cluster)
    requires Roster(s) && Fenced(s) && |s.nodes| <= 2 && SameIdSameValue(s.objs) && RunsTo(s, s')
    ensures !Split(s')
  {
    forall b, v, b', v' | ChosenAt(s'.nodes.Keys, s'.votes, b, v) && ChosenAt(s'.nodes.Keys, s'.votes, b', v') ensures v == v' {
      SmallRosterAgrees(s, s', b, v, b', v');
    }
  }

  /** Some two proposers differ; the one with the lower id first. */
  lemma Rivals(s: Cluster) returns (i: nat, j: nat)
    requires !OneConfiguredValue(s.objs)
    ensures i < |s.objs| && j < |s.objs| && i != j
    ensures s.objs[i].value != s.objs[j].value && s.objs[i].id <= s.objs[j].id
  {
    i, j :| 0 <= i < j < |s.objs| && s.objs[i].value != s.objs[j].value;
    if s.objs[j].id < s.objs[i].id {
      i, j := j, i;
    }
  }

  lemma UnfencedBreaks(s: Cluster) returns (s': Cluster)
    requires Roster(s) && !Fenced(s) && |s.nodes| > 0 && !OneConfiguredValue(s.objs)
    ensures RunsTo(s, s') && Broken(s')
  {
    var i, j := Rivals(s);
    assert IsQuorum(s.nodes.Keys, s.nodes.Keys) by { assert |s.nodes| == |s.nodes.Keys|; }
    if !s.sealed {
      s' := LateCallsSplit(s, i, j, s.nodes.Keys, s.nodes.Keys);
    } else {
      s' := LateSwapsSplit(s, i, j, s.nodes.Keys, s.nodes.Keys);
    }
  }

  lemma SharedIdBreaks(s: Cluster) returns (s': Cluster)
    requires Roster(s) && |s.nodes| >= 3 && SameIdSameValue(s.objs)
    requires !DistinctIds(s.objs) && !OneConfiguredValue(s.objs)
    ensures RunsTo(s, s') && Broken(s')
  {
    var i, j :| 0 <= i < j < |s.objs| && s.objs[i].id == s.objs[j].id;
    var m, n :| 0 <= m < n < |s.objs| && s.objs[m].value != s.objs[n].value;
    var k := if s.objs[m].value != s.objs[i].value then m else n;
    s' := SharedIdAndRivalSplit(s, i, j, k);
  }

  lemma OtherwiseBreaks(s: Cluster) returns (s': Cluster)
    requires Roster(s) && !Agreeable(s)
    ensures RunsTo(s, s') && Broken(s')
  {
    if !Fenced(s) {
      s' := UnfencedBreaks(s);
    } else if !SameIdSameValue(s.objs) {
      var i, j :| 0 <= i < j < |s.objs| && s.objs[i].id == s.objs[j].id && s.objs[i].value != s.objs[j].value;
      s' := SharedIdSplits(s, i, j);
    } else {
      s' := SharedIdBreaks(s);
    }
  }

  // ---- what can be seen of it ----

  ghost predicate ReportsAgree(s: Cluster) {
    forall t: nat, u: nat, v, v' | Won(s, t, v) && Won(s, u, v') :: v == v'
  }

  ghost predicate NeverReportsTwo(s: Cluster) {
    forall s' | RunsTo(s, s') :: ReportsAgree(s')
  }

  /** Whatever nodes learn, at whatever two moments of a run, is one value. */
  ghost predicate NeverLearnsTwo(s: Cluster) {
    forall s1, s2 | RunsTo(s, s1) && RunsTo(s1, s2) :: DecisionsAgree(s1, s2)
  }

  ghost predicate DecisionsAgree(s1: Cluster, s2: Cluster) {
    forall i, j | i in s1.decisions && j in s2.decisions :: s1.decisions[i].value == s2.decisions[j].value
  }

  /** The harness's agreement check passes after every run. */
  ghost predicate CheckPasses(s: Cluster) {
    forall s' | RunsTo(s, s') :: Agrees(s'.ledger, QuorumSize(|s'.nodes|))
  }

  lemma RosterRunIsSound(s: Cluster, s': Cluster)
    requires Roster(s) && RunsTo(s, s')
    ensures Sound(s')
  {
    var actions :| Leads(s, actions, s');
    RosterHolds(s);
    RunIsSound(s, actions, s');
  }

  lemma ReportsFollow(s: Cluster, s': Cluster)
    requires Roster(s) && RunsTo(s, s') && !Split(s')
    ensures ReportsAgree(s')
  {
    RosterRunIsSound(s, s');
    forall t: nat, u: nat, v, v' | Won(s', t, v) && Won(s', u, v') ensures v == v' {
      assert s'.rounds[t] in s'.rounds && s'.rounds[u] in s'.rounds;
      assert RoundOk(s', s'.rounds[t]) && RoundOk(s', s'.rounds[u]);
    }
  }

  lemma DecisionsFollow(s: Cluster, s1: Cluster, s2: Cluster)
    requires Roster(s) && RunsTo(s, s1) && RunsTo(s1, s2) && !Split(s2)
    ensures DecisionsAgree(s1, s2)
  {
    RunsOn(s, s1, s2);
    RosterRunIsSound(s, s1);
    RosterRunIsSound(s, s2);
    var actions :| Leads(s1, actions, s2);
    RunsGrow(s1, actions, s2);
    forall i, j | i in s1.decisions && j in s2.decisions ensures s1.decisions[i].value == s2.decisions[j].value {
      ChoiceIsStable(s1.nodes.Keys, s1.votes, s2.votes, s1.decisions[i].ballot, s1.decisions[i].value);
    }
  }

  lemma LearnRuns(s: Cluster, t: nat)
    requires Enabled(s, Learn(t))
    ensures RunsTo(s, Do(s, Learn(t)))
  {
    OneStep(s, Learn(t));
  }

  lemma WonCanBeLearned(s: Cluster, t: nat, v: Value)
    requires Sound(s) && Won(s, t, v)
    ensures Enabled(s, Learn(t)) && RunsTo(s, Do(s, Learn(t)))
    ensures exists i :: i in Do(s, Learn(t)).decisions && Do(s, Learn(t)).decisions[i].value == v
  {
    assert s.rounds[t] in s.rounds && RoundOk(s, s.rounds[t]);
    LearnRuns(s, t);
    assert Do(s, Learn(t)).decisions[s.objs[s.rounds[t].obj].id].value == v;
  }

  /** Two rounds that report different values let two different values be learned. */
  lemma BothAreLearned(s: Cluster, s': Cluster)
    requires Roster(s) && RunsTo(s, s') && !ReportsAgree(s')
    ensures !NeverLearnsTwo(s)
  {
    RosterRunIsSound(s, s');
    var t: nat, u: nat, v, v' :| Won(s', t, v) && Won(s', u, v') && v != v';
    WonCanBeLearned(s', t, v);
    var s1 := Do(s', Learn(t));
    RunsOn(s, s', s1);
    RosterRunIsSound(s, s1);
    WonCanBeLearned(s1, u, v');
    assert !DecisionsAgree(s1, Do(s1, Learn(u)));
  }

  lemma CheckFollows(s: Cluster, s': Cluster)
    requires Roster(s) && Agreeable(s) && RunsTo(s, s')
    ensures Agrees(s'.ledger, QuorumSize(|s'.nodes|))
  {
    RosterRunIsSound(s, s');
    AgreeableNeverSplits(s, s');
    var quorum := QuorumSize(|s'.nodes|);
    if s'.ledger != [] {
      RecordNeedsNode(s');
      AgreeableIsSingle(s, s');
      forall r, r' | r in s'.ledger && r' in s'.ledger && HasQuorum(s'.ledger, quorum, r.ballot) && HasQuorum(s'.ledger, quorum, r'.ballot)
        ensures r.value == r'.value
      {
        RecordedIsChosen(s', r);
        RecordedIsChosen(s', r');
      }
    }
  }

  lemma RecordNeedsNode(s: Cluster)
    requires VotesOk(s) && s.ledger != []
    ensures |s.nodes| > 0
  {
    assert s.ledger[0] in s.ledger && s.ledger[0].acceptor in s.nodes.Keys;
    assert |s.nodes| == |s.nodes.Keys|;
  }

  /** No ballot carries two values in the runs of an agreeable roster. */
  lemma AgreeableIsSingle(s: Cluster, s': Cluster)
    requires Roster(s) && Agreeable(s) && RunsTo(s, s') && |s'.nodes| > 0
    ensures OneValueEach(s'.net)
  {
    var actions :| Leads(s, actions, s');
    RosterRunIsSound(s, s');
    RunsGrow(s, actions, s');
    assert |s.nodes| == |s.nodes.Keys| && |s'.nodes| == |s'.nodes.Keys|;
    if OneConfiguredValue(s.objs) {
      OneValueIsSingle(s, s');
    } else if DistinctIds(s.objs) {
      DistinctIdsAlwaysDistinct(s, s');
      DistinctMeansOneValue(s');
    } else {
      SmallRosterIsSingle(s, s');
    }
  }

  /** Agreement, exactly: over any number of acceptors, the proposers of a roster never get two values chosen, in any run,
      if and only if the roster is agreeable. The same holds of two values reported, of two values learned, and of a
      failure of the harness's check. */
  lemma AgreementExactly(s: Cluster)
    requires Roster(s)
    ensures NeverSplits(s) <==> Agreeable(s)
    ensures NeverReportsTwo(s) <==> Agreeable(s)
    ensures NeverLearnsTwo(s) <==> Agreeable(s)
    ensures CheckPasses(s) <==> Agreeable(s)
  {
    if Agreeable(s) {
      AgreeableSeesOne(s);
    } else {
      var s' := OtherwiseBreaks(s);
      var t, u, v, v' :| Won(s', t, v) && Won(s', u, v') && v != v';
      assert !ReportsAgree(s');
      BothAreLearned(s, s');
      var actions :| Leads(s, actions, s');
      RunsGrow(s, actions, s');
    }
  }

  lemma AgreeableSeesOne(s: Cluster)
    requires Roster(s) && Agreeable(s)
    ensures NeverSplits(s) && NeverReportsTwo(s) && NeverLearnsTwo(s) && CheckPasses(s)
  {
    forall s' | RunsTo(s, s') ensures !Split(s') && ReportsAgree(s') && Agrees(s'.ledger, QuorumSize(|s'.nodes|)) {
      AgreeableNeverSplits(s, s');
      ReportsFollow(s, s');
      CheckFollows(s, s');
    }
    forall s1, s2 | RunsTo(s, s1) && RunsTo(s1, s2) ensures DecisionsAgree(s1, s2) {
      RunsOn(s, s1, s2);
      AgreeableNeverSplits(s, s2);
      DecisionsFollow(s, s1, s2);
    }
  }
}
