/** The console's view of the cluster (pkg/console/cluster.go:79-133), gathered from snapshots of the nodes taken at
    different moments (pkg/node/node.go:138-172). */
module Statuses {
  import opened Wrappers
  import opened Acceptors
  import opened Quorums
  import opened Protocol
  import opened Soundness
  import opened Safety
  import opened Ledgers
  import opened Theorems

  /** The faults a node injects into its calls (pkg/fault/fault.go:17-24), with rates as exact numbers. */
  datatype Faults = Faults(dropPrepare: real, dropAccept: real, latencyMax: int, isolated: bool, blocked: map<int, bool>)

  /** The part of a snapshot that Status reads: whether the node runs, what it has learned, and its faults. */
  datatype Snapshot = Snapshot(alive: bool, decision: Option<Decision>, faults: Faults, chaos: bool)

  /** An unreachable node has no snapshot. */
  type NodeStatus = Option<Snapshot>

  datatype ClusterStatus = ClusterStatus(
    nodes: seq<NodeStatus>, reachable: nat, alive: nat, learned: nat, values: seq<Value>, agreed: bool,
    disagreement: bool, settledValue: Value, hasSettled: bool, faultsPresent: bool)

  predicate FaultsActive(snap: Snapshot) {
    if snap.faults.isolated || snap.chaos then true
    else if snap.faults.dropPrepare > 0.0 || snap.faults.dropAccept > 0.0 then true
    else if snap.faults.latencyMax > 0 then true
    else |snap.faults.blocked| > 0
  }

  /** Calls go through as sent: nothing is dropped, delayed or cut off. */
  predicate Undisturbed(status: NodeStatus) {
    status.Some? ==>
      && !status.value.chaos && !status.value.faults.isolated && status.value.faults.blocked == map[]
      && status.value.faults.dropPrepare <= 0.0 && status.value.faults.dropAccept <= 0.0
      && status.value.faults.latencyMax <= 0
  }

  function Knows(status: NodeStatus): Option<Value> {
    if status.Some? && status.value.decision.Some? then Some(status.value.decision.value.value) else None
  }

  function Learners(statuses: seq<NodeStatus>): set<nat> {
    set i | i in Slots(|statuses|) && Knows(statuses[i]).Some?
  }

  function Reachables(statuses: seq<NodeStatus>): set<nat> {
    set i | i in Slots(|statuses|) && statuses[i].Some?
  }

  function Alives(statuses: seq<NodeStatus>): set<nat> {
    set i | i in Slots(|statuses|) && statuses[i].Some? && statuses[i].value.alive
  }

  /** The counts, the learned values in order, each once, and whether any node is disturbed. */
  ghost predicate Sums(statuses: seq<NodeStatus>, reachable: nat, alive: nat, learned: nat, values: seq<Value>, faultsPresent: bool) {
    && reachable == |Reachables(statuses)| && alive == |Alives(statuses)| && learned == |Learners(statuses)|
    && IsValueList(KnownValues(statuses), values)
    && (faultsPresent <==> exists i :: 0 <= i < |statuses| && !Undisturbed(statuses[i]))
  }

  ghost predicate Counts(statuses: seq<NodeStatus>, out: ClusterStatus) {
    Sums(statuses, out.reachable, out.alive, out.learned, out.values, out.faultsPresent)
  }

  ghost predicate IsValueList(known: seq<Option<Value>>, values: seq<Value>) {
    IncreasingInts(values) && forall v: Value :: v in values <==> Some(v) in known
  }

  function KnownValues(statuses: seq<NodeStatus>): (vs: seq<Option<Value>>)
    ensures |vs| == |statuses|
  {
    seq(|statuses|, i requires 0 <= i < |statuses| => Knows(statuses[i]))
  }

  /** What Status promises. */
  ghost predicate IsStatus(statuses: seq<NodeStatus>, out: ClusterStatus) {
    && Counts(statuses, out) && out.nodes == statuses
    && (out.disagreement <==> |out.values| > 1) && (out.agreed <==> !out.disagreement)
    && (out.hasSettled <==> |out.values| == 1 && out.learned >= QuorumSize(|statuses|))
    && (|out.values| == 1 ==> out.settledValue == out.values[0])
  }

  /** One node more adds its slot or none. */
  lemma SlotAdded(before: set<nat>, n: nat, joins: bool, after: set<nat>)
    requires forall i: nat :: i in after <==> i in before || (i == n && joins)
    requires n !in before
    ensures |after| == |before| + if joins then 1 else 0
  {
    assert after == before + if joins then {n} else {};
  }

  lemma ReachableAdded(statuses: seq<NodeStatus>, x: NodeStatus)
    ensures |Reachables(statuses + [x])| == |Reachables(statuses)| + (if x.Some? then 1 else 0)
  {
    SlotAdded(Reachables(statuses), |statuses|, x.Some?, Reachables(statuses + [x]));
  }

  lemma AliveAdded(statuses: seq<NodeStatus>, x: NodeStatus)
    ensures |Alives(statuses + [x])| == |Alives(statuses)| + (if x.Some? && x.value.alive then 1 else 0)
  {
    SlotAdded(Alives(statuses), |statuses|, x.Some? && x.value.alive, Alives(statuses + [x]));
  }

  lemma LearnerAdded(statuses: seq<NodeStatus>, x: NodeStatus)
    ensures |Learners(statuses + [x])| == |Learners(statuses)| + (if Knows(x).Some? then 1 else 0)
  {
    SlotAdded(Learners(statuses), |statuses|, Knows(x).Some?, Learners(statuses + [x]));
  }

  function InsertValue(v: Value, vs: seq<Value>): (r: seq<Value>)
    requires IncreasingInts(vs) && v !in vs
    ensures IncreasingInts(r) && forall y: Value :: y in r <==> y == v || y in vs
  {
    var r := InsertInt(v, vs);
    assert forall i | 0 <= i < |r| :: r[i] in r && r[i] >= 0;
    r
  }

  function WithValue(values: seq<Value>, v: Option<Value>): (r: seq<Value>)
    requires IncreasingInts(values)
    ensures IncreasingInts(r)
  {
    if v.Some? && v.value !in values then InsertValue(v.value, values) else values
  }

  /** The status after one more node. */
  function Counted(out: ClusterStatus, x: NodeStatus): ClusterStatus
    requires IncreasingInts(out.values)
  {
    if x.None? then out
    else
      out.(reachable := out.reachable + 1,
           alive := if x.value.alive then out.alive + 1 else out.alive,
           learned := if Knows(x).Some? then out.learned + 1 else out.learned,
           values := WithValue(out.values, Knows(x)),
           faultsPresent := out.faultsPresent || FaultsActive(x.value))
  }

  lemma ValueAdded(known: seq<Option<Value>>, values: seq<Value>, v: Option<Value>)
    requires IsValueList(known, values)
    ensures IsValueList(known + [v], WithValue(values, v))
  {
    assert forall x :: x in known + [v] <==> x in known || x == v;
  }

  lemma CountsAdded(statuses: seq<NodeStatus>, x: NodeStatus, out: ClusterStatus)
    requires Counts(statuses, out)
    ensures Counts(statuses + [x], Counted(out, x))
  {
    ReachableAdded(statuses, x);
    AliveAdded(statuses, x);
    LearnerAdded(statuses, x);
    ValueAdded(KnownValues(statuses), out.values, Knows(x));
    assert KnownValues(statuses + [x]) == KnownValues(statuses) + [Knows(x)];
    FaultAdded(statuses, x);
  }

  lemma FaultAdded(statuses: seq<NodeStatus>, x: NodeStatus)
    ensures (exists i :: 0 <= i < |statuses + [x]| && !Undisturbed((statuses + [x])[i]))
       <==> (exists i :: 0 <= i < |statuses| && !Undisturbed(statuses[i])) || (x.Some? && FaultsActive(x.value))
  {
    var more := statuses + [x];
    assert more[|statuses|] == x;
    if i :| 0 <= i < |statuses| && !Undisturbed(statuses[i]) {
      assert more[i] == statuses[i];
    }
    if x.Some? {
      assert |x.value.faults.blocked| == 0 <==> x.value.faults.blocked == map[];
    }
  }

  method AddValue(before: seq<Value>, v: Value) returns (values: seq<Value>)
    requires IncreasingInts(before)
    ensures values == WithValue(before, Some(v))
  {
    values := before;
    if v !in values {
      values := InsertValue(v, values);
    }
  }

  /** One pass of the loop: what one node adds. */
  method CountNode(before: ClusterStatus, s: NodeStatus) returns (out: ClusterStatus)
    requires IncreasingInts(before.values)
    ensures out == Counted(before, s)
  {
    if s.None? {
      return before;
    }
    var alive, learned, values, faultsPresent := before.alive, before.learned, before.values, before.faultsPresent;
    if s.value.alive {
      alive := alive + 1;
    }
    if s.value.decision.Some? {
      var v := s.value.decision.value.value;
      learned := learned + 1;
      values := AddValue(values, v);
    }
    if FaultsActive(s.value) {
      faultsPresent := true;
    }
    out := before.(reachable := before.reachable + 1, alive := alive, learned := learned, values := values,
                   faultsPresent := faultsPresent);
  }

  /** The loop over the nodes; the verdict is still open. */
  method CountAll(statuses: seq<NodeStatus>) returns (out: ClusterStatus)
    ensures Counts(statuses, out)
    ensures out.nodes == statuses && out.agreed && !out.disagreement && !out.hasSettled
  {
    out := ClusterStatus(statuses, 0, 0, 0, [], true, false, 0, false, false);
    assert Counts(statuses[..0], out);
    var i := 0;
    while i < |statuses|
      invariant 0 <= i <= |statuses|
      invariant Counts(statuses[..i], out)
      invariant out.nodes == statuses && out.agreed && !out.disagreement && !out.hasSettled
    {
      assert statuses[..i + 1] == statuses[..i] + [statuses[i]];
      CountsAdded(statuses[..i], statuses[i], out);
      out := CountNode(out, statuses[i]);
      i := i + 1;
    }
    assert statuses[..i] == statuses;
  }

  method Status(statuses: seq<NodeStatus>) returns (out: ClusterStatus)
    ensures IsStatus(statuses, out)
  {
    out := CountAll(statuses);
    if |out.values| > 1 {
      out := out.(agreed := false, disagreement := true);
    }
    if |out.values| == 1 {
      out := out.(settledValue := out.values[0], hasSettled := out.learned >= |statuses| / 2 + 1);
    }
  }

  /** The status of node id as a snapshot of state s shows it, if the node was reached. */
  ghost predicate TakenFrom(s: Cluster, id: int, status: NodeStatus) {
    status.Some? ==> status.value.decision == if id in s.decisions then Some(s.decisions[id]) else None
  }

  /** One snapshot per node, each taken at some moment of the run that ends in end. */
  ghost predicate Gathered(end: Cluster, ids: seq<int>, statuses: seq<NodeStatus>) {
    && |ids| == |statuses|
    && forall i | 0 <= i < |ids| :: TakenDuring(end, ids[i], statuses[i])
  }

  ghost predicate TakenDuring(end: Cluster, id: int, status: NodeStatus) {
    exists s, q :: Reachable(s) && Leads(s, q, end) && TakenFrom(s, id, status)
  }

  lemma KnownIsChosen(end: Cluster, ids: seq<int>, statuses: seq<NodeStatus>, i: nat) returns (d: Decision)
    requires Gathered(end, ids, statuses) && i < |statuses| && Knows(statuses[i]).Some?
    ensures Knows(statuses[i]) == Some(d.value) && ChosenAt(end.nodes.Keys, end.votes, d.ballot, d.value)
    ensures Reachable(end)
  {
    assert TakenDuring(end, ids[i], statuses[i]);
    var s, q :| Reachable(s) && Leads(s, q, end) && TakenFrom(s, ids[i], statuses[i]);
    d := statuses[i].value.decision.value;
    LearnedIsChosen(s, q, end, ids[i]);
    ReachesOn(s, q, end);
  }

  /** A learner's decision is what a round of that very node was reported as chosen with. */
  lemma KnownIsOwn(end: Cluster, ids: seq<int>, statuses: seq<NodeStatus>, i: nat) returns (t: nat)
    requires Gathered(end, ids, statuses) && i < |statuses| && Knows(statuses[i]).Some?
    ensures statuses[i].Some? && statuses[i].value.decision.Some? && WonBy(end, ids[i], t, statuses[i].value.decision.value)
  {
    assert TakenDuring(end, ids[i], statuses[i]);
    var s, q :| Reachable(s) && Leads(s, q, end) && TakenFrom(s, ids[i], statuses[i]);
    t := LearnedFromOwnRound(s, q, end, ids[i]);
  }

  /** Node id had a round reported as chosen with this value. */
  ghost predicate Won(end: Cluster, id: int, v: Value) {
    exists t: nat, b :: WonBy(end, id, t, Decision(b, v))
  }

  lemma OneValueKnown(end: Cluster, ids: seq<int>, statuses: seq<NodeStatus>, i: nat, j: nat)
    requires Gathered(end, ids, statuses) && Fenced(end) && OneValueEach(end.net)
    requires i < |statuses| && Knows(statuses[i]).Some? && j < |statuses| && Knows(statuses[j]).Some?
    ensures Knows(statuses[i]) == Knows(statuses[j])
  {
    var d := KnownIsChosen(end, ids, statuses, i);
    var e := KnownIsChosen(end, ids, statuses, j);
    Agreement(end, d.ballot, d.value, e.ballot, e.value);
  }

  lemma ValuesKnown(statuses: seq<NodeStatus>, out: ClusterStatus, i: nat)
    requires Counts(statuses, out) && i in Learners(statuses)
    ensures Knows(statuses[i]).value in out.values
  {
    assert KnownValues(statuses)[i] == Knows(statuses[i]);
  }

  /** However old each snapshot is, the console never shows two values. */
  lemma StatusNeverDisagrees(end: Cluster, ids: seq<int>, statuses: seq<NodeStatus>, out: ClusterStatus)
    requires Gathered(end, ids, statuses) && Fenced(end) && OneValueEach(end.net)
    requires IsStatus(statuses, out)
    ensures |out.values| <= 1 && out.agreed && !out.disagreement
  {
    if |out.values| > 1 {
      var i := WhoKnows(statuses, out, out.values[0]);
      var j := WhoKnows(statuses, out, out.values[1]);
      OneValueKnown(end, ids, statuses, i, j);
      assert false;
    }
  }

  lemma LearnersKnowIt(statuses: seq<NodeStatus>, out: ClusterStatus)
    requires IsStatus(statuses, out) && out.hasSettled
    ensures forall i | i in Learners(statuses) :: Knows(statuses[i]) == Some(out.settledValue)
  {
    forall j | j in Learners(statuses) ensures Knows(statuses[j]) == Some(out.settledValue) {
      ValuesKnown(statuses, out, j);
    }
  }

  /** In every run at all, a value the console shows as settled is chosen, and a quorum of its targets, all different
      nodes, learned it, each from a round of its own that was reported as chosen with it. */
  lemma SettledIsChosen(end: Cluster, ids: seq<int>, statuses: seq<NodeStatus>, out: ClusterStatus)
    requires Gathered(end, ids, statuses) && IsStatus(statuses, out) && out.hasSettled
    requires forall i, j | 0 <= i < j < |ids| :: ids[i] != ids[j]
    ensures exists b :: ChosenAt(end.nodes.Keys, end.votes, b, out.settledValue)
    ensures |At(ids, Learners(statuses))| >= QuorumSize(|ids|)
    ensures forall i | i in Learners(statuses) :: Knows(statuses[i]) == Some(out.settledValue) && Won(end, ids[i], out.settledValue)
  {
    var i := WhoKnows(statuses, out, out.settledValue);
    var d := KnownIsChosen(end, ids, statuses, i);
    LearnersKnowIt(statuses, out);
    forall j | j in Learners(statuses) ensures Won(end, ids[j], out.settledValue) {
      var t := KnownIsOwn(end, ids, statuses, j);
      assert WonBy(end, ids[j], t, Decision(statuses[j].value.decision.value.ballot, out.settledValue));
    }
    SlotsAreAcceptors(ids, (set id | id in ids), Learners(statuses));
  }

  lemma WhoKnows(statuses: seq<NodeStatus>, out: ClusterStatus, v: Value) returns (i: nat)
    requires Counts(statuses, out) && v in out.values
    ensures i < |statuses| && Knows(statuses[i]) == Some(v)
  {
    i :| i < |statuses| && KnownValues(statuses)[i] == Some(v);
  }
}
