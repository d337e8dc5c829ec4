/** Clusters of at most two acceptors, where a quorum is everybody: there agreement survives a ballot that is issued
    again, provided that the proposers that share the id propose one value. */
module SmallClusters {
  import opened Ballots
  import opened Wrappers
  import opened Acceptors
  import opened Quorums
  import opened Tallies
  import opened Protocol
  import opened Soundness
  import opened Safety
  import opened Theorems

  ghost predicate SameIdSameValue(objs: seq<ProposerObj>) {
    forall i, j | 0 <= i < j < |objs| && objs[i].id == objs[j].id :: objs[i].value == objs[j].value
  }

  // ---- first reports: what an acceptor answers to b until it accepts at b ----

  predicate Below(hasAccepted: bool, accepted: Ballot, b: Ballot) {
    hasAccepted ==> accepted.Less(b)
  }

  function Report(st: AcceptorState, a: int, b: Ballot): PrepareResponse {
    PrepareResponse(true, b, st.accepted, st.value, st.hasAccepted, a)
  }

  /** Acceptor a promised b with p, having accepted nothing at b. */
  ghost predicate First(s: Cluster, t: nat, a: int, p: PrepareResponse) {
    && Replied(t, a, Promise(p)) in s.net && p.promised
    && t < |s.rounds| && Below(p.hasAccepted, p.accepted, s.rounds[t].attempt.ballot)
  }

  /** A state that has promised b and not accepted at it still reports p. */
  predicate StillSays(st: AcceptorState, a: int, b: Ballot, p: PrepareResponse) {
    st.promised == b && Below(st.hasAccepted, st.accepted, b) ==> p == Report(st, a, b)
  }

  predicate MachineSays(m: Machine, a: int, b: Ballot, p: PrepareResponse) {
    StillSays(m.disk, a, b, p) && (m.mem.Some? ==> StillSays(m.mem.value, a, b, p))
  }

  /** All first reports of one acceptor to one ballot are the same, and its state keeps to them. */
  ghost predicate Frozen(s: Cluster) {
    && (forall t: nat, a, p | First(s, t, a, p) :: a in s.nodes && MachineSays(s.nodes[a], a, s.rounds[t].attempt.ballot, p))
    && (forall t: nat, u: nat, a, p, q | First(s, t, a, p) && First(s, u, a, q)
                            && s.rounds[t].attempt.ballot == s.rounds[u].attempt.ballot :: p == q)
  }

  // ---- every value proposed at b is decided by the first reports to b ----

  /** The first report of every acceptor to ballot b. */
  ghost predicate FirstReports(s: Cluster, b: Ballot, rs: map<int, PrepareResponse>) {
    rs.Keys == s.nodes.Keys && forall a | a in rs :: FirstReport(s, b, a, rs[a])
  }

  ghost predicate FirstReport(s: Cluster, b: Ballot, a: int, p: PrepareResponse) {
    exists t: nat :: First(s, t, a, p) && s.rounds[t].attempt.ballot == b
  }

  ghost predicate Foremost(rs: map<int, PrepareResponse>, a: int) {
    a in rs && rs[a].hasAccepted && forall c | c in rs && rs[c].hasAccepted :: rs[a].accepted.AtLeast(rs[c].accepted)
  }

  ghost predicate OwnedBy(objs: seq<ProposerObj>, id: int, v: Value) {
    exists k :: 0 <= k < |objs| && objs[k].id == id && objs[k].value == v
  }

  ghost predicate Decides(objs: seq<ProposerObj>, b: Ballot, rs: map<int, PrepareResponse>, v: Value) {
    || (exists a :: Foremost(rs, a) && rs[a].value == v)
    || (OwnedBy(objs, b.node, v) && forall a | a in rs :: !rs[a].hasAccepted)
  }

  ghost predicate Backed(s: Cluster, b: Ballot, v: Value) {
    exists rs :: FirstReports(s, b, rs) && Decides(s.objs, b, rs, v)
  }

  ghost predicate AllBacked(s: Cluster) {
    forall b, v | Proposed(s.net, b, v) :: Backed(s, b, v)
  }

  /** What every state of a small cluster satisfies. */
  ghost predicate SmallInv(s: Cluster) {
    && |s.nodes| <= 2 && SameIdSameValue(s.objs)
    && Inv(s) && BallotsOk(s) && OneValueEach(s.net)
    && Frozen(s) && AllBacked(s)
  }

  lemma ReportIsProposed(s: Cluster, b: Ballot, a: int, p: PrepareResponse)
    requires Sound(s) && FirstReport(s, b, a, p) && p.hasAccepted
    ensures Proposed(s.net, p.accepted, p.value)
  {
    var t: nat :| First(s, t, a, p) && s.rounds[t].attempt.ballot == b;
    assert ReplyOk(s, t, a, Promise(p));
  }

  lemma SameFirstReports(s: Cluster, b: Ballot, rs: map<int, PrepareResponse>, rs': map<int, PrepareResponse>)
    requires Frozen(s) && FirstReports(s, b, rs) && FirstReports(s, b, rs')
    ensures rs == rs'
  {
    forall a | a in rs ensures rs[a] == rs'[a] {
      assert FirstReport(s, b, a, rs[a]) && FirstReport(s, b, a, rs'[a]);
    }
  }

  /** What the reports carry was proposed. */
  ghost predicate AllProposed(net: set<Message>, rs: map<int, PrepareResponse>) {
    forall a | a in rs && rs[a].hasAccepted :: Proposed(net, rs[a].accepted, rs[a].value)
  }

  lemma DecidedOnce(net: set<Message>, objs: seq<ProposerObj>, b: Ballot, rs: map<int, PrepareResponse>, v: Value, v': Value)
    requires OneValueEach(net) && SameIdSameValue(objs) && AllProposed(net, rs)
    requires Decides(objs, b, rs, v) && Decides(objs, b, rs, v')
    ensures v == v'
  {
    if a :| Foremost(rs, a) && rs[a].value == v {
      var c :| Foremost(rs, c) && rs[c].value == v';
      assert rs[a].accepted == rs[c].accepted;
      assert Proposed(net, rs[a].accepted, v) && Proposed(net, rs[a].accepted, v');
    }
  }

  lemma BackedIsOne(s: Cluster, b: Ballot, v: Value, v': Value)
    requires Inv(s) && Frozen(s) && OneValueEach(s.net) && SameIdSameValue(s.objs)
    requires Backed(s, b, v) && Backed(s, b, v')
    ensures v == v'
  {
    var rs: map<int, PrepareResponse> :| FirstReports(s, b, rs) && Decides(s.objs, b, rs, v);
    var rs': map<int, PrepareResponse> :| FirstReports(s, b, rs') && Decides(s.objs, b, rs', v');
    SameFirstReports(s, b, rs, rs');
    forall a | a in rs && rs[a].hasAccepted ensures Proposed(s.net, rs[a].accepted, rs[a].value) {
      ReportIsProposed(s, b, a, rs[a]);
    }
    DecidedOnce(s.net, s.objs, b, rs, v, v');
  }

  // ---- the tally ----

  /** In a small cluster a quorum of promises is a promise in every slot. */
  lemma EverybodyPromised(rs: PrepareSlots, n: nat)
    requires |rs| == n <= 2 && |Promisers(rs)| >= QuorumSize(n)
    ensures forall i | 0 <= i < |rs| :: rs[i].Some? && rs[i].value.promised
  {
    forall i | 0 <= i < |rs| ensures rs[i].Some? && rs[i].value.promised {
      var slot: nat := i;
      if slot !in Promisers(rs) {
        SubsetSize(Promisers(rs), Slots(n) - {slot});
      }
    }
  }

  function AsMap(peers: seq<int>, rs: PrepareSlots): map<int, PrepareResponse>
    requires |rs| == |peers| && (forall i, j :: 0 <= i < j < |peers| ==> peers[i] != peers[j])
    requires forall i | 0 <= i < |rs| :: rs[i].Some?
  {
    map i | 0 <= i < |peers| :: peers[i] := rs[i].value
  }

  /** A tally that meets an acceptance at its own ballot takes a value already proposed there. */
  lemma LaterTally(s: Cluster, t: nat, own: Value, peers: seq<int>, rs: PrepareSlots, tally: PrepareTally, i: nat)
    requires Heard(s, t, peers, rs) && IsPrepareTally(own, rs, tally)
    requires i < |rs| && rs[i].Some? && rs[i].value.promised
    requires !Below(rs[i].value.hasAccepted, rs[i].value.accepted, s.rounds[t].attempt.ballot)
    ensures Proposed(s.net, s.rounds[t].attempt.ballot, tally.value)
  {
    assert HeardFrom(s, t, peers[i], rs[i].value);
    assert Reports(rs[i]);
    var lead := AdoptedIsProposed(s, t, own, peers, rs, tally, i);
    assert lead == s.rounds[t].attempt.ballot;
  }

  /** A tally that meets none sees the first reports. */
  lemma FirstTallyReports(s: Cluster, t: nat, peers: seq<int>, rs: PrepareSlots)
    requires t < |s.rounds| && Enumerates(peers, s.nodes.Keys) && HeardPrepares(s, t, peers, rs)
    requires forall i | 0 <= i < |rs| :: rs[i].Some? && rs[i].value.promised
    requires forall i | 0 <= i < |rs| :: Below(rs[i].value.hasAccepted, rs[i].value.accepted, s.rounds[t].attempt.ballot)
    ensures FirstReports(s, s.rounds[t].attempt.ballot, AsMap(peers, rs))
  {
    var reports := AsMap(peers, rs);
    assert reports.Keys == s.nodes.Keys by {
      forall a ensures a in reports <==> a in s.nodes {
        assert a in peers <==> a in s.nodes.Keys;
      }
    }
    forall a | a in reports ensures FirstReport(s, s.rounds[t].attempt.ballot, a, reports[a]) {
      var i :| 0 <= i < |peers| && peers[i] == a;
      assert First(s, t, a, rs[i].value);
    }
  }

  lemma InMap(peers: seq<int>, rs: PrepareSlots, a: int) returns (i: nat)
    requires |rs| == |peers| && (forall i, j :: 0 <= i < j < |peers| ==> peers[i] != peers[j])
    requires forall i | 0 <= i < |rs| :: rs[i].Some?
    requires a in AsMap(peers, rs)
    ensures i < |rs| && peers[i] == a && AsMap(peers, rs)[a] == rs[i].value
  {
    i :| i < |peers| && peers[i] == a;
  }

  lemma HighestIsForemost(peers: seq<int>, rs: PrepareSlots, m: nat)
    requires |rs| == |peers| && (forall i, j :: 0 <= i < j < |peers| ==> peers[i] != peers[j])
    requires forall i | 0 <= i < |rs| :: rs[i].Some? && (rs[i].value.hasAccepted ==> Reports(rs[i]))
    requires FirstHighest(rs, m)
    ensures Foremost(AsMap(peers, rs), peers[m]) && AsMap(peers, rs)[peers[m]] == rs[m].value
  {
    var reports := AsMap(peers, rs);
    assert peers[m] in reports;
    forall c | c in reports && reports[c].hasAccepted ensures rs[m].value.accepted.AtLeast(reports[c].accepted) {
      var i := InMap(peers, rs, c);
    }
    var k := InMap(peers, rs, peers[m]);
  }

  /** And its value is the one they decide. */
  lemma FirstTallyDecides(objs: seq<ProposerObj>, own: Value, b: Ballot, peers: seq<int>, rs: PrepareSlots, tally: PrepareTally)
    requires |rs| == |peers| && (forall i, j :: 0 <= i < j < |peers| ==> peers[i] != peers[j])
    requires forall i | 0 <= i < |rs| :: rs[i].Some? && (rs[i].value.hasAccepted ==> Reports(rs[i]))
    requires IsPrepareTally(own, rs, tally) && OwnedBy(objs, b.node, own)
    ensures Decides(objs, b, AsMap(peers, rs), tally.value)
  {
    var lead :| Adopts(own, rs, tally.adopted, tally.value, lead);
    if tally.adopted {
      var m: nat :| FirstHighest(rs, m) && Some((lead, tally.value)) == Reported(rs[m]);
      HighestIsForemost(peers, rs, m);
    } else {
      forall a | a in AsMap(peers, rs) ensures !AsMap(peers, rs)[a].hasAccepted {
        var i := InMap(peers, rs, a);
      }
    }
  }

  lemma HeardReports(s: Cluster, t: nat, peers: seq<int>, rs: PrepareSlots)
    requires Heard(s, t, peers, rs)
    ensures forall i | 0 <= i < |rs| && rs[i].Some? && rs[i].value.promised && rs[i].value.hasAccepted :: Reports(rs[i])
  {
    forall i | 0 <= i < |rs| && rs[i].Some? && rs[i].value.promised && rs[i].value.hasAccepted ensures Reports(rs[i]) {
      assert HeardFrom(s, t, peers[i], rs[i].value);
    }
  }

  lemma EarlyTally(s: Cluster, t: nat, k: nat, rs: PrepareSlots, tally: PrepareTally)
    requires BallotsOk(s) && t < |s.rounds| && k == s.rounds[t].obj < |s.objs|
    requires Enumerates(s.objs[k].peers, s.nodes.Keys) && HeardPrepares(s, t, s.objs[k].peers, rs)
    requires IsPrepareTally(s.objs[k].value, rs, tally)
    requires forall i | 0 <= i < |rs| ::
      rs[i].Some? && rs[i].value.promised && (rs[i].value.hasAccepted ==> Reports(rs[i]))
    requires forall i | 0 <= i < |rs| :: Below(rs[i].value.hasAccepted, rs[i].value.accepted, s.rounds[t].attempt.ballot)
    ensures Backed(s, s.rounds[t].attempt.ballot, tally.value)
  {
    var b, peers, own := s.rounds[t].attempt.ballot, s.objs[k].peers, s.objs[k].value;
    FirstTallyReports(s, t, peers, rs);
    assert BallotOk(s, s.rounds[t]) && OwnedBy(s.objs, b.node, own);
    FirstTallyDecides(s.objs, own, b, peers, rs, tally);
  }

  lemma TallyIsBacked(s: Cluster, t: nat, k: nat, rs: PrepareSlots, tally: PrepareTally)
    requires SmallInv(s) && t < |s.rounds| && k == s.rounds[t].obj < |s.objs|
    requires HeardPrepares(s, t, s.objs[k].peers, rs) && IsPrepareTally(s.objs[k].value, rs, tally)
    requires tally.promises >= QuorumSize(|s.nodes|)
    ensures Backed(s, s.rounds[t].attempt.ballot, tally.value)
  {
    var b, peers := s.rounds[t].attempt.ballot, s.objs[k].peers;
    assert s.objs[k] in s.objs && |s.nodes| == |s.nodes.Keys|;
    EnumerationSize(peers, s.nodes.Keys);
    EverybodyPromised(rs, |s.nodes|);
    RepliesAreHeard(s, t, peers, rs);
    HeardReports(s, t, peers, rs);
    if i: nat :| i < |rs| && !Below(rs[i].value.hasAccepted, rs[i].value.accepted, b) {
      LaterTally(s, t, s.objs[k].value, peers, rs, tally, i);
    } else {
      EarlyTally(s, t, k, rs, tally);
    }
  }

  // ---- every step keeps it ----

  /** No message, round or proposer is lost. */
  ghost predicate Keeps(s: Cluster, s': Cluster) {
    && s.net <= s'.net && s'.nodes.Keys == s.nodes.Keys && |s'.rounds| >= |s.rounds| && |s'.objs| == |s.objs|
    && (forall t | 0 <= t < |s.rounds| :: s'.rounds[t].attempt.ballot == s.rounds[t].attempt.ballot)
    && (forall k | 0 <= k < |s.objs| :: SameProposer(s.objs[k], s'.objs[k]))
  }

  lemma FirstReportStays(s: Cluster, s': Cluster, b: Ballot, a: int, p: PrepareResponse)
    requires Keeps(s, s') && FirstReport(s, b, a, p)
    ensures FirstReport(s', b, a, p)
  {
    var t: nat :| First(s, t, a, p) && s.rounds[t].attempt.ballot == b;
    assert First(s', t, a, p);
  }

  lemma DecidesStays(objs: seq<ProposerObj>, objs': seq<ProposerObj>, b: Ballot, rs: map<int, PrepareResponse>, v: Value)
    requires |objs'| == |objs| && forall k | 0 <= k < |objs| :: SameProposer(objs[k], objs'[k])
    requires Decides(objs, b, rs, v)
    ensures Decides(objs', b, rs, v)
  {
    if OwnedBy(objs, b.node, v) {
      var k :| 0 <= k < |objs| && objs[k].id == b.node && objs[k].value == v;
      assert SameProposer(objs[k], objs'[k]);
      assert OwnedBy(objs', b.node, v);
    }
  }

  lemma BackedStays(s: Cluster, s': Cluster, b: Ballot, v: Value)
    requires Keeps(s, s') && Backed(s, b, v)
    ensures Backed(s', b, v)
  {
    var rs: map<int, PrepareResponse> :| FirstReports(s, b, rs) && Decides(s.objs, b, rs, v);
    forall a | a in rs ensures FirstReport(s', b, a, rs[a]) {
      FirstReportStays(s, s', b, a, rs[a]);
    }
    DecidesStays(s.objs, s'.objs, b, rs, v);
  }

  /** A machine that serves a request keeps to the first reports it has given. */
  lemma ServingKeepsSaying(a: int, m: Machine, req: Request, save: SaveOutcome, b: Ballot, p: PrepareResponse)
    requires MachineSays(m, a, b, p) && Floor(m).AtLeast(b)
    ensures MachineSays(Handle(a, m, req, save).0, a, b, p)
  {
  }

  lemma DeliverFreezes(s: Cluster, a: int, t: nat, req: Request, save: SaveOutcome)
    requires Inv(s) && Frozen(s) && a in s.nodes && Sent(t, req) in s.net
    ensures Frozen(DoDeliver(s, a, t, req, save))
  {
    var s' := DoDeliver(s, a, t, req, save);
    assert RequestOk(s, t, req);
    forall u: nat, c, p | First(s', u, c, p)
      ensures c in s'.nodes && MachineSays(s'.nodes[c], c, s'.rounds[u].attempt.ballot, p)
    {
      if First(s, u, c, p) {
        assert ReplyOk(s, u, c, Promise(p)) && PromisedTo(s, u, c, p);
        ServingKeepsSaying(c, s.nodes[c], req, save, s.rounds[u].attempt.ballot, p);
      } else {
        NewFirst(s, a, t, req, save, u, c, p);
      }
    }
    forall u: nat, w: nat, c, p, q | First(s', u, c, p) && First(s', w, c, q)
                                  && s'.rounds[u].attempt.ballot == s'.rounds[w].attempt.ballot
      ensures p == q
    {
      if First(s, u, c, p) && !First(s, w, c, q) {
        OldSaysNew(s, a, t, req, save, u, c, p, w, q);
      } else if First(s, w, c, q) && !First(s, u, c, p) {
        OldSaysNew(s, a, t, req, save, w, c, q, u, p);
      }
    }
  }

  /** A reply that was not there before is the one just given. */
  lemma NewFirst(s: Cluster, a: int, t: nat, req: Request, save: SaveOutcome, u: nat, c: int, p: PrepareResponse)
    requires a in s.nodes && Sent(t, req) in s.net && RequestOk(s, t, req)
    requires First(DoDeliver(s, a, t, req, save), u, c, p) && !First(s, u, c, p)
    ensures u == t && c == a && req.Prepare? && s.rounds[t].attempt.ballot == req.ballot
    ensures s.nodes[a].mem.Some? && Admits(s.nodes[a].mem.value, req.ballot) && p == Report(s.nodes[a].mem.value, a, req.ballot)
    ensures MachineSays(DoDeliver(s, a, t, req, save).nodes[a], a, req.ballot, p)
  {
  }

  lemma OldSaysNew(s: Cluster, a: int, t: nat, req: Request, save: SaveOutcome, u: nat, c: int, p: PrepareResponse, w: nat, q: PrepareResponse)
    requires Inv(s) && Frozen(s) && a in s.nodes && Sent(t, req) in s.net && RequestOk(s, t, req)
    requires First(s, u, c, p) && !First(s, w, c, q) && First(DoDeliver(s, a, t, req, save), w, c, q)
    requires s.rounds[u].attempt.ballot == s.rounds[w].attempt.ballot
    ensures p == q
  {
    NewFirst(s, a, t, req, save, w, c, q);
    assert ReplyOk(s, u, c, Promise(p)) && PromisedTo(s, u, c, p);
    assert MachineSays(s.nodes[a], a, req.ballot, p);
  }

  /** A step that promises nothing and moves acceptors only by crashes and restarts keeps the first reports. */
  lemma NoPromiseFreezes(s: Cluster, s': Cluster)
    requires RepliesOk(s, s.net) && Frozen(s) && s'.nodes.Keys == s.nodes.Keys && |s'.rounds| >= |s.rounds|
    requires forall t | 0 <= t < |s.rounds| :: s'.rounds[t].attempt.ballot == s.rounds[t].attempt.ballot
    requires forall t, a, p | Replied(t, a, Promise(p)) in s'.net && p.promised :: Replied(t, a, Promise(p)) in s.net
    requires forall a | a in s.nodes :: s'.nodes[a] in {s.nodes[a], Crash(s.nodes[a]), Restart(s.nodes[a])}
    ensures Frozen(s')
  {
    forall t: nat, a, p | First(s', t, a, p) ensures First(s, t, a, p) {
      assert ReplyOk(s, t, a, Promise(p));
    }
  }

  lemma StepFreezes(s: Cluster, action: Action)
    requires Inv(s) && BallotsOk(s) && Frozen(s) && Enabled(s, action)
    ensures Frozen(Do(s, action))
  {
    if action.Deliver? {
      DeliverFreezes(s, action.acceptor, action.t, action.req, action.save);
    } else {
      BallotsStay(s, action);
      StepMovesLittle(s, action);
      NoPromiseFreezes(s, Do(s, action));
    }
  }

  /** Nothing but a delivery promises anything, behind a fence. */
  lemma StepMovesLittle(s: Cluster, action: Action)
    requires Fenced(s) && Enabled(s, action) && !action.Deliver?
    ensures var s' := Do(s, action);
            && (forall t, a, p | Replied(t, a, Promise(p)) in s'.net && p.promised :: Replied(t, a, Promise(p)) in s.net)
            && s'.nodes.Keys == s.nodes.Keys
            && (forall a | a in s.nodes :: s'.nodes[a] in {s.nodes[a], Crash(s.nodes[a]), Restart(s.nodes[a])})
  {
  }

  lemma StepKeepsAll(s: Cluster, action: Action)
    requires BallotsOk(s) && Enabled(s, action) && !action.Spawn?
    ensures Keeps(s, Do(s, action))
  {
    BallotsStay(s, action);
    StepGrows(s, action);
    StepMovesRounds(s, action);
    ObjsKept(s, action);
  }

  lemma ObjsKept(s: Cluster, action: Action)
    requires Enabled(s, action) && !action.Spawn?
    ensures |Do(s, action).objs| == |s.objs|
  {
  }

  lemma StepBacks(s: Cluster, action: Action)
    requires SmallInv(s) && Enabled(s, action) && !action.Spawn?
    ensures AllBacked(Do(s, action)) && OneValueEach(Do(s, action).net)
  {
    var s' := Do(s, action);
    StepKeepsAll(s, action);
    forall b, v | Proposed(s'.net, b, v) ensures Backed(s, b, v) {
      if !Proposed(s.net, b, v) {
        NewIsBacked(s, action, b, v);
      }
    }
    forall b, v, v' | Proposed(s'.net, b, v) && Proposed(s'.net, b, v') ensures v == v' {
      BackedIsOne(s, b, v, v');
    }
    forall b, v | Proposed(s'.net, b, v) ensures Backed(s', b, v) {
      BackedStays(s, s', b, v);
    }
  }

  lemma NewIsBacked(s: Cluster, action: Action, b: Ballot, v: Value)
    requires SmallInv(s) && Enabled(s, action) && !action.Spawn?
    requires Proposed(Do(s, action).net, b, v) && !Proposed(s.net, b, v)
    ensures Backed(s, b, v)
  {
    NewAcceptIsTallied(s, action, b, v);
    TallyIsBacked(s, action.t, s.rounds[action.t].obj, action.prepares, action.prepareTally);
  }

  lemma StaysSmall(s: Cluster, s': Cluster)
    requires |s.nodes| <= 2 && SameIdSameValue(s.objs) && Keeps(s, s')
    ensures |s'.nodes| <= 2 && SameIdSameValue(s'.objs)
  {
    assert |s.nodes| == |s.nodes.Keys| && |s'.nodes| == |s'.nodes.Keys|;
    forall k | 0 <= k < |s.objs| ensures s'.objs[k].id == s.objs[k].id && s'.objs[k].value == s.objs[k].value {
      assert SameProposer(s.objs[k], s'.objs[k]);
    }
  }

  lemma StepKeepsSmall(s: Cluster, action: Action)
    requires SmallInv(s) && Enabled(s, action) && !action.Spawn?
    ensures SmallInv(Do(s, action))
  {
    StepKeeps(s, action);
    BallotsStayOk(s, action);
    StepFreezes(s, action);
    StepBacks(s, action);
    StepKeepsAll(s, action);
    StaysSmall(s, Do(s, action));
  }

  lemma {:induction false} RunKeepsSmall(s: Cluster, actions: seq<Action>, s': Cluster)
    requires SmallInv(s) && Leads(s, actions, s') && |s'.objs| == |s.objs|
    ensures SmallInv(s')
    decreases |actions|
  {
    if actions != [] {
      ObjsGrow(Do(s, actions[0]), actions[1..], s');
      StepKeepsSmall(s, actions[0]);
      RunKeepsSmall(Do(s, actions[0]), actions[1..], s');
    }
  }

  /** With at most two acceptors, no ballot ever carries two values, whoever shares an id, if those propose one value. */
  lemma SmallRosterIsSingle(s: Cluster, s': Cluster)
    requires Roster(s) && Fenced(s) && |s.nodes| <= 2 && SameIdSameValue(s.objs) && RunsTo(s, s')
    ensures Inv(s') && OneValueEach(s'.net)
  {
    var actions :| Leads(s, actions, s');
    RunKeepsSmall(s, actions, s');
  }

  lemma SmallRosterAgrees(s: Cluster, s': Cluster, b: Ballot, v: Value, b': Ballot, v': Value)
    requires Roster(s) && Fenced(s) && |s.nodes| <= 2 && SameIdSameValue(s.objs) && RunsTo(s, s')
    requires ChosenAt(s'.nodes.Keys, s'.votes, b, v) && ChosenAt(s'.nodes.Keys, s'.votes, b', v')
    ensures v == v'
  {
    SmallRosterIsSingle(s, s');
    InvAgreement(s', b, v, b', v');
  }
}
