/** Runs in which two values are chosen: when there is none, and how one is shown. */
module Splits {
  import opened Ballots
  import opened Wrappers
  import opened Acceptors
  import opened Quorums
  import opened Tallies
  import opened Attempts
  import opened Protocol
  import opened Soundness
  import opened Safety
  import opened Ledgers
  import opened Theorems
  import opened Broadcasts
  import opened Schedules
  import opened Lockstep

  /** Two values chosen. */
  ghost predicate Split(s: Cluster) {
    exists b, v, b', v' ::
      ChosenAt(s.nodes.Keys, s.votes, b, v) && ChosenAt(s.nodes.Keys, s.votes, b', v') && v != v'
  }

  ghost predicate NeverSplits(s: Cluster) {
    forall s' | RunsTo(s, s') :: !Split(s')
  }

  ghost predicate OneConfiguredValue(objs: seq<ProposerObj>) {
    forall i, j | 0 <= i < j < |objs| :: objs[i].value == objs[j].value
  }

  /** Round t was reported as chosen, with value v. */
  predicate Won(s: Cluster, t: nat, v: Value) {
    t < |s.rounds| && s.rounds[t].attempt.outcome.Chosen? && s.rounds[t].attempt.value == v
  }

  /** All that can be seen to go wrong: two values are chosen, two rounds report them, and the harness's check fails. */
  ghost predicate Broken(s: Cluster) {
    && Split(s)
    && (exists t, u, v, v' :: Won(s, t, v) && Won(s, u, v') && v != v')
    && !Agrees(s.ledger, QuorumSize(|s.nodes|))
  }

  // ---- one configured value: nothing else can be chosen ----

  ghost predicate CarriesState(st: AcceptorState, x: Value) {
    st.hasAccepted ==> st.value == x
  }

  ghost predicate CarriesMachine(m: Machine, x: Value) {
    CarriesState(m.disk, x) && (m.mem.Some? ==> CarriesState(m.mem.value, x))
  }

  ghost predicate CarriesMessage(m: Message, x: Value) {
    match m
    case Sent(_, Accept(_, v)) => v == x
    case Replied(_, _, Promise(p)) => p.hasAccepted ==> p.value == x
    case _ => true
  }

  /** The only value anywhere is x. */
  ghost predicate Carries(s: Cluster, x: Value) {
    && (forall obj | obj in s.objs :: obj.value == x)
    && (forall a | a in s.nodes :: CarriesMachine(s.nodes[a], x))
    && (forall i | 0 <= i < |s.spares| :: CarriesState(s.spares[i].st, x))
    && (forall m | m in s.net :: CarriesMessage(m, x))
    && (forall vote | vote in s.votes :: vote.value == x)
  }

  lemma TallyCarries(s: Cluster, t: nat, rs: PrepareSlots, tally: PrepareTally, x: Value)
    requires Carries(s, x) && t < |s.rounds| && s.rounds[t].obj < |s.objs|
    requires HeardPrepares(s, t, s.objs[s.rounds[t].obj].peers, rs)
    requires IsPrepareTally(s.objs[s.rounds[t].obj].value, rs, tally)
    ensures tally.value == x
  {
    var obj := s.objs[s.rounds[t].obj];
    assert obj in s.objs;
    var lead :| Adopts(obj.value, rs, tally.adopted, tally.value, lead);
    if tally.adopted {
      var i: nat :| FirstHighest(rs, i) && Some((lead, tally.value)) == Reported(rs[i]);
      assert CarriesMessage(Replied(t, obj.peers[i], Promise(rs[i].value)), x);
    }
  }

  lemma DeliverCarries(s: Cluster, a: int, t: nat, req: Request, save: SaveOutcome, x: Value)
    requires Carries(s, x) && a in s.nodes && Sent(t, req) in s.net
    ensures Carries(DoDeliver(s, a, t, req, save), x)
  {
    var s' := DoDeliver(s, a, t, req, save);
    assert CarriesMachine(s.nodes[a], x) && CarriesMessage(Sent(t, req), x);
  }

  lemma StraggleCarries(s: Cluster, i: nat, t: nat, req: Request, save: SaveOutcome, x: Value)
    requires Carries(s, x) && i < |s.spares| && s.spares[i].acceptor in s.nodes && Sent(t, req) in s.net
    ensures Carries(DoStraggle(s, i, t, req, save), x)
  {
    var s' := DoStraggle(s, i, t, req, save);
    assert CarriesMachine(s.nodes[s.spares[i].acceptor], x) && CarriesMessage(Sent(t, req), x);
  }

  /** Acceptor objects that change places carry what they carried. */
  lemma SwapCarries(s: Cluster, action: Action, x: Value)
    requires Carries(s, x) && Enabled(s, action)
    requires action.CrashNode? || action.RestartNode? || action.Load? || action.Install?
    ensures Carries(Do(s, action), x)
  {
    var a := if action.Install? then s.spares[action.spare].acceptor else action.acceptor;
    assert CarriesMachine(s.nodes[a], x);
  }

  lemma AcceptorsCarry(s: Cluster, action: Action, x: Value)
    requires Carries(s, x) && Enabled(s, action) && ByAcceptors(action)
    ensures Carries(Do(s, action), x)
  {
    match action
    case Deliver(a, t, req, save) => DeliverCarries(s, a, t, req, save, x);
    case Straggle(i, t, req, save) => StraggleCarries(s, i, t, req, save, x);
    case _ => SwapCarries(s, action, x);
  }

  lemma TalliesCarry(s: Cluster, action: Action, x: Value)
    requires Carries(s, x) && Enabled(s, action) && (action.TallyPrepare? || action.TallyAccept?)
    ensures Carries(Do(s, action), x)
  {
    if action.TallyPrepare? {
      TallyCarries(s, action.t, action.prepares, action.prepareTally, x);
    }
  }

  lemma BookkeepingCarries(s: Cluster, action: Action, x: Value)
    requires Carries(s, x) && Enabled(s, action) && (action.Start? || action.FastForward? || action.Learn?)
    ensures Carries(Do(s, action), x)
  {
    if action.Start? {
      assert s.objs[action.k] in s.objs;
    } else {
      assert s.objs[s.rounds[action.t].obj] in s.objs;
    }
  }

  lemma StepCarries(s: Cluster, action: Action, x: Value)
    requires Carries(s, x) && Enabled(s, action) && !action.Spawn?
    ensures Carries(Do(s, action), x)
  {
    if ByAcceptors(action) {
      AcceptorsCarry(s, action, x);
    } else if action.TallyPrepare? || action.TallyAccept? {
      TalliesCarry(s, action, x);
    } else {
      BookkeepingCarries(s, action, x);
    }
  }

  lemma {:induction false} RunCarries(s: Cluster, actions: seq<Action>, s': Cluster, x: Value)
    requires Carries(s, x) && Leads(s, actions, s') && |s'.objs| == |s.objs|
    ensures Carries(s', x)
    decreases |actions|
  {
    if actions != [] {
      ObjsGrow(Do(s, actions[0]), actions[1..], s');
      StepCarries(s, actions[0], x);
      RunCarries(Do(s, actions[0]), actions[1..], s', x);
    }
  }

  lemma CarriedIsNotSplit(s: Cluster, x: Value)
    requires Carries(s, x)
    ensures !Split(s)
  {
    forall b, v | ChosenAt(s.nodes.Keys, s.votes, b, v) ensures v == x {
      var q :| IsQuorum(s.nodes.Keys, q) && AllVoted(s.votes, q, b, v);
      var a := QuorumsMeet(s.nodes.Keys, q, q);
      assert Vote(a, b, v) in s.votes;
    }
  }

  lemma OneValueNeverSplits(s: Cluster, s': Cluster)
    requires Roster(s) && RunsTo(s, s') && OneConfiguredValue(s.objs)
    ensures !Split(s')
  {
    var actions :| Leads(s, actions, s');
    var x := if s.objs == [] then 0 else s.objs[0].value;
    assert Carries(s, x);
    RunCarries(s, actions, s', x);
    CarriedIsNotSplit(s', x);
  }

  lemma OneValueIsSingle(s: Cluster, s': Cluster)
    requires Roster(s) && RunsTo(s, s') && OneConfiguredValue(s.objs)
    ensures OneValueEach(s'.net)
  {
    var actions :| Leads(s, actions, s');
    var x := if s.objs == [] then 0 else s.objs[0].value;
    assert Carries(s, x);
    RunCarries(s, actions, s', x);
    forall b, v | Proposed(s'.net, b, v) ensures v == x {
      var t: nat :| Sent(t, Accept(b, v)) in s'.net;
      assert CarriesMessage(Sent(t, Accept(b, v)), x);
    }
  }

  lemma DistinctIdsNeverSplit(s: Cluster, s': Cluster)
    requires Roster(s) && Fenced(s) && RunsTo(s, s') && DistinctIds(s.objs)
    ensures !Split(s')
  {
    var actions :| Leads(s, actions, s');
    DistinctIdsAlwaysDistinct(s, s');
    RosterHolds(s);
    RunIsSound(s, actions, s');
    DistinctMeansOneValue(s');
    RunKeeps(s, actions, s');
    InvIsNotSplit(s');
  }

  lemma InvIsNotSplit(s: Cluster)
    requires Inv(s) && OneValueEach(s.net)
    ensures !Split(s)
  {
    forall b, v, b', v' | ChosenAt(s.nodes.Keys, s.votes, b, v) && ChosenAt(s.nodes.Keys, s.votes, b', v') ensures v == v' {
      InvAgreement(s, b, v, b', v');
    }
  }

  // ---- showing a split ----

  lemma {:induction false} LedgerIsVoted(s: Cluster, actions: seq<Action>, s': Cluster)
    requires Leads(s, actions, s') && forall vote | vote in s.ledger :: vote in s.votes
    ensures forall vote | vote in s'.ledger :: vote in s'.votes
    decreases |actions|
  {
    if actions != [] {
      LedgerIsVoted(Do(s, actions[0]), actions[1..], s');
    }
  }

  lemma EnteredHasQuorum(ledger: seq<Vote>, all: set<int>, q: set<int>, b: Ballot, v: Value) returns (r: Vote)
    requires IsQuorum(all, q) && AllEntered(ledger, q, b, v)
    ensures r in ledger && r.ballot == b && r.value == v && HasQuorum(ledger, QuorumSize(|all|), b)
  {
    Inhabited(q);
    var a :| a in q;
    r := Vote(a, b, v);
    assert q <= Backers(ledger, b) by {
      forall c | c in q ensures c in Backers(ledger, b) {
        assert Vote(c, b, v) in ledger;
      }
    }
    SubsetSize(q, Backers(ledger, b));
    assert a in Backers(ledger, b);
  }

  lemma {:induction false} EnteredIsBroken(s: Cluster, actions: seq<Action>, s': Cluster, q: set<int>, b: Ballot, v: Value,
                        q': set<int>, b': Ballot, v': Value, t: nat, u: nat)
    requires Roster(s) && Leads(s, actions, s') && |s'.objs| == |s.objs| && s'.nodes.Keys == s.nodes.Keys
    requires IsQuorum(s.nodes.Keys, q) && AllEntered(s'.ledger, q, b, v) && Won(s', t, v)
    requires IsQuorum(s.nodes.Keys, q') && AllEntered(s'.ledger, q', b', v') && Won(s', u, v') && v != v'
    ensures RunsTo(s, s') && Broken(s')
  {
    LedgerIsVoted(s, actions, s');
    assert AllVoted(s'.votes, q, b, v) && AllVoted(s'.votes, q', b', v');
    assert ChosenAt(s'.nodes.Keys, s'.votes, b, v) && ChosenAt(s'.nodes.Keys, s'.votes, b', v');
    var r := EnteredHasQuorum(s'.ledger, s.nodes.Keys, q, b, v);
    var r' := EnteredHasQuorum(s'.ledger, s.nodes.Keys, q', b', v');
    assert |s'.nodes| == |s'.nodes.Keys|;
  }

  // ---- the first round of a roster ----

  /** What a fresh acceptor holds after a round at b that it promised and, or not, accepted. */
  function AfterFirst(b: Ballot, v: Value, accepted: bool): AcceptorState {
    if accepted then AcceptorState(b, b, v, true) else AcceptorState(b, ZERO, 0, false)
  }

  lemma FreshAfterRound(b: Ballot, v: Value, accepted: bool)
    requires b.round > 0
    ensures AfterRound(FRESH, b, v, true, accepted) == Holding(AfterFirst(b, v, accepted))
  {
  }

  /** No acceptor has served anything, and no proposer has started. */
  ghost predicate Unstarted(s: Cluster) {
    && (forall a | a in s.nodes :: s.nodes[a] == FRESH)
    && forall obj | obj in s.objs :: obj.round == 0 && Enumerates(obj.peers, s.nodes.Keys)
  }

  lemma FreshAdmits(s: Cluster, k: nat)
    requires Unstarted(s) && k < |s.objs|
    ensures EveryoneUp(s) && NoneAccepted(s, s.nodes.Keys) && Enumerates(s.objs[k].peers, s.nodes.Keys)
    ensures s.objs[k].round == 0
    ensures forall q | q <= s.nodes.Keys :: AllAdmit(s, NextBallot(s.objs[k]), q)
  {
    assert s.objs[k] in s.objs;
    forall q | q <= s.nodes.Keys ensures AllAdmit(s, NextBallot(s.objs[k]), q) {
      forall a | a in q ensures AdmitsAt(s, NextBallot(s.objs[k]), a) {
        assert s.nodes[a] == FRESH;
      }
    }
  }

  /** A proposer that starts over fresh acceptors is promised by all and gets its own value accepted by any of them. */
  lemma FirstRound(s: Cluster, k: nat, q: set<int>) returns (actions: seq<Action>, s': Cluster, attempt: Attempt)
    requires Unstarted(s) && k < |s.objs| && |s.nodes| > 0 && q <= s.nodes.Keys
    ensures Leads(s, actions, s') && RoundServed(s, k, s.nodes.Keys, q, s', attempt) && attempt.value == s.objs[k].value
    ensures forall a | a in s.nodes ::
      s'.nodes[a] == Holding(AfterFirst(Ballot(1, s.objs[k].id), s.objs[k].value, a in q))
  {
    FreshAdmits(s, k);
    assert |s.nodes| == |s.nodes.Keys|;
    var acts, last, att := OwnRound(s, k, s.nodes.Keys, q);
    actions, s', attempt := acts, last, att;
    forall a | a in s.nodes
      ensures s'.nodes[a] == Holding(AfterFirst(Ballot(1, s.objs[k].id), s.objs[k].value, a in q))
    {
      assert s.nodes[a] == FRESH;
      FreshAfterRound(NextBallot(s.objs[k]), s.objs[k].value, a in q);
    }
  }
}
