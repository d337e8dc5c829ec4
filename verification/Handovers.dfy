/** What happens when an acceptor works on a store that another has taken over. A node's call fetches the acceptor under
    the node's lock and then lets go of it (pkg/paxostest/harness.go:93-121), and a restart loads the store before it
    takes the lock (pkg/paxostest/harness.go:262-270). So a call may run on the old acceptor after a restart, and a
    restart may put in place an acceptor that missed what was saved meanwhile. Either loses a promise, and with it
    agreement. */
module Handovers {
  import opened Ballots
  import opened Wrappers
  import opened Acceptors
  import opened Quorums
  import opened Attempts
  import opened Protocol
  import opened Theorems
  import opened Broadcasts
  import opened Schedules
  import opened Lockstep
  import opened Splits

  // ---- calls that straddle a crash and a restart ----

  /** A call with this message still runs at an old acceptor object of a, which is in state st. */
  ghost predicate Waits(s: Cluster, a: int, st: AcceptorState, call: Message) {
    exists i :: 0 <= i < |s.spares| && s.spares[i].acceptor == a && s.spares[i].st == st && call in s.spares[i].calls
  }

  ghost predicate AllWait(s: Cluster, d: set<int>, st: AcceptorState, call: Message) {
    forall a | a in d :: Waits(s, a, st, call)
  }

  /** Every acceptor object but the current ones belongs to a node in d. */
  ghost predicate SparesIn(s: Cluster, d: set<int>) {
    forall i | 0 <= i < |s.spares| :: s.spares[i].acceptor in d
  }

  ghost predicate AllHolding(s: Cluster, d: set<int>, st: AcceptorState) {
    forall a | a in d :: a in s.nodes && s.nodes[a] == Holding(st)
  }

  /** A node crashes and restarts while a call is out. */
  lemma HandedOver(s: Cluster, a: int, st: AcceptorState, call: Message) returns (actions: seq<Action>, s': Cluster)
    requires a in s.nodes && s.nodes[a] == Holding(st) && !st.hasAccepted && call in s.net
    ensures Leads(s, actions, s') && s' == s.(spares := s.spares + [Spare(a, st, s.net)])
    ensures Waits(s', a, st, call)
  {
    var s1 := Do(s, CrashNode(a));
    OneStep(s, CrashNode(a));
    OneStep(s1, RestartNode(a));
    s' := Do(s1, RestartNode(a));
    LeadsThrough(s, [CrashNode(a)], s1, [RestartNode(a)], s');
    actions := [CrashNode(a)] + [RestartNode(a)];
    assert s'.nodes == s.nodes;
    assert s'.spares[|s.spares|] == Spare(a, st, s.net);
  }

  lemma {:induction false} AllHandedOver(s: Cluster, d: set<int>, st: AcceptorState, call: Message)
    returns (actions: seq<Action>, s': Cluster)
    requires AllHolding(s, d, st) && !st.hasAccepted && call in s.net
    ensures Leads(s, actions, s') && s' == s.(spares := s'.spares) && s.spares <= s'.spares
    ensures AllWait(s', d, st, call)
    ensures forall i | |s.spares| <= i < |s'.spares| :: s'.spares[i].acceptor in d
    decreases d
  {
    if d == {} {
      actions, s' := [], s;
    } else {
      Inhabited(d);
      var a :| a in d;
      var p, s1 := AllHandedOver(s, d - {a}, st, call);
      var q, s2 := HandedOver(s1, a, st, call);
      LeadsThrough(s, p, s1, q, s2);
      actions, s' := p + q, s2;
      forall c | c in d ensures Waits(s', c, st, call) {
        if c != a {
          assert Waits(s1, c, st, call);
          var i :| 0 <= i < |s1.spares| && s1.spares[i].acceptor == c && s1.spares[i].st == st && call in s1.spares[i].calls;
          assert s'.spares[i] == s1.spares[i];
        }
      }
    }
  }

  /** The waiting call gets through: the old acceptor accepts and saves, over whatever the store holds by now. */
  lemma GetsThrough(s: Cluster, a: int, st: AcceptorState, t: nat, b: Ballot, v: Value)
    returns (actions: seq<Action>, s': Cluster)
    requires !s.sealed && a in s.nodes && Admits(st, b)
    requires Waits(s, a, st, Sent(t, Accept(b, v))) && Sent(t, Accept(b, v)) in s.net
    ensures Leads(s, actions, s') && s'.objs == s.objs && s'.nodes.Keys == s.nodes.Keys && s'.sealed == s.sealed
    ensures s.net <= s'.net && s'.ledger == s.ledger + [Vote(a, b, v)] && s'.rounds == s.rounds
    ensures Replied(t, a, Acceptance(AcceptResponse(true, b, a))) in s'.net
    ensures |s'.spares| == |s.spares|
    ensures forall i | 0 <= i < |s.spares| ::
      s'.spares[i].acceptor == s.spares[i].acceptor && (s.spares[i].acceptor != a ==> s'.spares[i] == s.spares[i])
  {
    var i :| 0 <= i < |s.spares| && s.spares[i].acceptor == a && s.spares[i].st == st && Sent(t, Accept(b, v)) in s.spares[i].calls;
    var late := Straggle(i, t, Accept(b, v), Saved);
    s' := Do(s, late);
    OneStep(s, late);
    actions := [late];
  }

  lemma {:induction false} AllGetThrough(s: Cluster, d: set<int>, st: AcceptorState, t: nat, b: Ballot, v: Value)
    returns (actions: seq<Action>, s': Cluster)
    requires !s.sealed && d <= s.nodes.Keys && Admits(st, b)
    requires AllWait(s, d, st, Sent(t, Accept(b, v))) && Sent(t, Accept(b, v)) in s.net
    ensures Leads(s, actions, s') && s'.objs == s.objs && s'.nodes.Keys == s.nodes.Keys
    ensures (forall vote | vote in s.ledger :: vote in s'.ledger) && AllEntered(s'.ledger, d, b, v)
    ensures s.net <= s'.net && s'.rounds == s.rounds && AllAccepted(s', t, d, b)
    ensures |s'.spares| == |s.spares|
    ensures forall i | 0 <= i < |s.spares| :: s'.spares[i].acceptor == s.spares[i].acceptor
    decreases d
  {
    if d == {} {
      actions, s' := [], s;
    } else {
      Inhabited(d);
      var a :| a in d;
      var p, s1 := GetsThrough(s, a, st, t, b, v);
      StillWait(s, s1, d, a, st, Sent(t, Accept(b, v)));
      var q, s2 := AllGetThrough(s1, d - {a}, st, t, b, v);
      LeadsThrough(s, p, s1, q, s2);
      actions, s' := p + q, s2;
      assert Vote(a, b, v) in s1.ledger;
    }
  }

  lemma StillWait(s: Cluster, s1: Cluster, d: set<int>, a: int, st: AcceptorState, call: Message)
    requires AllWait(s, d, st, call) && |s1.spares| == |s.spares|
    requires forall i | 0 <= i < |s.spares| :: s.spares[i].acceptor != a ==> s1.spares[i] == s.spares[i]
    ensures AllWait(s1, d - {a}, st, call)
  {
    forall c | c in d - {a} ensures Waits(s1, c, st, call) {
      assert Waits(s, c, st, call);
      var i :| 0 <= i < |s.spares| && s.spares[i].acceptor == c && s.spares[i].st == st && call in s.spares[i].calls;
      assert s1.spares[i] == s.spares[i];
    }
  }

  /** A later round over acceptors that have promised an earlier one of the same number, or nothing, and accepted nothing. */
  lemma SecondRound(s: Cluster, j: nat, b: Ballot, q: set<int>) returns (actions: seq<Action>, s': Cluster, attempt: Attempt)
    requires j < |s.objs| && Enumerates(s.objs[j].peers, s.nodes.Keys) && s.objs[j].round == 0
    requires b.round == 1 && b.node <= s.objs[j].id && IsQuorum(s.nodes.Keys, q) && EveryoneUp(s)
    requires forall a | a in q :: s.nodes[a].mem == Some(PromisedOnly(b)) || s.nodes[a].mem == Some(EMPTY)
    ensures Leads(s, actions, s') && RoundServed(s, j, q, q, s', attempt) && attempt.value == s.objs[j].value
  {
    var b' := NextBallot(s.objs[j]);
    forall a | a in q ensures AdmitsAt(s, b', a) && !s.nodes[a].mem.value.hasAccepted {
    }
    assert |s.nodes| == |s.nodes.Keys|;
    actions, s', attempt := OwnRound(s, j, q, q);
  }

  lemma SomeoneThere(all: set<int>, q: set<int>)
    requires IsQuorum(all, q)
    ensures |all| > 0
  {
    SubsetSize(q, all);
  }

  lemma EnteredTogether(ledger: seq<Vote>, p: set<int>, d: set<int>, b: Ballot, v: Value)
    requires AllEntered(ledger, p, b, v) && AllEntered(ledger, d, b, v)
    ensures AllEntered(ledger, p + d, b, v)
  {
  }

  /** Everybody promises i's first round. */
  lemma FirstPromised(s: Cluster, i: nat) returns (actions: seq<Action>, s': Cluster)
    requires Roster(s) && i < |s.objs|
    ensures Leads(s, actions, s') && s'.nodes.Keys == s.nodes.Keys && s'.sealed == s.sealed && s'.spares == []
    ensures s'.objs == s.objs[i := s.objs[i].(round := 1)] && AllHold(s', PromisedOnly(Ballot(1, s.objs[i].id)))
    ensures s'.rounds == [Round(i, false, Opened(Ballot(1, s.objs[i].id), QuorumSize(|s.nodes|)))]
    ensures forall a | a in s'.nodes :: Replied(0, a, PromiseOf(Ballot(1, s.objs[i].id), a)) in s'.net
  {
    assert s.objs[i] in s.objs && AllPromised(s, ZERO);
    actions, s' := StartPromised(s, i, ZERO);
  }

  /** Then its round sends its accepts. */
  lemma AcceptsSent(s: Cluster, i: nat) returns (actions: seq<Action>, s': Cluster)
    requires Roster(s) && i < |s.objs| && |s.nodes| > 0
    ensures Leads(s, actions, s') && s'.nodes.Keys == s.nodes.Keys && s'.sealed == s.sealed && s'.spares == []
    ensures s'.objs == s.objs[i := s.objs[i].(round := 1)] && |s'.rounds| == 1
    ensures Accepting(s', 0, i, Ballot(1, s.objs[i].id), s.objs[i].value) && AllHold(s', PromisedOnly(Ballot(1, s.objs[i].id)))
  {
    var p1, s1 := FirstPromised(s, i);
    assert s.objs[i] in s.objs && |s.nodes| == |s.nodes.Keys| && |s1.nodes| == |s1.nodes.Keys|;
    var s2, v := LateTally(s1, 0, Ballot(1, s.objs[i].id));
    var t1 :| Leads(s1, [t1], s2);
    LeadsThrough(s, p1, s1, [t1], s2);
    actions, s' := p1 + [t1], s2;
  }

  /** The acceptors of p accept. */
  lemma SomeAccept(s: Cluster, t: nat, i: nat, b: Ballot, x: Value, p: set<int>) returns (actions: seq<Action>, s': Cluster)
    requires i < |s.objs| && Enumerates(s.objs[i].peers, s.nodes.Keys) && p <= s.nodes.Keys && ZERO.Less(b)
    requires Accepting(s, t, i, b, x) && AllHold(s, PromisedOnly(b))
    ensures Leads(s, actions, s') && OnlyServed(s, s') && s'.nodes.Keys == s.nodes.Keys
    ensures Accepting(s', t, i, b, x) && AllEntered(s'.ledger, p, b, x) && AllAccepted(s', t, p, b)
    ensures forall a | a in s'.nodes :: s'.nodes[a] == Holding(AfterFirst(b, x, a in p))
  {
    actions, s' := SomeServe(s, i, t, Accept(b, x), s.objs[i].peers, p, PromisedOnly(b));
    assert |s.nodes| == |s.nodes.Keys| && |s'.nodes| == |s'.nodes.Keys|;
    forall a | a in p ensures Replied(t, a, Acceptance(AcceptResponse(true, b, a))) in s'.net {
      assert Answer(a, PromisedOnly(b), Accept(b, x)) == Acceptance(AcceptResponse(true, b, a));
    }
  }

  /** First half: everybody promises i, the acceptors of p accept, and those of d crash and restart with the accept call
      still out. The round waits for its calls. */
  lemma CallsLeftOut(s: Cluster, i: nat, p: set<int>, d: set<int>)
    returns (actions: seq<Action>, s': Cluster)
    requires Roster(s) && i < |s.objs| && |s.nodes| > 0 && p + d <= s.nodes.Keys && p !! d
    ensures Leads(s, actions, s') && s'.nodes.Keys == s.nodes.Keys && s'.sealed == s.sealed
    ensures s'.objs == s.objs[i := s.objs[i].(round := 1)] && SparesIn(s', d)
    ensures var b, x := Ballot(1, s.objs[i].id), s.objs[i].value;
            && Accepting(s', 0, i, b, x) && |s'.rounds| == 1 && AllEntered(s'.ledger, p, b, x) && AllAccepted(s', 0, p, b)
            && AllWait(s', d, PromisedOnly(b), Sent(0, Accept(b, x)))
            && forall a | a in s'.nodes :: s'.nodes[a] == Holding(AfterFirst(b, x, a in p))
  {
    var b, x := Ballot(1, s.objs[i].id), s.objs[i].value;
    assert s.objs[i] in s.objs;
    var p1, s1 := AcceptsSent(s, i);
    var p2, s2 := SomeAccept(s1, 0, i, b, x, p);
    assert AllHolding(s2, d, PromisedOnly(b));
    var p3, s3 := AllHandedOver(s2, d, PromisedOnly(b), Sent(0, Accept(b, x)));
    LeadsThrough(s, p1, s1, p2, s2);
    LeadsThrough(s, p1 + p2, s2, p3, s3);
    actions, s' := p1 + p2 + p3, s3;
  }

  /** The acceptors of q have answered round t that they accept. */
  ghost predicate AllAccepted(s: Cluster, t: nat, q: set<int>, b: Ballot) {
    forall a | a in q :: Replied(t, a, Acceptance(AcceptResponse(true, b, a))) in s.net
  }

  /** Second half: the late calls return, round 0 is tallied, and it is reported as chosen. */
  lemma CallsReturn(s: Cluster, i: nat, p: set<int>, d: set<int>, b: Ballot, x: Value)
    returns (actions: seq<Action>, s': Cluster)
    requires !s.sealed && i < |s.objs| && Enumerates(s.objs[i].peers, s.nodes.Keys) && ZERO.Less(b)
    requires p !! d && IsQuorum(s.nodes.Keys, p + d) && Accepting(s, 0, i, b, x) && AllAccepted(s, 0, p, b)
    requires AllWait(s, d, PromisedOnly(b), Sent(0, Accept(b, x))) && AllEntered(s.ledger, p, b, x) && SparesIn(s, d)
    ensures Leads(s, actions, s') && s'.nodes.Keys == s.nodes.Keys && s'.objs == s.objs && SparesIn(s', d)
    ensures (forall vote | vote in s.ledger :: vote in s'.ledger) && AllEntered(s'.ledger, p + d, b, x)
    ensures |s'.rounds| == |s.rounds| && s'.rounds == s.rounds[0 := s'.rounds[0]] && Won(s', 0, x)
  {
    var p1, s1 := AllGetThrough(s, d, PromisedOnly(b), 0, b, x);
    assert |s.nodes| == |s.nodes.Keys| && |s1.nodes| == |s1.nodes.Keys|;
    var end := AcceptedTally(s1, 0, p + d, b);
    s' := Do(s1, end);
    LeadsThrough(s, p1, s1, [end], s');
    actions := p1 + [end];
    StillEntered(s.ledger, s'.ledger, p, b, x);
    EnteredTogether(s'.ledger, p, d, b, x);
  }

  /** Two quorums, and calls out at the acceptors they share when these crash and restart: two rounds are chosen with
      different values, though no other node has failed and no ballot need be issued twice. */
  lemma LateCallsSplit(s: Cluster, i: nat, j: nat, q1: set<int>, q2: set<int>) returns (s': Cluster)
    requires Roster(s) && !s.sealed && IsQuorum(s.nodes.Keys, q1) && IsQuorum(s.nodes.Keys, q2)
    requires i < |s.objs| && j < |s.objs| && i != j
    requires s.objs[i].value != s.objs[j].value && s.objs[i].id <= s.objs[j].id
    ensures RunsTo(s, s') && Broken(s') && SparesIn(s', q1 * q2)
  {
    var d, b, x, y := q1 * q2, Ballot(1, s.objs[i].id), s.objs[i].value, s.objs[j].value;
    assert s.objs[i] in s.objs && s.objs[j] in s.objs;
    SomeoneThere(s.nodes.Keys, q1);
    var p1, s1 := CallsLeftOut(s, i, q1 - d, d);
    assert |s1.nodes| == |s1.nodes.Keys| && |s.nodes| == |s.nodes.Keys|;
    var p2, s2, attempt := SecondRound(s1, j, b, q2);
    assert |s2.nodes| == |s2.nodes.Keys| && q1 - d + d == q1;
    RoundStillWaits(s1, s2, i, j, q1 - d, d, b, x, attempt);
    var p3, s3 := CallsReturn(s2, i, q1 - d, d, b, x);
    LeadsThrough(s, p1, s1, p2, s2);
    LeadsThrough(s, p1 + p2, s2, p3, s3);
    assert Won(s3, 1, y);
    EnteredIsBroken(s, p1 + p2 + p3, s3, q1, b, x, q2, NextBallot(s1.objs[j]), y, 0, 1);
    s' := s3;
  }

  /** The other proposer's round leaves the waiting one as it was. */
  lemma RoundStillWaits(s1: Cluster, s2: Cluster, i: nat, j: nat, p: set<int>, d: set<int>, b: Ballot, x: Value, attempt: Attempt)
    requires |s1.rounds| == 1 && Accepting(s1, 0, i, b, x) && AllAccepted(s1, 0, p, b) && AllEntered(s1.ledger, p, b, x)
    requires AllWait(s1, d, PromisedOnly(b), Sent(0, Accept(b, x))) && SparesIn(s1, d)
    requires |s2.nodes| == |s1.nodes| && s2.spares == s1.spares && s1.net <= s2.net
    requires s2.rounds == s1.rounds + [Round(j, true, attempt)] && forall vote | vote in s1.ledger :: vote in s2.ledger
    ensures Accepting(s2, 0, i, b, x) && AllAccepted(s2, 0, p, b) && AllEntered(s2.ledger, p, b, x)
    ensures AllWait(s2, d, PromisedOnly(b), Sent(0, Accept(b, x))) && SparesIn(s2, d)
  {
    forall a | a in d ensures Waits(s2, a, PromisedOnly(b), Sent(0, Accept(b, x))) {
      assert Waits(s1, a, PromisedOnly(b), Sent(0, Accept(b, x)));
    }
  }

  /** The same with three acceptors: the call out is that of one node, a. */
  lemma OneLateCallSplits(s: Cluster, i: nat, j: nat, a: int, b: int, c: int) returns (s': Cluster)
    requires Roster(s) && !s.sealed && s.nodes.Keys == {a, b, c} && a != b && a != c && b != c
    requires i < |s.objs| && j < |s.objs| && i != j
    requires s.objs[i].value != s.objs[j].value && s.objs[i].id <= s.objs[j].id
    ensures RunsTo(s, s') && Broken(s') && SparesIn(s', {a})
  {
    assert |{a, b, c}| == 3 && |{a, b}| == 2 && |{a, c}| == 2;
    assert {a, b} * {a, c} == {a};
    s' := LateCallsSplit(s, i, j, {a, b}, {a, c});
  }

  // ---- restarts that straddle a round ----

  /** An acceptor loaded from an empty store has not been put in place yet. */
  ghost predicate Loaded(s: Cluster, a: int) {
    exists i :: 0 <= i < |s.spares| && s.spares[i].acceptor == a && s.spares[i].st == EMPTY
  }

  ghost predicate AllLoaded(s: Cluster, d: set<int>) {
    forall a | a in d :: Loaded(s, a)
  }

  lemma {:induction false} AllLoad(s: Cluster, d: set<int>) returns (actions: seq<Action>, s': Cluster)
    requires Unstarted(s) && d <= s.nodes.Keys
    ensures Leads(s, actions, s') && s' == s.(spares := s'.spares) && s.spares <= s'.spares && AllLoaded(s', d)
    ensures (forall i | |s.spares| <= i < |s'.spares| :: s'.spares[i].acceptor in d)
    ensures s.spares == [] ==> SparesIn(s', s.nodes.Keys)
    decreases d
  {
    if d == {} {
      actions, s' := [], s;
    } else {
      Inhabited(d);
      var a :| a in d;
      var p, s1 := AllLoad(s, d - {a});
      s' := Do(s1, Load(a));
      OneStep(s1, Load(a));
      LeadsThrough(s, p, s1, [Load(a)], s');
      actions := p + [Load(a)];
      forall c | c in d ensures Loaded(s', c) {
        if c == a {
          assert s'.spares[|s1.spares|] == Spare(a, EMPTY, {});
        } else {
          assert Loaded(s1, c);
          var i :| 0 <= i < |s1.spares| && s1.spares[i].acceptor == c && s1.spares[i].st == EMPTY;
          assert s'.spares[i] == s1.spares[i];
        }
      }
    }
  }

  /** The loaded acceptor takes the place of one that has served since. */
  lemma SwappedIn(s: Cluster, d: set<int>, a: int) returns (action: Action)
    requires !s.exclusive && AllLoaded(s, d) && SparesIn(s, s.nodes.Keys) && a in d && a in s.nodes
    ensures Enabled(s, action) && AllLoaded(Do(s, action), d - {a})
    ensures var s' := Do(s, action);
            && s'.nodes == s.nodes[a := s.nodes[a].(mem := Some(EMPTY))] && s'.objs == s.objs
            && s'.ledger == s.ledger && s'.rounds == s.rounds && s'.exclusive == s.exclusive && SparesIn(s', s.nodes.Keys)
  {
    assert Loaded(s, a);
    var i :| 0 <= i < |s.spares| && s.spares[i].acceptor == a && s.spares[i].st == EMPTY;
    action := Install(i);
    var s' := Do(s, action);
    forall c | c in d - {a} ensures Loaded(s', c) {
      assert Loaded(s, c);
      var k :| 0 <= k < |s.spares| && s.spares[k].acceptor == c && s.spares[k].st == EMPTY;
      assert s'.spares[if k < i then k else k - 1] == s.spares[k];
    }
  }

  lemma {:induction false} AllSwappedIn(s: Cluster, d: set<int>) returns (actions: seq<Action>, s': Cluster)
    requires !s.exclusive && AllLoaded(s, d) && SparesIn(s, s.nodes.Keys) && d <= s.nodes.Keys
    ensures Leads(s, actions, s') && s'.nodes.Keys == s.nodes.Keys && s'.objs == s.objs && s'.ledger == s.ledger
    ensures s'.rounds == s.rounds
    ensures forall a | a in s.nodes :: s'.nodes[a].mem == if a in d then Some(EMPTY) else s.nodes[a].mem
    decreases d
  {
    if d == {} {
      actions, s' := [], s;
    } else {
      Inhabited(d);
      var a :| a in d;
      var swap := SwappedIn(s, d, a);
      var s1 := Do(s, swap);
      OneStep(s, swap);
      var p, s2 := AllSwappedIn(s1, d - {a});
      LeadsThrough(s, [swap], s1, p, s2);
      actions, s' := [swap] + p, s2;
    }
  }

  lemma FirstRoundWins(s: Cluster, k: nat, q: set<int>, s': Cluster, attempt: Attempt)
    requires k < |s.objs| && s.rounds == [] && RoundServed(s, k, s.nodes.Keys, q, s', attempt)
    ensures IsQuorum(s.nodes.Keys, q) ==> |s'.rounds| == 1 && Won(s', 0, attempt.value)
  {
    assert |s.nodes| == |s.nodes.Keys|;
  }

  /** Everybody promises i and the acceptors of q1 accept, while restarts of d are under way. */
  lemma RoundMeanwhile(s: Cluster, i: nat, q1: set<int>, d: set<int>)
    returns (actions: seq<Action>, s': Cluster)
    requires Unstarted(s) && s.rounds == [] && AllLoaded(s, d) && SparesIn(s, s.nodes.Keys)
    requires i < |s.objs| && |s.nodes| > 0 && q1 <= s.nodes.Keys
    ensures Leads(s, actions, s') && s'.nodes.Keys == s.nodes.Keys && s'.exclusive == s.exclusive
    ensures s'.objs == s.objs[i := s.objs[i].(round := 1)] && AllLoaded(s', d) && SparesIn(s', s.nodes.Keys)
    ensures var b, x := Ballot(1, s.objs[i].id), s.objs[i].value;
            && AllEntered(s'.ledger, q1, b, x) && (IsQuorum(s.nodes.Keys, q1) ==> |s'.rounds| == 1 && Won(s', 0, x))
            && (forall a | a in s'.nodes :: s'.nodes[a] == Holding(AfterFirst(b, x, a in q1)))
  {
    assert s.objs[i] in s.objs;
    var acts, last, attempt := FirstRound(s, i, q1);
    actions, s' := acts, last;
    ServedObjs(s, i, s.nodes.Keys, q1, last, attempt);
    FirstRoundWins(s, i, q1, last, attempt);
    LoadedStay(s, last, d);
  }

  /** The nodes of d load their stores for a restart before that. */
  lemma LoadedBeforeRound(s: Cluster, i: nat, q1: set<int>, d: set<int>)
    returns (actions: seq<Action>, s': Cluster)
    requires Roster(s) && i < |s.objs| && |s.nodes| > 0 && d <= q1 <= s.nodes.Keys
    ensures Leads(s, actions, s') && s'.nodes.Keys == s.nodes.Keys && s'.exclusive == s.exclusive
    ensures s'.objs == s.objs[i := s.objs[i].(round := 1)] && AllLoaded(s', d) && SparesIn(s', s.nodes.Keys)
    ensures var b, x := Ballot(1, s.objs[i].id), s.objs[i].value;
            && AllEntered(s'.ledger, q1, b, x) && (IsQuorum(s.nodes.Keys, q1) ==> |s'.rounds| == 1 && Won(s', 0, x))
            && (forall a | a in s'.nodes :: s'.nodes[a] == Holding(AfterFirst(b, x, a in q1)))
  {
    var p1, s1 := AllLoad(s, d);
    var p2, s2 := RoundMeanwhile(s1, i, q1, d);
    LeadsThrough(s, p1, s1, p2, s2);
    actions, s' := p1 + p2, s2;
  }

  lemma LoadedStay(s1: Cluster, s2: Cluster, d: set<int>)
    requires AllLoaded(s1, d) && s2.spares == s1.spares
    ensures AllLoaded(s2, d)
  {
    forall a | a in d ensures Loaded(s2, a) {
      assert Loaded(s1, a);
    }
  }

  /** First half: and only then are the loaded acceptors put in place. */
  lemma SwappedAfterRound(s: Cluster, i: nat, q1: set<int>, d: set<int>)
    returns (actions: seq<Action>, s': Cluster)
    requires Roster(s) && !s.exclusive && i < |s.objs| && |s.nodes| > 0 && d <= q1 <= s.nodes.Keys
    ensures Leads(s, actions, s') && s'.nodes.Keys == s.nodes.Keys && EveryoneUp(s')
    ensures s'.objs == s.objs[i := s.objs[i].(round := 1)]
    ensures var b, x := Ballot(1, s.objs[i].id), s.objs[i].value;
            && AllEntered(s'.ledger, q1, b, x) && (IsQuorum(s.nodes.Keys, q1) ==> |s'.rounds| == 1 && Won(s', 0, x))
            && (forall a | a in d :: s'.nodes[a].mem == Some(EMPTY))
            && (forall a | a in s'.nodes && a !in q1 :: s'.nodes[a].mem == Some(PromisedOnly(b)))
  {
    var p1, s1 := LoadedBeforeRound(s, i, q1, d);
    var p2, s2 := AllSwappedIn(s1, d);
    LeadsThrough(s, p1, s1, p2, s2);
    actions, s' := p1 + p2, s2;
    MemoriesAfterSwap(s1, s2, d, q1, Ballot(1, s.objs[i].id), s.objs[i].value);
  }

  lemma MemoriesAfterSwap(s1: Cluster, s2: Cluster, d: set<int>, q1: set<int>, b: Ballot, x: Value)
    requires s2.nodes.Keys == s1.nodes.Keys && d <= q1 <= s1.nodes.Keys
    requires forall a | a in s1.nodes :: s1.nodes[a] == Holding(AfterFirst(b, x, a in q1))
    requires forall a | a in s1.nodes :: s2.nodes[a].mem == if a in d then Some(EMPTY) else s1.nodes[a].mem
    ensures EveryoneUp(s2) && forall a | a in d :: s2.nodes[a].mem == Some(EMPTY)
    ensures forall a | a in s2.nodes && a !in q1 :: s2.nodes[a].mem == Some(PromisedOnly(b))
  {
  }

  /** Two quorums, and restarts of the acceptors they share that began before a round and end after it: both values are
      chosen. */
  lemma LateSwapsSplit(s: Cluster, i: nat, j: nat, q1: set<int>, q2: set<int>) returns (s': Cluster)
    requires Roster(s) && !s.exclusive && IsQuorum(s.nodes.Keys, q1) && IsQuorum(s.nodes.Keys, q2)
    requires i < |s.objs| && j < |s.objs| && i != j
    requires s.objs[i].value != s.objs[j].value && s.objs[i].id <= s.objs[j].id
    ensures RunsTo(s, s') && Broken(s')
  {
    var b, x, y := Ballot(1, s.objs[i].id), s.objs[i].value, s.objs[j].value;
    assert s.objs[i] in s.objs && s.objs[j] in s.objs;
    SomeoneThere(s.nodes.Keys, q1);
    assert |s.nodes| == |s.nodes.Keys|;
    var p1, s1 := SwappedAfterRound(s, i, q1, q1 * q2);
    var p2, s2, attempt := SecondRound(s1, j, b, q2);
    LeadsThrough(s, p1, s1, p2, s2);
    StillEntered(s1.ledger, s2.ledger, q1, b, x);
    assert Won(s2, 0, x) && Won(s2, 1, y);
    EnteredIsBroken(s, p1 + p2, s2, q1, b, x, q2, NextBallot(s1.objs[j]), y, 0, 1);
    s' := s2;
  }
}
