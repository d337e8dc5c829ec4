/** What happens when two proposer objects share a node id, as they do after a revival (pkg/node/node.go:244): runs in
    which two values are chosen. */
module Reuse {
  import opened Ballots
  import opened Wrappers
  import opened Acceptors
  import opened Quorums
  import opened Tallies
  import opened Attempts
  import opened Protocol
  import opened Theorems
  import opened Broadcasts
  import opened Schedules
  import opened Lockstep
  import opened Splits

  /** Of two reports at one ballot the tally keeps the first it sees. */
  lemma FirstSlotWins(own: Value, rs: PrepareSlots, adopted: bool, value: Value, lead: Ballot)
    requires Adopts(own, rs, adopted, value, lead) && |rs| > 0 && Reports(rs[0])
    requires forall j | 0 <= j < |rs| && Reports(rs[j]) :: rs[0].value.accepted.AtLeast(rs[j].value.accepted)
    ensures value == rs[0].value.value
  {
  }

  lemma OnlyReportWins(own: Value, rs: PrepareSlots, adopted: bool, value: Value, lead: Ballot, i: nat)
    requires Adopts(own, rs, adopted, value, lead) && i < |rs| && Reports(rs[i])
    requires forall j | 0 <= j < |rs| && Reports(rs[j]) :: rs[j].value.value == rs[i].value.value
    ensures value == rs[i].value.value
  {
  }

  /** All but one acceptor are a quorum of three or more. */
  lemma AllButOne(all: set<int>, a: int)
    requires |all| >= 3 && a in all
    ensures IsQuorum(all, all - {a}) && |all - {a}| == |all| - 1
  {
  }

  lemma Serves(m: Machine, b: Ballot, v: Value, promised: bool, accepted: bool)
    requires m.mem.Some? && Admits(m.mem.value, b)
    ensures AfterRound(m, b, v, promised, accepted).mem
         == Some(if accepted then AcceptorState(b, b, v, true)
                 else if promised then m.mem.value.(promised := b)
                 else m.mem.value)
  {
  }

  /** Where the acceptors stand: those in p promise b and have accepted nothing, and one, c, has accepted v at b too. */
  ghost predicate OneAccepted(s: Cluster, b: Ballot, c: int, v: Value) {
    && c in s.nodes
    && forall a | a in s.nodes :: s.nodes[a].mem
         == Some(if a == c then AcceptorState(b, b, v, true) else AcceptorState(b, ZERO, 0, false))
  }

  /** A proposer that starts over fresh acceptors gets its own value accepted at one of them. */
  lemma FirstAccepted(s: Cluster, k: nat, c: int) returns (actions: seq<Action>, s': Cluster)
    requires Roster(s) && k < |s.objs| && c in s.nodes && |s.nodes| >= 3
    ensures Leads(s, actions, s') && OneAccepted(s', Ballot(1, s.objs[k].id), c, s.objs[k].value)
    ensures s'.objs == s.objs[k := s.objs[k].(round := 1)] && s'.nodes.Keys == s.nodes.Keys
  {
    assert s.objs[k] in s.objs;
    var acts, last, attempt := FirstRound(s, k, {c});
    actions, s' := acts, last;
  }

  /** Two values accepted at one ballot: y by acceptor c, and x by all the others, who make it chosen. */
  ghost predicate Contested(s: Cluster, b: Ballot, c: int, y: Value, x: Value) {
    && c in s.nodes && AllEntered(s.ledger, s.nodes.Keys - {c}, b, x)
    && forall a | a in s.nodes :: s.nodes[a].mem == Some(AcceptorState(b, b, if a == c then y else x, true))
  }

  /** A later proposer that meets c first takes y for the value to keep, and gets it chosen as well. */
  lemma ContestedIsOverturned(s: Cluster, k: nat, b: Ballot, y: Value, x: Value)
    returns (actions: seq<Action>, s': Cluster, q: set<int>)
    requires k < |s.objs| && Enumerates(s.objs[k].peers, s.nodes.Keys) && |s.nodes| >= 3
    requires |s.objs[k].peers| > 0 && Contested(s, b, s.objs[k].peers[0], y, x)
    requires s.objs[k].round >= b.round > 0
    ensures Leads(s, actions, s') && |s'.objs| == |s.objs| && s'.nodes.Keys == s.nodes.Keys
    ensures forall vote | vote in s.ledger :: vote in s'.ledger
    ensures IsQuorum(s.nodes.Keys, q) && AllEntered(s'.ledger, q, NextBallot(s.objs[k]), y)
    ensures |s'.rounds| == |s.rounds| + 1 && s'.rounds[..|s.rounds|] == s.rounds && Won(s', |s.rounds|, y)
  {
    var obj, b' := s.objs[k], NextBallot(s.objs[k]);
    EnumerationSize(obj.peers, s.nodes.Keys);
    assert |s.nodes| == |s.nodes.Keys|;
    var d := obj.peers[1];
    assert obj.peers[0] in obj.peers && d in obj.peers;
    AllButOne(s.nodes.Keys, d);
    q := s.nodes.Keys - {d};
    forall a | a in q ensures AdmitsAt(s, b', a) {
    }
    var acts, last, attempt, rs, adopted, lead := ServedRound(s, k, q, q);
    actions, s' := acts, last;
    FirstReportWins(s, k, b, y, x, q, rs, adopted, attempt.value, lead);
  }

  /** A tally that meets both values at the top takes that of the first slot. */
  lemma FirstReportWins(s: Cluster, k: nat, b: Ballot, y: Value, x: Value, q: set<int>, rs: PrepareSlots,
                        adopted: bool, value: Value, lead: Ballot)
    requires k < |s.objs| && |s.objs[k].peers| > 0 && Contested(s, b, s.objs[k].peers[0], y, x) && b.round > 0
    requires s.objs[k].peers[0] in q && ReportsOf(s, s.objs[k].peers, NextBallot(s.objs[k]), q, rs)
    requires Adopts(s.objs[k].value, rs, adopted, value, lead)
    ensures value == y
  {
    var obj, b' := s.objs[k], NextBallot(s.objs[k]);
    forall i | 0 <= i < |rs| ensures ReportOf(s, obj.peers[i], b', q, rs[i]) {
    }
    assert ReportOf(s, obj.peers[0], b', q, rs[0]);
    FirstSlotWins(obj.value, rs, adopted, value, lead);
  }

  /** Acceptor c holds y at b, those in q hold v at b', and the rest have promised b'. */
  ghost predicate SecondAccepted(s: Cluster, b: Ballot, c: int, y: Value, b': Ballot, q: set<int>, v: Value) {
    forall a | a in s.nodes ::
      s.nodes[a].mem == Some(if a == c then AcceptorState(b, b, y, true)
                             else if a in q then AcceptorState(b', b', v, true)
                             else AcceptorState(b', ZERO, 0, false))
  }

  lemma AfterOwnValue(s: Cluster, k: nat, b: Ballot, c: int, y: Value, q: set<int>, s': Cluster, attempt: Attempt)
    requires k < |s.objs| && OneAccepted(s, b, c, y) && NextBallot(s.objs[k]).AtLeast(b) && b.round > 0
    requires q <= s.nodes.Keys - {c} && RoundServed(s, k, s.nodes.Keys - {c}, q, s', attempt)
    ensures SecondAccepted(s', b, c, y, NextBallot(s.objs[k]), q, attempt.value)
  {
    var b' := NextBallot(s.objs[k]);
    forall a | a in s'.nodes
      ensures s'.nodes[a].mem == Some(if a == c then AcceptorState(b, b, y, true)
                                      else if a in q then AcceptorState(b', b', attempt.value, true)
                                      else AcceptorState(b', ZERO, 0, false))
    {
      if a != c {
        Serves(s.nodes[a], b', attempt.value, true, a in q);
      }
    }
  }

  lemma OthersAdmit(s: Cluster, b: Ballot, c: int, y: Value, b': Ballot)
    requires OneAccepted(s, b, c, y) && b'.AtLeast(b) && b.round > 0
    ensures EveryoneUp(s) && AllAdmit(s, b', s.nodes.Keys - {c}) && NoneAccepted(s, s.nodes.Keys - {c})
  {
    forall a | a in s.nodes.Keys - {c} ensures AdmitsAt(s, b', a) {
    }
  }

  /** With one acceptance of y, at c, a proposer whose ballot is no lower and whom c does not answer gets its own value
      accepted by the acceptors in q. */
  lemma OwnValueAccepted(s: Cluster, k: nat, b: Ballot, c: int, y: Value, q: set<int>)
    returns (actions: seq<Action>, s': Cluster)
    requires k < |s.objs| && Enumerates(s.objs[k].peers, s.nodes.Keys) && |s.nodes| >= 3 && b.round > 0
    requires OneAccepted(s, b, c, y) && NextBallot(s.objs[k]).AtLeast(b) && q <= s.nodes.Keys - {c}
    ensures Leads(s, actions, s') && s'.objs == s.objs[k := s.objs[k].(round := s.objs[k].round + 1)]
    ensures s'.nodes.Keys == s.nodes.Keys && AllEntered(s'.ledger, q, NextBallot(s.objs[k]), s.objs[k].value)
    ensures SecondAccepted(s', b, c, y, NextBallot(s.objs[k]), q, s.objs[k].value)
  {
    var b', p := NextBallot(s.objs[k]), s.nodes.Keys - {c};
    AllButOne(s.nodes.Keys, c);
    assert |s.nodes| == |s.nodes.Keys|;
    OthersAdmit(s, b, c, y, b');
    assert AllAdmit(s, b', q);
    var acts, last, attempt := OwnRound(s, k, p, q);
    actions, s' := acts, last;
    ServedObjs(s, k, p, q, last, attempt);
    AfterOwnValue(s, k, b, c, y, q, last, attempt);
  }

  /** Rounds 0 and 1 have the same ballot, and everybody promised it to both before either sent its accepts. */
  ghost predicate BothPromised(s: Cluster, i: nat, j: nat, b: Ballot) {
    && i < |s.objs| && j < |s.objs| && |s.rounds| == 2 && ZERO.Less(b)
    && Enumerates(s.objs[i].peers, s.nodes.Keys) && Enumerates(s.objs[j].peers, s.nodes.Keys)
    && s.rounds[0] == Round(i, false, Opened(b, QuorumSize(|s.nodes|)))
    && s.rounds[1] == Round(j, false, Opened(b, QuorumSize(|s.nodes|)))
    && AllPromised(s, b)
    && (forall a | a in s.nodes :: Replied(0, a, PromiseOf(b, a)) in s.net && Replied(1, a, PromiseOf(b, a)) in s.net)
  }

  lemma OneBallotTwice(s: Cluster, i: nat, j: nat) returns (actions: seq<Action>, s': Cluster)
    requires Roster(s) && i < |s.objs| && j < |s.objs| && i != j && s.objs[i].id == s.objs[j].id
    ensures Leads(s, actions, s') && s'.nodes.Keys == s.nodes.Keys && |s'.objs| == |s.objs|
    ensures s'.objs[i].value == s.objs[i].value && s'.objs[j].value == s.objs[j].value
    ensures BothPromised(s', i, j, Ballot(1, s.objs[i].id))
  {
    var b := Ballot(1, s.objs[i].id);
    assert s.objs[i] in s.objs && s.objs[j] in s.objs && AllPromised(s, ZERO);
    var p1, s1 := StartPromised(s, i, ZERO);
    var p2, s2 := StartPromised(s1, j, b);
    LeadsThrough(s, p1, s1, p2, s2);
    assert |s1.nodes| == |s1.nodes.Keys| && |s.nodes| == |s.nodes.Keys| && |s2.nodes| == |s2.nodes.Keys|;
    actions, s' := p1 + p2, s2;
  }

  /** Then each round tallies its own value and sends its accepts. */
  lemma BothSent(s: Cluster, i: nat, j: nat, b: Ballot) returns (actions: seq<Action>, s': Cluster)
    requires |s.nodes| > 0 && BothPromised(s, i, j, b)
    ensures Leads(s, actions, s') && s'.nodes == s.nodes && s'.objs == s.objs && s.net <= s'.net
    ensures |s'.rounds| == 2 && Accepting(s', 0, i, b, s.objs[i].value) && Accepting(s', 1, j, b, s.objs[j].value)
  {
    var s1, x := LateTally(s, 0, b);
    var s2, y := LateTally(s1, 1, b);
    var t1 :| Leads(s, [t1], s1);
    var t2 :| Leads(s1, [t2], s2);
    LeadsThrough(s, [t1], s1, [t2], s2);
    actions, s' := [t1] + [t2], s2;
  }

  /** Everybody accepts in a round, and it is reported as chosen. */
  lemma AllAccept(s: Cluster, t: nat, i: nat, b: Ballot, v: Value, st: AcceptorState) returns (actions: seq<Action>, s': Cluster)
    requires |s.nodes| > 0 && i < |s.objs| && Enumerates(s.objs[i].peers, s.nodes.Keys)
    requires Accepting(s, t, i, b, v) && AllHold(s, st) && Admits(st, b) && ZERO.Less(b)
    ensures Leads(s, actions, s') && s'.nodes.Keys == s.nodes.Keys && s'.objs == s.objs && s.net <= s'.net
    ensures AllHold(s', AcceptorState(b, b, v, true)) && AllEntered(s'.ledger, s.nodes.Keys, b, v)
    ensures forall vote | vote in s.ledger :: vote in s'.ledger
    ensures |s'.rounds| == |s.rounds| && s'.rounds == s.rounds[t := s'.rounds[t]] && Won(s', t, v)
  {
    var all := s.nodes.Keys;
    var p1, s1 := EveryoneServes(s, i, t, Accept(b, v), s.objs[i].peers, st);
    assert |s.nodes| == |all| && |s1.nodes| == |s1.nodes.Keys|;
    forall a | a in all ensures Replied(t, a, Acceptance(AcceptResponse(true, b, a))) in s1.net {
      assert Answer(a, st, Accept(b, v)) == Acceptance(AcceptResponse(true, b, a));
    }
    var end := AcceptedTally(s1, t, all, b);
    s' := Do(s1, end);
    LeadsThrough(s, p1, s1, [end], s');
    actions := p1 + [end];
  }

  /** Two objects with one id and different values, over one acceptor or more. */
  lemma SharedIdSplits(s: Cluster, i: nat, j: nat) returns (s': Cluster)
    requires Roster(s) && |s.nodes| > 0 && i < |s.objs| && j < |s.objs| && i != j
    requires s.objs[i].id == s.objs[j].id && s.objs[i].value != s.objs[j].value
    ensures RunsTo(s, s') && Broken(s')
  {
    var b, q, x, y := Ballot(1, s.objs[i].id), s.nodes.Keys, s.objs[i].value, s.objs[j].value;
    var p1, s1 := OneBallotTwice(s, i, j);
    assert |s.nodes| == |q| && |s1.nodes| == |s1.nodes.Keys|;
    var p2, s2 := BothSent(s1, i, j, b);
    var p3, s3 := AllAccept(s2, 0, i, b, x, PromisedOnly(b));
    assert |s3.nodes| == |s3.nodes.Keys| && |s2.nodes| == |s2.nodes.Keys|;
    var p4, s4 := AllAccept(s3, 1, j, b, y, AcceptorState(b, b, x, true));
    LeadsThrough(s, p1, s1, p2, s2);
    LeadsThrough(s, p1 + p2, s2, p3, s3);
    LeadsThrough(s, p1 + p2 + p3, s3, p4, s4);
    assert Won(s4, 0, x);
    EnteredIsBroken(s, p1 + p2 + p3 + p4, s4, q, b, x, q, b, y, 0, 1);
    s' := s4;
  }

  /** Of the acceptors but d only c has accepted something, and that is what a tally of their promises takes. */
  lemma OldReportWins(s: Cluster, k: nat, b: Ballot, c: int, x: Value, d: int, y: Value, rs: PrepareSlots,
                      adopted: bool, value: Value, lead: Ballot)
    requires k < |s.objs| && Enumerates(s.objs[k].peers, s.nodes.Keys) && c in s.nodes && c != d && ZERO.Less(b)
    requires SecondAccepted(s, b, c, x, NextBallot(s.objs[k]), {d}, y)
    requires ReportsOf(s, s.objs[k].peers, NextBallot(s.objs[k]), s.nodes.Keys - {d}, rs)
    requires Adopts(s.objs[k].value, rs, adopted, value, lead)
    ensures value == x
  {
    var obj, b', p := s.objs[k], NextBallot(s.objs[k]), s.nodes.Keys - {d};
    assert c in obj.peers;
    var i :| 0 <= i < |rs| && obj.peers[i] == c;
    assert ReportOf(s, obj.peers[i], b', p, rs[i]);
    forall j | 0 <= j < |rs| && Reports(rs[j]) ensures rs[j].value.value == x {
      assert ReportOf(s, obj.peers[j], b', p, rs[j]);
    }
    OnlyReportWins(obj.value, rs, adopted, value, lead, i);
  }

  lemma AfterOldValue(s: Cluster, k: nat, b: Ballot, c: int, x: Value, d: int, y: Value, s': Cluster, attempt: Attempt)
    requires k < |s.objs| && c in s.nodes && d in s.nodes && c != d && ZERO.Less(b) && b.Less(NextBallot(s.objs[k]))
    requires SecondAccepted(s, b, c, x, NextBallot(s.objs[k]), {d}, y) && attempt.value == x
    requires RoundServed(s, k, s.nodes.Keys - {d}, s.nodes.Keys - {d}, s', attempt)
    ensures Contested(s', NextBallot(s.objs[k]), d, y, x)
  {
    var b' := NextBallot(s.objs[k]);
    forall a | a in s'.nodes ensures s'.nodes[a].mem == Some(AcceptorState(b', b', if a == d then y else x, true)) {
      if a != d {
        Serves(s.nodes[a], b', x, true, true);
      }
    }
  }

  lemma AllButOneAdmit(s: Cluster, b: Ballot, c: int, x: Value, b': Ballot, d: int, y: Value)
    requires SecondAccepted(s, b, c, x, b', {d}, y) && ZERO.Less(b) && b.Less(b')
    ensures EveryoneUp(s) && AllAdmit(s, b', s.nodes.Keys - {d})
  {
    forall a | a in s.nodes.Keys - {d} ensures AdmitsAt(s, b', a) {
    }
  }

  /** A second object at the ballot of the first hears only the older acceptance of x, at c, adopts it, and gets it
      chosen next to the acceptance of y, at d. */
  lemma OldValueAdopted(s: Cluster, k: nat, b: Ballot, c: int, x: Value, d: int, y: Value)
    returns (actions: seq<Action>, s': Cluster)
    requires k < |s.objs| && Enumerates(s.objs[k].peers, s.nodes.Keys) && |s.nodes| >= 3
    requires c in s.nodes && d in s.nodes && c != d && ZERO.Less(b) && b.Less(NextBallot(s.objs[k]))
    requires SecondAccepted(s, b, c, x, NextBallot(s.objs[k]), {d}, y)
    ensures Leads(s, actions, s') && s'.objs == s.objs[k := s.objs[k].(round := s.objs[k].round + 1)]
    ensures s'.nodes.Keys == s.nodes.Keys && Contested(s', NextBallot(s.objs[k]), d, y, x)
    ensures Won(s', |s.rounds|, x)
  {
    var p := s.nodes.Keys - {d};
    AllButOne(s.nodes.Keys, d);
    assert |s.nodes| == |s.nodes.Keys|;
    AllButOneAdmit(s, b, c, x, NextBallot(s.objs[k]), d, y);
    var acts, last, attempt, rs, adopted, lead := ServedRound(s, k, p, p);
    actions, s' := acts, last;
    OldReportWins(s, k, b, c, x, d, y, rs, adopted, attempt.value, lead);
    ServedObjs(s, k, p, p, last, attempt);
    AfterOldValue(s, k, b, c, x, d, y, last, attempt);
  }

  /** A proposer opens a round and nobody hears of it. */
  lemma Bumped(s: Cluster, k: nat) returns (s': Cluster)
    requires k < |s.objs|
    ensures s' == DoStart(s, k) && Leads(s, [Start(k)], s')
    ensures s'.objs == s.objs[k := s.objs[k].(round := s.objs[k].round + 1)] && s'.nodes == s.nodes && s'.ledger == s.ledger
  {
    s' := Do(s, Start(k));
    OneStep(s, Start(k));
  }

  /** First half: k gets x accepted at c, then i, at its second ballot, gets y accepted at d. */
  lemma RivalsAccepted(s: Cluster, i: nat, k: nat, c: int, d: int) returns (actions: seq<Action>, s': Cluster)
    requires Roster(s) && |s.nodes| >= 3 && i < |s.objs| && k < |s.objs| && k != i
    requires c in s.nodes && d in s.nodes && c != d
    ensures Leads(s, actions, s') && s'.nodes.Keys == s.nodes.Keys
    ensures s'.objs == s.objs[k := s.objs[k].(round := 1)][i := s.objs[i].(round := 2)]
    ensures SecondAccepted(s', Ballot(1, s.objs[k].id), c, s.objs[k].value, Ballot(2, s.objs[i].id), {d}, s.objs[i].value)
  {
    assert s.objs[i] in s.objs;
    var p1, s1 := FirstAccepted(s, k, c);
    assert |s.nodes| == |s.nodes.Keys| && |s1.nodes| == |s1.nodes.Keys|;
    var p2, s2 := SecondRoundAccepted(s1, i, Ballot(1, s.objs[k].id), c, s.objs[k].value, d);
    LeadsThrough(s, p1, s1, p2, s2);
    actions, s' := p1 + p2, s2;
  }

  lemma SecondRoundAccepted(s: Cluster, i: nat, b: Ballot, c: int, x: Value, d: int)
    returns (actions: seq<Action>, s': Cluster)
    requires i < |s.objs| && Enumerates(s.objs[i].peers, s.nodes.Keys) && |s.nodes| >= 3
    requires OneAccepted(s, b, c, x) && s.objs[i].round == 0 && b.round == 1 && d in s.nodes && d != c
    ensures Leads(s, actions, s') && s'.nodes.Keys == s.nodes.Keys
    ensures s'.objs == s.objs[i := s.objs[i].(round := 2)]
    ensures SecondAccepted(s', b, c, x, Ballot(2, s.objs[i].id), {d}, s.objs[i].value)
  {
    var s1 := Bumped(s, i);
    var p, s2 := OwnValueAccepted(s1, i, b, c, x, {d});
    LeadsThrough(s, [Start(i)], s1, p, s2);
    actions, s' := [Start(i)] + p, s2;
  }

  /** Second half: j reuses the ballot of i, adopts x and gets it chosen, and k comes back and gets y chosen. */
  lemma RivalsChosen(s: Cluster, j: nat, k: nat, b: Ballot, c: int, x: Value, d: int, y: Value)
    returns (actions: seq<Action>, s': Cluster, q: set<int>)
    requires j < |s.objs| && k < |s.objs| && j != k && |s.nodes| >= 3
    requires Enumerates(s.objs[j].peers, s.nodes.Keys) && Enumerates(s.objs[k].peers, s.nodes.Keys)
    requires s.objs[j].round == 0 && s.objs[k].round == 1 && b.round == 1
    requires |s.objs[k].peers| > 0 && s.objs[k].peers[0] == d && c in s.nodes && d in s.nodes && c != d
    requires SecondAccepted(s, b, c, x, Ballot(2, s.objs[j].id), {d}, y)
    ensures Leads(s, actions, s') && |s'.objs| == |s.objs| && s'.nodes.Keys == s.nodes.Keys
    ensures AllEntered(s'.ledger, s.nodes.Keys - {d}, Ballot(2, s.objs[j].id), x)
    ensures IsQuorum(s.nodes.Keys, q) && AllEntered(s'.ledger, q, Ballot(3, s.objs[k].id), y)
    ensures exists t: nat, u: nat :: Won(s', t, x) && Won(s', u, y)
  {
    var b' := Ballot(2, s.objs[j].id);
    var s4 := Bumped(s, j);
    var p5, s5 := OldValueAdopted(s4, j, b, c, x, d, y);
    var s6 := Bumped(s5, k);
    assert |s6.nodes| == |s6.nodes.Keys| && |s.nodes| == |s.nodes.Keys|;
    assert NextBallot(s6.objs[k]) == Ballot(3, s.objs[k].id);
    var p7, s7, q7 := ContestedIsOverturned(s6, k, b', y, x);
    LeadsThrough(s, [Start(j)], s4, p5, s5);
    LeadsThrough(s, [Start(j)] + p5, s5, [Start(k)], s6);
    LeadsThrough(s, [Start(j)] + p5 + [Start(k)], s6, p7, s7);
    actions, s', q := [Start(j)] + p5 + [Start(k)] + p7, s7, q7;
    StillEntered(s5.ledger, s7.ledger, s.nodes.Keys - {d}, b', x);
    assert s7.rounds[..|s6.rounds|][|s4.rounds|] == s5.rounds[|s4.rounds|];
    assert Won(s7, |s4.rounds|, x) && Won(s7, |s6.rounds|, y);
  }

  /** Two objects with one id and one value, and a third object with another value. */
  lemma SharedIdAndRivalSplit(s: Cluster, i: nat, j: nat, k: nat) returns (s': Cluster)
    requires Roster(s) && |s.nodes| >= 3
    requires i < |s.objs| && j < |s.objs| && k < |s.objs| && i != j && k != i && k != j
    requires s.objs[i].id == s.objs[j].id && s.objs[i].value == s.objs[j].value != s.objs[k].value
    ensures RunsTo(s, s') && Broken(s')
  {
    assert s.objs[j] in s.objs && s.objs[k] in s.objs;
    var peers, x, y := s.objs[k].peers, s.objs[k].value, s.objs[i].value;
    EnumerationSize(peers, s.nodes.Keys);
    assert |s.nodes| == |s.nodes.Keys|;
    var d, c := peers[0], peers[1];
    assert d in peers && c in peers;
    var p1, s1 := RivalsAccepted(s, i, k, c, d);
    assert |s1.nodes| == |s1.nodes.Keys|;
    var p2, s2, q := RivalsChosen(s1, j, k, Ballot(1, s.objs[k].id), c, x, d, y);
    LeadsThrough(s, p1, s1, p2, s2);
    AllButOne(s.nodes.Keys, d);
    var t: nat, u: nat :| Won(s2, t, x) && Won(s2, u, y);
    EnteredIsBroken(s, p1 + p2, s2, s.nodes.Keys - {d}, Ballot(2, s.objs[i].id), x, q, Ballot(3, s.objs[k].id), y, t, u);
    s' := s2;
  }
}
