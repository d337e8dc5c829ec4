/** Explicit rounds, for building runs: a broadcast that exactly the peers of some slots serve, one after the other,
    with working disks and nobody else about. */
module Schedules {
  import opened Ballots
  import opened Wrappers
  import opened Acceptors
  import opened Quorums
  import opened Tallies
  import opened Attempts
  import opened Protocol
  import opened Broadcasts

  /** A call to each of the first n slots that are in keep. */
  function CallsTo(keep: set<nat>, n: nat): (events: seq<Event>)
    ensures forall e | e in events :: e.Call? && e.slot < n
  {
    if n == 0 then []
    else CallsTo(keep, n - 1) + (if n - 1 in keep then [Call(n - 1, Saved, true)] else [])
  }

  /** A machine that is up after serving a request with a working disk. */
  function Served(m: Machine, req: Request): Machine {
    if m.mem.Some? && Admits(m.mem.value, req.ballot) then
      Machine(Some(Next(m.mem.value, req)), Next(m.mem.value, req))
    else m
  }

  /** A machine that is up, with a disk that holds what its memory does. */
  function Holding(st: AcceptorState): Machine {
    Machine(Some(st), st)
  }

  ghost predicate AllUp(w: World) {
    forall i | 0 <= i < |w.machines| :: w.machines[i].mem.Some?
  }

  /** One slot before and after: served, or left alone. */
  ghost predicate SlotServed(id: int, m: Machine, own: Request, served: bool, m': Machine, reply: Option<Reply>) {
    && m.mem.Some? && m'.mem.Some?
    && m' == (if served then Served(m, own) else m)
    && reply == (if served then Some(Answer(id, m.mem.value, own)) else None)
  }

  /** The acceptances of the slots served are in the ledger. */
  ghost predicate Entered(peers: seq<int>, w: World, own: Request, keep: set<nat>, n: nat, ledger: seq<Vote>)
    requires |peers| == |w.machines|
  {
    && (own.Prepare? ==> ledger == w.ledger)
    && (forall vote | vote in w.ledger :: vote in ledger)
    && (own.Accept? ==> forall i | 0 <= i < n && i < |peers| && i in keep ::
          w.machines[i].mem.Some? && Admits(w.machines[i].mem.value, own.ballot) ==>
            Vote(peers[i], own.ballot, own.value) in ledger)
  }

  /** The result of serving some of the first n slots: their machines and replies, and nothing else, change. */
  ghost predicate ServedBy(peers: seq<int>, w: World, own: Request, keep: set<nat>, n: nat, w': World, rs: Replies) {
    && |peers| == |w.machines| == |w'.machines| == |rs|
    && (forall i | 0 <= i < |rs| ::
          SlotServed(peers[i], w.machines[i], own, i in keep && i < n, w'.machines[i], rs[i]))
    && Entered(peers, w, own, keep, n, w'.ledger)
  }

  lemma ServeOneMore(peers: seq<int>, w: World, own: Request, keep: set<nat>, n: nat, w1: World, rs: Replies)
    requires n < |peers| && n in keep && ServedBy(peers, w, own, keep, n, w1, rs)
    ensures var (w', rs') := Happen(peers, w1, own, rs, Call(n, Saved, true));
            ServedBy(peers, w, own, keep, n + 1, w', rs')
  {
    var (w', rs') := Happen(peers, w1, own, rs, Call(n, Saved, true));
    assert SlotServed(peers[n], w.machines[n], own, false, w1.machines[n], rs[n]);
    forall i | 0 <= i < |rs'| ensures SlotServed(peers[i], w.machines[i], own, i in keep && i < n + 1, w'.machines[i], rs'[i]) {
      assert SlotServed(peers[i], w.machines[i], own, i in keep && i < n, w1.machines[i], rs[i]);
    }
  }

  lemma SkipOneMore(peers: seq<int>, w: World, own: Request, keep: set<nat>, n: nat, w1: World, rs: Replies)
    requires n < |peers| && n !in keep && ServedBy(peers, w, own, keep, n, w1, rs)
    ensures ServedBy(peers, w, own, keep, n + 1, w1, rs)
  {
    forall i | 0 <= i < |rs| ensures SlotServed(peers[i], w.machines[i], own, i in keep && i < n + 1, w1.machines[i], rs[i]) {
      assert SlotServed(peers[i], w.machines[i], own, i in keep && i < n, w1.machines[i], rs[i]);
    }
  }

  /** What the calls to the first n slots make of the world and of the reply slots. */
  function Calling(peers: seq<int>, w: World, own: Request, keep: set<nat>, n: nat): (r: (World, Replies))
    requires |peers| == |w.machines|
    ensures |r.0.machines| == |r.1| == |peers|
  {
    if n == 0 || n > |peers| then (w, Silence(|peers|))
    else
      var (w1, rs) := Calling(peers, w, own, keep, n - 1);
      if n - 1 in keep then Happen(peers, w1, own, rs, Call(n - 1, Saved, true)) else (w1, rs)
  }

  lemma {:induction false} CallingIsBroadcast(peers: seq<int>, w: World, own: Request, keep: set<nat>, n: nat)
    requires |peers| == |w.machines| && n <= |peers|
    ensures Broadcast(peers, w, own, CallsTo(keep, n)) == Calling(peers, w, own, keep, n)
  {
    if n > 0 {
      CallingIsBroadcast(peers, w, own, keep, n - 1);
      var events := CallsTo(keep, n);
      if n - 1 in keep {
        assert events[..|events| - 1] == CallsTo(keep, n - 1);
        assert events[|events| - 1] == Call(n - 1, Saved, true);
      } else {
        assert events == CallsTo(keep, n - 1);
      }
    }
  }

  lemma {:induction false} CallingServes(peers: seq<int>, w: World, own: Request, keep: set<nat>, n: nat)
    returns (w': World, rs: Replies)
    requires |peers| == |w.machines| && n <= |peers| && AllUp(w)
    ensures (w', rs) == Calling(peers, w, own, keep, n) && ServedBy(peers, w, own, keep, n, w', rs)
  {
    if n == 0 {
      NothingServed(peers, w, own, keep);
      w', rs := w, Silence(|peers|);
    } else {
      var w1, rs1 := CallingServes(peers, w, own, keep, n - 1);
      if n - 1 in keep {
        ServeOneMore(peers, w, own, keep, n - 1, w1, rs1);
        var r := Happen(peers, w1, own, rs1, Call(n - 1, Saved, true));
        w', rs := r.0, r.1;
      } else {
        SkipOneMore(peers, w, own, keep, n - 1, w1, rs1);
        w', rs := w1, rs1;
      }
    }
  }

  lemma {:induction false} CallsAreServed(peers: seq<int>, w: World, own: Request, keep: set<nat>, n: nat)
    requires |peers| == |w.machines| && n <= |peers| && AllUp(w)
    ensures var (w', rs) := Broadcast(peers, w, own, CallsTo(keep, n)); ServedBy(peers, w, own, keep, n, w', rs)
  {
    CallingIsBroadcast(peers, w, own, keep, n);
    var w', rs := CallingServes(peers, w, own, keep, n);
  }

  lemma NothingServed(peers: seq<int>, w: World, own: Request, keep: set<nat>)
    requires |peers| == |w.machines| && AllUp(w)
    ensures ServedBy(peers, w, own, keep, 0, w, Silence(|peers|))
  {
    forall i | 0 <= i < |peers| ensures SlotServed(peers[i], w.machines[i], own, false, w.machines[i], Silence(|peers|)[i]) {
    }
  }

  /** A round whose two broadcasts are served by the given slots. */
  function ServedScript(first: set<nat>, second: set<nat>, n: nat): Script {
    Script(false, CallsTo(first, n), false, CallsTo(second, n), false)
  }

  /** These slots exist, and their peers admit ballot b. */
  ghost predicate Admit(w: World, b: Ballot, keep: set<nat>) {
    forall i | i in keep :: i < |w.machines| && w.machines[i].mem.Some? && Admits(w.machines[i].mem.value, b)
  }

  /** A prepare that all its servers admit is promised by each, and its tally is the one of their reports. */
  lemma PromisedBy(obj: ProposerObj, w: World, first: set<nat>, second: set<nat>)
    returns (w1: World, rs: Replies, a1: Attempt, lead: Ballot)
    requires |obj.peers| == |w.machines| && AllUp(w) && Admit(w, NextBallot(obj), first)
    ensures FirstPhase(obj, w, ServedScript(first, second, |obj.peers|), w1, rs, a1)
    ensures ServedBy(obj.peers, w, Prepare(NextBallot(obj)), first, |obj.peers|, w1, rs)
    ensures a1.ballot == NextBallot(obj) && a1.quorum == QuorumSize(|obj.peers|)
    ensures a1.outcome == if |first| >= QuorumSize(|obj.peers|) then Unknown else PrepareFailed
    ensures Adopts(obj.value, AsPrepares(rs), a1.adopted, a1.value, lead)
  {
    var own := Prepare(NextBallot(obj));
    CallsAreServed(obj.peers, w, own, first, |obj.peers|);
    var r := Broadcast(obj.peers, w, own, CallsTo(first, |obj.peers|));
    w1, rs := r.0, r.1;
    var tally, l := TallyExists(obj.value, AsPrepares(rs));
    lead := l;
    a1 := AfterPrepare(Opened(NextBallot(obj), QuorumSize(|obj.peers|)), tally, false);
    ServersPromise(obj.peers, w, NextBallot(obj), first, w1, rs);
  }

  lemma ServersPromise(peers: seq<int>, w: World, b: Ballot, first: set<nat>, w1: World, rs: Replies)
    requires ServedBy(peers, w, Prepare(b), first, |peers|, w1, rs) && Admit(w, b, first)
    ensures Promisers(AsPrepares(rs)) == first
  {
    forall i: nat ensures i in Promisers(AsPrepares(rs)) <==> i in first {
      if i < |rs| { assert SlotServed(peers[i], w.machines[i], Prepare(b), i in first, w1.machines[i], rs[i]); }
    }
  }

  /** An accept that all its servers admit is accepted by each. */
  lemma AcceptedBy(obj: ProposerObj, w1: World, a1: Attempt, first: set<nat>, second: set<nat>)
    returns (w2: World, rs: Replies, a2: Attempt)
    requires |obj.peers| == |w1.machines| && AllUp(w1) && Admit(w1, a1.ballot, second)
    requires a1.quorum == QuorumSize(|obj.peers|)
    ensures SecondPhase(obj, w1, a1, ServedScript(first, second, |obj.peers|), w2, rs, a2)
    ensures ServedBy(obj.peers, w1, Accept(a1.ballot, a1.value), second, |obj.peers|, w2, rs)
    ensures a2.ballot == a1.ballot && a2.value == a1.value
    ensures a2.outcome == if |second| >= QuorumSize(|obj.peers|) then Chosen else AcceptFailed
  {
    var own := Accept(a1.ballot, a1.value);
    CallsAreServed(obj.peers, w1, own, second, |obj.peers|);
    var r := Broadcast(obj.peers, w1, own, CallsTo(second, |obj.peers|));
    w2, rs := r.0, r.1;
    var tally := AcceptTallyExists(AsAccepts(rs));
    a2 := AfterAccept(a1, tally, false);
    ServersAccept(obj.peers, w1, a1.ballot, a1.value, second, w2, rs);
  }

  lemma ServersAccept(peers: seq<int>, w1: World, b: Ballot, v: Value, second: set<nat>, w2: World, rs: Replies)
    requires ServedBy(peers, w1, Accept(b, v), second, |peers|, w2, rs) && Admit(w1, b, second)
    ensures Accepters(AsAccepts(rs)) == second
  {
    forall i: nat ensures i in Accepters(AsAccepts(rs)) <==> i in second {
      if i < |rs| { assert SlotServed(peers[i], w1.machines[i], Accept(b, v), i in second, w2.machines[i], rs[i]); }
    }
  }

  lemma StillAdmitted(w: World, b: Ballot, first: set<nat>, second: set<nat>, peers: seq<int>, w1: World, rs: Replies)
    requires ServedBy(peers, w, Prepare(b), first, |peers|, w1, rs) && Admit(w, b, second)
    ensures AllUp(w1) && Admit(w1, b, second)
  {
    forall i | 0 <= i < |w1.machines|
      ensures w1.machines[i].mem.Some? && (i in second ==> Admits(w1.machines[i].mem.value, b))
    {
      assert SlotServed(peers[i], w.machines[i], Prepare(b), i in first, w1.machines[i], rs[i]);
    }
  }

  /** A round that a promise quorum and then any slots serve. */
  lemma ServedWorldRound(obj: ProposerObj, w: World, first: set<nat>, second: set<nat>)
    returns (w1: World, rs: Replies, w2: World, rs2: Replies, attempt: Attempt, adopted: bool, lead: Ballot)
    requires |obj.peers| == |w.machines| && AllUp(w) && Admit(w, NextBallot(obj), first) && Admit(w, NextBallot(obj), second)
    requires |first| >= QuorumSize(|obj.peers|)
    ensures IsRound(obj, w, ServedScript(first, second, |obj.peers|), w2, attempt)
    ensures ServedBy(obj.peers, w, Prepare(NextBallot(obj)), first, |obj.peers|, w1, rs)
    ensures ServedBy(obj.peers, w1, Accept(NextBallot(obj), attempt.value), second, |obj.peers|, w2, rs2)
    ensures AllUp(w1) && Admit(w1, NextBallot(obj), second)
    ensures Adopts(obj.value, AsPrepares(rs), adopted, attempt.value, lead)
    ensures attempt.ballot == NextBallot(obj)
    ensures attempt.outcome == if |second| >= QuorumSize(|obj.peers|) then Chosen else AcceptFailed
  {
    var a1: Attempt;
    w1, rs, a1, lead := PromisedBy(obj, w, first, second);
    adopted := a1.adopted;
    StillAdmitted(w, NextBallot(obj), first, second, obj.peers, w1, rs);
    w2, rs2, attempt := AcceptedBy(obj, w1, a1, first, second);
  }

  // ---- on a cluster, by acceptor ----

  ghost predicate EveryoneUp(s: Cluster) {
    forall a | a in s.nodes :: s.nodes[a].mem.Some?
  }

  ghost predicate AllAdmit(s: Cluster, b: Ballot, q: set<int>) {
    forall a | a in q :: AdmitsAt(s, b, a)
  }

  ghost predicate AdmitsAt(s: Cluster, b: Ballot, a: int) {
    a in s.nodes && s.nodes[a].mem.Some? && Admits(s.nodes[a].mem.value, b)
  }

  lemma TheWorld(s: Cluster, peers: seq<int>) returns (w: World)
    requires Enumerates(peers, s.nodes.Keys)
    ensures Shows(s, peers, w)
  {
    forall i | 0 <= i < |peers| ensures peers[i] in s.nodes {
      assert peers[i] in peers;
    }
    w := World(seq(|peers|, i requires 0 <= i < |peers| => s.nodes[peers[i]]), s.ledger);
  }

  function SlotsOf(peers: seq<int>, q: set<int>): set<nat> {
    set i | i in Slots(|peers|) && peers[i] in q
  }

  lemma SlotsOfSize(peers: seq<int>, all: set<int>, q: set<int>)
    requires Enumerates(peers, all) && q <= all
    ensures |SlotsOf(peers, q)| == |q|
  {
    var slots := SlotsOf(peers, q);
    SlotsAreAcceptors(peers, all, slots);
    assert At(peers, slots) == q by {
      forall a | a in q ensures a in At(peers, slots) {
        assert a in peers;
        var i :| 0 <= i < |peers| && peers[i] == a;
        assert i in slots;
      }
    }
  }


  /** What an acceptor holds after a round in which it served the prepare, the accept, both or neither. */
  function AfterRound(m: Machine, b: Ballot, v: Value, promised: bool, accepted: bool): Machine {
    var m1 := if promised then Served(m, Prepare(b)) else m;
    if accepted then Served(m1, Accept(b, v)) else m1
  }

  /** What the promises of the acceptors in p report, in the order of the peers. */
  ghost predicate ReportsOf(s: Cluster, peers: seq<int>, b: Ballot, p: set<int>, rs: PrepareSlots) {
    && |rs| == |peers|
    && forall i | 0 <= i < |rs| :: ReportOf(s, peers[i], b, p, rs[i])
  }

  ghost predicate ReportOf(s: Cluster, a: int, b: Ballot, p: set<int>, r: Option<PrepareResponse>) {
    if a in p then
      && a in s.nodes && s.nodes[a].mem.Some?
      && var st := s.nodes[a].mem.value;
         r == Some(PrepareResponse(true, b, st.accepted, st.value, st.hasAccepted, a))
    else r.None?
  }

  /** What a round served by p and then q makes of the cluster. */
  ghost predicate RoundServed(s: Cluster, k: nat, p: set<int>, q: set<int>, s': Cluster, attempt: Attempt)
    requires k < |s.objs|
  {
    var b := NextBallot(s.objs[k]);
    && Alone(s, k, s') && s'.rounds == s.rounds + [Round(k, true, attempt)] && s.net <= s'.net && Sent(|s.rounds|, Accept(b, attempt.value)) in s'.net
    && s'.nodes.Keys == s.nodes.Keys && EveryoneUp(s')
    && (forall a | a in s.nodes :: s'.nodes[a] == AfterRound(s.nodes[a], b, attempt.value, a in p, a in q))
    && (forall vote | vote in s.ledger :: vote in s'.ledger)
    && (forall a | a in q :: Vote(a, b, attempt.value) in s'.ledger)
    && attempt.ballot == b && attempt.outcome == if |q| >= QuorumSize(|s.nodes|) then Chosen else AcceptFailed
  }

  lemma ServedObjs(s: Cluster, k: nat, p: set<int>, q: set<int>, s': Cluster, attempt: Attempt)
    requires k < |s.objs| && RoundServed(s, k, p, q, s', attempt)
    ensures |s'.objs| == |s.objs| && s'.objs == s.objs[k := s.objs[k].(round := s.objs[k].round + 1)]
    ensures s'.rounds == s.rounds + [Round(k, true, attempt)] && s'.nodes.Keys == s.nodes.Keys
  {
  }

  lemma AdmitBySlot(s: Cluster, peers: seq<int>, w: World, b: Ballot, p: set<int>)
    requires Shows(s, peers, w) && AllAdmit(s, b, p)
    ensures Admit(w, b, SlotsOf(peers, p))
  {
    forall i | i in SlotsOf(peers, p)
      ensures i < |w.machines| && w.machines[i].mem.Some? && Admits(w.machines[i].mem.value, b)
    {
      var a := peers[i];
      assert a in p && AdmitsAt(s, b, a);
    }
  }

  /** Any quorum p that admits the next ballot of a proposer can promise it, and any acceptors q that admit it can then
      accept, in one legal run. */
  lemma ServedRound(s: Cluster, k: nat, p: set<int>, q: set<int>)
    returns (actions: seq<Action>, s': Cluster, attempt: Attempt, rs: PrepareSlots, adopted: bool, lead: Ballot)
    requires k < |s.objs| && Enumerates(s.objs[k].peers, s.nodes.Keys) && EveryoneUp(s)
    requires p <= s.nodes.Keys && q <= s.nodes.Keys
    requires AllAdmit(s, NextBallot(s.objs[k]), p) && AllAdmit(s, NextBallot(s.objs[k]), q)
    requires |p| >= QuorumSize(|s.nodes|)
    ensures Leads(s, actions, s') && RoundServed(s, k, p, q, s', attempt)
    ensures ReportsOf(s, s.objs[k].peers, NextBallot(s.objs[k]), p, rs)
    ensures Adopts(s.objs[k].value, rs, adopted, attempt.value, lead)
  {
    var obj, peers, b := s.objs[k], s.objs[k].peers, NextBallot(s.objs[k]);
    var w := TheWorld(s, peers);
    var first, second := SlotsOf(peers, p), SlotsOf(peers, q);
    SlotsOfSize(peers, s.nodes.Keys, p);
    SlotsOfSize(peers, s.nodes.Keys, q);
    EnumerationSize(peers, s.nodes.Keys);
    assert |s.nodes| == |s.nodes.Keys|;
    AdmitBySlot(s, peers, w, b, p);
    AdmitBySlot(s, peers, w, b, q);
    assert AllUp(w);
    var w1, rs1, w2, rs2, att, ad, l := ServedWorldRound(obj, w, first, second);
    attempt, rs, adopted, lead := att, AsPrepares(rs1), ad, l;
    FirstReports(s, peers, w, b, p, w1, rs1);
    var acts, last := RoundRuns(s, k, w, ServedScript(first, second, |peers|), w2, att);
    actions, s' := acts, last;
    MachinesAfter(s, peers, w, b, att.value, p, q, w1, rs1, w2, rs2, s');
  }

  lemma OwnValueWins(own: Value, rs: PrepareSlots, adopted: bool, value: Value, lead: Ballot)
    requires Adopts(own, rs, adopted, value, lead)
    requires forall i | 0 <= i < |rs| :: !Reports(rs[i])
    ensures value == own
  {
  }

  ghost predicate NoneAccepted(s: Cluster, p: set<int>) {
    forall a | a in p :: a in s.nodes && s.nodes[a].mem.Some? && !s.nodes[a].mem.value.hasAccepted
  }

  /** If none of the promising acceptors has accepted anything, the round proposes its own value. */
  lemma OwnRound(s: Cluster, k: nat, p: set<int>, q: set<int>)
    returns (actions: seq<Action>, s': Cluster, attempt: Attempt)
    requires k < |s.objs| && Enumerates(s.objs[k].peers, s.nodes.Keys) && EveryoneUp(s)
    requires p <= s.nodes.Keys && q <= s.nodes.Keys && NoneAccepted(s, p)
    requires AllAdmit(s, NextBallot(s.objs[k]), p) && AllAdmit(s, NextBallot(s.objs[k]), q)
    requires |p| >= QuorumSize(|s.nodes|)
    ensures Leads(s, actions, s') && RoundServed(s, k, p, q, s', attempt) && attempt.value == s.objs[k].value
  {
    var acts, last, att, rs, adopted, lead := ServedRound(s, k, p, q);
    actions, s', attempt := acts, last, att;
    forall i | 0 <= i < |rs| ensures !Reports(rs[i]) {
      assert ReportOf(s, s.objs[k].peers[i], NextBallot(s.objs[k]), p, rs[i]);
    }
    OwnValueWins(s.objs[k].value, rs, adopted, attempt.value, lead);
  }

  lemma RoundRuns(s: Cluster, k: nat, w: World, script: Script, w': World, attempt: Attempt)
    returns (actions: seq<Action>, s': Cluster)
    requires k < |s.objs| && Shows(s, s.objs[k].peers, w) && ScriptFits(script, |s.objs[k].peers|)
    requires CallsOnly(script.first) && CallsOnly(script.second)
    requires IsRound(s.objs[k], w, script, w', attempt) && (attempt.outcome.Chosen? || attempt.outcome.AcceptFailed?)
    ensures Leads(s, actions, s') && Shows(s', s.objs[k].peers, w') && s'.nodes.Keys == s.nodes.Keys
    ensures Alone(s, k, s') && s.net <= s'.net && s'.rounds == s.rounds + [Round(k, true, attempt)]
    ensures Sent(|s.rounds|, Accept(NextBallot(s.objs[k]), attempt.value)) in s'.net
  {
    AloneIsFair(s, k, w, script);
    var acts, last, w1, rs, a1 := RoundIsRun(s, k, w, script, w', attempt);
    actions, s' := acts, last;
    SameKeys(s, s', s.objs[k].peers);
    OneRoundMore(s, k, a1, attempt, s');
  }

  lemma OneRoundMore(s: Cluster, k: nat, a1: Attempt, attempt: Attempt, s': Cluster)
    requires k < |s.objs| && RoundAdded(s, k, a1, attempt, s') && Alone(s, k, s') && a1.outcome.Unknown?
    ensures s'.rounds == s.rounds + [Round(k, true, attempt)] && s.net <= s'.net
    ensures Sent(|s.rounds|, Accept(a1.ballot, a1.value)) in s'.net
  {
    assert s'.rounds == s'.rounds[..|s.rounds|] + [s'.rounds[|s.rounds|]];
    assert Sent(|s.rounds|, Accept(a1.ballot, a1.value)) in Requests(|s.rounds|, a1);
  }

  lemma SameKeys(s: Cluster, s': Cluster, peers: seq<int>)
    requires Enumerates(peers, s.nodes.Keys) && Enumerates(peers, s'.nodes.Keys)
    ensures s'.nodes.Keys == s.nodes.Keys
  {
    forall a ensures a in s'.nodes.Keys <==> a in s.nodes.Keys {
      assert a in peers <==> a in s.nodes.Keys;
    }
  }

  lemma FirstReports(s: Cluster, peers: seq<int>, w: World, b: Ballot, p: set<int>, w1: World, rs: Replies)
    requires Shows(s, peers, w) && ServedBy(peers, w, Prepare(b), SlotsOf(peers, p), |peers|, w1, rs)
    requires AllAdmit(s, b, p)
    ensures ReportsOf(s, peers, b, p, AsPrepares(rs))
  {
    forall i | 0 <= i < |rs| ensures ReportOf(s, peers[i], b, p, AsPrepares(rs)[i]) {
      assert SlotServed(peers[i], w.machines[i], Prepare(b), i in SlotsOf(peers, p), w1.machines[i], rs[i]);
    }
  }

  lemma MachinesAfter(s: Cluster, peers: seq<int>, w: World, b: Ballot, v: Value, p: set<int>, q: set<int>,
                      w1: World, rs1: Replies, w2: World, rs2: Replies, s': Cluster)
    requires Shows(s, peers, w) && Shows(s', peers, w2) && s'.nodes.Keys == s.nodes.Keys
    requires ServedBy(peers, w, Prepare(b), SlotsOf(peers, p), |peers|, w1, rs1)
    requires ServedBy(peers, w1, Accept(b, v), SlotsOf(peers, q), |peers|, w2, rs2)
    requires AllUp(w1) && Admit(w1, b, SlotsOf(peers, q)) && q <= s.nodes.Keys
    ensures EveryoneUp(s')
    ensures forall a | a in s.nodes :: s'.nodes[a] == AfterRound(s.nodes[a], b, v, a in p, a in q)
    ensures forall vote | vote in s.ledger :: vote in s'.ledger
    ensures forall a | a in q :: Vote(a, b, v) in s'.ledger
  {
    forall a | a in s.nodes
      ensures s'.nodes[a].mem.Some? && s'.nodes[a] == AfterRound(s.nodes[a], b, v, a in p, a in q)
      ensures a in q ==> Vote(a, b, v) in s'.ledger
    {
      assert a in peers;
      var i :| 0 <= i < |peers| && peers[i] == a;
      assert SlotServed(peers[i], w.machines[i], Prepare(b), i in SlotsOf(peers, p), w1.machines[i], rs1[i]);
      assert SlotServed(peers[i], w1.machines[i], Accept(b, v), i in SlotsOf(peers, q), w2.machines[i], rs2[i]);
    }
  }
}
