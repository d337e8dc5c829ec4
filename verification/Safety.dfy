/** Durable promises and safe proposals: what a run keeps when no acceptor works on a store that another has taken over,
    and what it keeps when moreover no ballot carries two values. The last gives agreement. */
module Safety {
  import opened Ballots
  import opened Wrappers
  import opened Acceptors
  import opened Quorums
  import opened Tallies
  import opened Protocol
  import opened Soundness

  /** The promise nothing can take back: the one in memory, or the stored one while the node is down. */
  function Floor(m: Machine): Ballot {
    if m.mem.Some? then m.mem.value.promised else m.disk.promised
  }

  /** Acceptor a has accepted v at b, or may still do so. */
  ghost predicate CanBack(nodes: map<int, Machine>, votes: set<Vote>, a: int, b: Ballot, v: Value) {
    Vote(a, b, v) in votes || (a in nodes && b.AtLeast(Floor(nodes[a])))
  }

  /** Value v was chosen at ballot b or can still become chosen there. */
  ghost predicate Choosable(nodes: map<int, Machine>, votes: set<Vote>, b: Ballot, v: Value) {
    exists q :: IsQuorum(nodes.Keys, q) && AllCanBack(nodes, votes, q, b, v)
  }

  ghost predicate AllCanBack(nodes: map<int, Machine>, votes: set<Vote>, q: set<int>, b: Ballot, v: Value) {
    forall a | a in q :: CanBack(nodes, votes, a, b, v)
  }

  /** P2c: no other value was or can be chosen at a lower ballot. */
  ghost predicate SafeAt(nodes: map<int, Machine>, votes: set<Vote>, b: Ballot, v: Value) {
    forall b': Ballot, v': Value | b'.Less(b) && Choosable(nodes, votes, b', v') :: v' == v
  }

  // ---- promises are kept ----

  /** No acceptor works on a store that another has taken over. */
  predicate Fenced(s: Cluster) {
    s.sealed && s.exclusive
  }

  /** The state remembers an acceptance at least as high as every acceptance by a. */
  ghost predicate Remembers(st: AcceptorState, a: int, votes: set<Vote>) {
    forall vote | vote in votes && vote.acceptor == a :: st.hasAccepted && st.accepted.AtLeast(vote.ballot)
  }

  /** Memory and disk remember. The disk may be one unconfirmed request ahead of the memory. */
  ghost predicate MachineDurable(a: int, m: Machine, votes: set<Vote>) {
    && Remembers(m.disk, a, votes)
    && (m.disk.hasAccepted ==> Vote(a, m.disk.accepted, m.disk.value) in votes || m.disk.accepted == m.disk.promised)
    && (m.mem.Some? ==> Remembers(m.mem.value, a, votes) && m.disk.promised.AtLeast(m.mem.value.promised))
  }

  /** A promise at b is not taken back, and fixes what its acceptor may have accepted below b to what the reply reports.
      The report itself may be at b: an equal ballot is promised again. */
  ghost predicate PromiseKept(m: Machine, a: int, b: Ballot, resp: PrepareResponse, votes: set<Vote>) {
    && Floor(m).AtLeast(b)
    && (forall vote | vote in votes && vote.acceptor == a && vote.ballot.Less(b) ::
          resp.hasAccepted && resp.accepted.AtLeast(vote.ballot))
  }

  ghost predicate PromisedTo(s: Cluster, t: nat, a: int, resp: PrepareResponse) {
    Replied(t, a, Promise(resp)) in s.net && resp.promised && t < |s.rounds| && a in s.nodes
  }

  ghost predicate Durable(s: Cluster) {
    && (forall a | a in s.nodes :: MachineDurable(a, s.nodes[a], s.votes))
    && (forall t: nat, a, resp | PromisedTo(s, t, a, resp) ::
          PromiseKept(s.nodes[a], a, s.rounds[t].attempt.ballot, resp, s.votes))
  }

  /** Promises only rise, acceptances only grow, and a new acceptance is not below the promise of the time. */
  ghost predicate Grows(s: Cluster, s': Cluster) {
    && s'.nodes.Keys == s.nodes.Keys && s.votes <= s'.votes
    && (forall a | a in s.nodes :: Floor(s'.nodes[a]).AtLeast(Floor(s.nodes[a])))
    && (forall vote | vote in s'.votes && vote !in s.votes ::
          vote.acceptor in s.nodes && vote.ballot.AtLeast(Floor(s.nodes[vote.acceptor])))
  }

  lemma PromiseIsStable(s: Cluster, s': Cluster, a: int, b: Ballot, resp: PrepareResponse)
    requires Grows(s, s') && a in s.nodes && PromiseKept(s.nodes[a], a, b, resp, s.votes)
    ensures PromiseKept(s'.nodes[a], a, b, resp, s'.votes)
  {
  }

  /** A step keeps the layer if it grows, changes at most one machine, and gives at most one answer. */
  lemma GrowthIsDurable(s: Cluster, s': Cluster, a: int)
    requires Durable(s) && Grows(s, s') && |s.rounds| <= |s'.rounds|
    requires forall t | 0 <= t < |s.rounds| :: s'.rounds[t].attempt.ballot == s.rounds[t].attempt.ballot
    requires a in s.nodes && MachineDurable(a, s'.nodes[a], s'.votes)
    requires forall c | c in s.nodes && c != a :: s'.nodes[c] == s.nodes[c]
    requires forall vote | vote in s'.votes && vote !in s.votes :: vote.acceptor == a
    requires forall t: nat, c, resp | PromisedTo(s', t, c, resp) && !PromisedTo(s, t, c, resp) ::
      c in s'.nodes && PromiseKept(s'.nodes[c], c, s'.rounds[t].attempt.ballot, resp, s'.votes)
    ensures Durable(s')
  {
    forall c | c in s'.nodes ensures MachineDurable(c, s'.nodes[c], s'.votes) {
      if c != a { assert MachineDurable(c, s.nodes[c], s.votes); }
    }
    forall t: nat, c, resp | PromisedTo(s', t, c, resp)
      ensures PromiseKept(s'.nodes[c], c, s'.rounds[t].attempt.ballot, resp, s'.votes)
    {
      if PromisedTo(s, t, c, resp) {
        PromiseIsStable(s, s', c, s.rounds[t].attempt.ballot, resp);
      }
    }
  }

  /** One request at one machine: it remembers what it confirms, its promise does not fall, and a promise it gives is
      kept. */
  lemma HandleIsDurable(a: int, m: Machine, req: Request, save: SaveOutcome, votes: set<Vote>, net: set<Message>)
    requires MachineSound(a, m, votes, net) && MachineDurable(a, m, votes)
    ensures var (m', reply) := Handle(a, m, req, save);
            var votes' := votes + Confirmed(a, req, reply);
            && MachineDurable(a, m', votes') && Floor(m').AtLeast(Floor(m))
            && (forall vote | vote in votes' && vote !in votes :: vote.acceptor == a && vote.ballot.AtLeast(Floor(m)))
            && (reply.Some? && reply.value.Promise? && reply.value.prepare.promised ==>
                  PromiseKept(m', a, req.ballot, reply.value.prepare, votes'))
  {
  }

  lemma DeliverGrows(s: Cluster, a: int, t: nat, req: Request, save: SaveOutcome)
    requires Sound(s) && Durable(s) && a in s.nodes && Sent(t, req) in s.net
    ensures var s' := DoDeliver(s, a, t, req, save);
            Grows(s, s') && forall vote | vote in s'.votes && vote !in s.votes :: vote.acceptor == a
  {
    assert MachineSound(a, s.nodes[a], s.votes, s.net) && MachineDurable(a, s.nodes[a], s.votes);
    HandleIsDurable(a, s.nodes[a], req, save, s.votes, s.net);
  }

  lemma DeliverIsDurable(s: Cluster, a: int, t: nat, req: Request, save: SaveOutcome)
    requires Sound(s) && Durable(s) && a in s.nodes && Sent(t, req) in s.net
    ensures Durable(DoDeliver(s, a, t, req, save))
  {
    var s' := DoDeliver(s, a, t, req, save);
    assert MachineSound(a, s.nodes[a], s.votes, s.net) && MachineDurable(a, s.nodes[a], s.votes) && RequestOk(s, t, req);
    HandleIsDurable(a, s.nodes[a], req, save, s.votes, s.net);
    DeliverGrows(s, a, t, req, save);
    GrowthIsDurable(s, s', a);
  }

  lemma CrashIsDurable(s: Cluster, a: int)
    requires Sound(s) && Durable(s) && a in s.nodes
    ensures Durable(Do(s, CrashNode(a))) && Grows(s, Do(s, CrashNode(a)))
  {
    assert MachineSound(a, s.nodes[a], s.votes, s.net) && MachineDurable(a, s.nodes[a], s.votes);
    GrowthIsDurable(s, Do(s, CrashNode(a)), a);
  }

  /** A node comes back with what its disk holds, also when that is one unconfirmed write ahead of the lost memory. */
  lemma RestartIsDurable(s: Cluster, a: int, s': Cluster)
    requires Sound(s) && Durable(s) && a in s.nodes
    requires s' == s.(nodes := s.nodes[a := Restart(s.nodes[a])], spares := s'.spares,
                      votes := s.votes + Held(a, Restart(s.nodes[a])))
    ensures Durable(s') && Grows(s, s')
  {
    assert MachineSound(a, s.nodes[a], s.votes, s.net) && MachineDurable(a, s.nodes[a], s.votes);
    GrowthIsDurable(s, s', a);
  }

  /** A superseded acceptor that cannot save can only turn requests down. */
  lemma SealedStraggleIsDurable(s: Cluster, i: nat, t: nat, req: Request)
    requires Sound(s) && Durable(s) && i < |s.spares| && s.spares[i].acceptor in s.nodes
    ensures Durable(DoStraggle(s, i, t, req, Refused)) && Grows(s, DoStraggle(s, i, t, req, Refused))
  {
    var a := s.spares[i].acceptor;
    var s' := DoStraggle(s, i, t, req, Refused);
    assert s'.nodes[a] == s.nodes[a] && MachineDurable(a, s.nodes[a], s.votes);
    GrowthIsDurable(s, s', a);
  }

  lemma ProposersAreDurable(s: Cluster, s': Cluster)
    requires Sound(s) && Durable(s) && ProposerStep(s, s')
    ensures Durable(s') && Grows(s, s')
  {
    forall t: nat, a, resp | PromisedTo(s', t, a, resp)
      ensures PromiseKept(s'.nodes[a], a, s'.rounds[t].attempt.ballot, resp, s'.votes)
    {
      assert ReplyOk(s, t, a, Promise(resp));
      assert PromisedTo(s, t, a, resp) && RoundGoesOn(s.rounds[t], s'.rounds[t]);
    }
  }

  lemma StepIsDurable(s: Cluster, action: Action)
    requires Fenced(s) && Sound(s) && Durable(s) && Enabled(s, action)
    ensures Fenced(Do(s, action)) && Durable(Do(s, action)) && Grows(s, Do(s, action))
  {
    StepIsSound(s, action);
    match action
    case Deliver(a, t, req, save) =>
      DeliverIsDurable(s, a, t, req, save);
      DeliverGrows(s, a, t, req, save);
    case CrashNode(a) => CrashIsDurable(s, a);
    case RestartNode(a) => RestartIsDurable(s, a, Do(s, action));
    case Load(_) => LoadIsDurable(s, Do(s, action));
    case Install(i) => RestartIsDurable(s, s.spares[i].acceptor, Do(s, action));
    case Straggle(i, t, req, save) => SealedStraggleIsDurable(s, i, t, req);
    case _ => ProposersAreDurable(s, Do(s, action));
  }

  lemma LoadIsDurable(s: Cluster, s': Cluster)
    requires Durable(s) && s' == s.(spares := s'.spares)
    ensures Durable(s') && Grows(s, s')
  {
    forall t: nat, a, resp | PromisedTo(s', t, a, resp) ensures PromisedTo(s, t, a, resp) {
    }
  }

  // ---- proposals are safe ----

  /** Every accept request sent carries a value that is safe at its ballot. */
  ghost predicate ProposalsSafe(s: Cluster) {
    forall b, v | Proposed(s.net, b, v) :: SafeAt(s.nodes, s.votes, b, v)
  }

  ghost predicate Inv(s: Cluster) {
    Fenced(s) && Sound(s) && Durable(s) && ProposalsSafe(s)
  }

  lemma SafetyIsStable(s: Cluster, s': Cluster, b: Ballot, v: Value)
    requires Grows(s, s') && SafeAt(s.nodes, s.votes, b, v)
    ensures SafeAt(s'.nodes, s'.votes, b, v)
  {
    forall b': Ballot, v': Value | b'.Less(b) && Choosable(s'.nodes, s'.votes, b', v')
      ensures Choosable(s.nodes, s.votes, b', v')
    {
      var q :| IsQuorum(s'.nodes.Keys, q) && AllCanBack(s'.nodes, s'.votes, q, b', v');
      assert IsQuorum(s.nodes.Keys, q);
      assert AllCanBack(s.nodes, s.votes, q, b', v');
    }
  }

  /** No ballot carries two values. Distinct ballots give this, but it is all that the safety argument needs. */
  ghost predicate OneValueEach(net: set<Message>) {
    forall b, v, v' | Proposed(net, b, v) && Proposed(net, b, v') :: v == v'
  }

  /** What round t has heard by the time it tallies: each promise is kept, and reports a proposal. */
  ghost predicate Heard(s: Cluster, t: nat, peers: seq<int>, rs: PrepareSlots) {
    && t < |s.rounds| && |rs| == |peers|
    && forall i | 0 <= i < |rs| && rs[i].Some? && rs[i].value.promised :: HeardFrom(s, t, peers[i], rs[i].value)
  }

  ghost predicate HeardFrom(s: Cluster, t: nat, a: int, resp: PrepareResponse)
    requires t < |s.rounds|
  {
    && a in s.nodes && PromiseKept(s.nodes[a], a, s.rounds[t].attempt.ballot, resp, s.votes)
    && (resp.hasAccepted ==>
          && ZERO.Less(resp.accepted) && s.rounds[t].attempt.ballot.AtLeast(resp.accepted)
          && Proposed(s.net, resp.accepted, resp.value))
  }

  lemma RepliesAreHeard(s: Cluster, t: nat, peers: seq<int>, rs: PrepareSlots)
    requires Sound(s) && Durable(s) && t < |s.rounds| && HeardPrepares(s, t, peers, rs)
    ensures Heard(s, t, peers, rs)
  {
    forall i | 0 <= i < |rs| && rs[i].Some? && rs[i].value.promised ensures HeardFrom(s, t, peers[i], rs[i].value) {
      assert ReplyOk(s, t, peers[i], Promise(rs[i].value));
      assert PromisedTo(s, t, peers[i], rs[i].value);
    }
  }

  /** The heart of the protocol: a value tallied from a quorum of promises is safe at the round's ballot. */
  lemma TalliedValueIsSafe(s: Cluster, t: nat, own: Value, peers: seq<int>, rs: PrepareSlots, tally: PrepareTally)
    requires Inv(s) && OneValueEach(s.net)
    requires Heard(s, t, peers, rs) && Enumerates(peers, s.nodes.Keys)
    requires IsPrepareTally(own, rs, tally) && tally.promises >= QuorumSize(|s.nodes|)
    ensures SafeAt(s.nodes, s.votes, s.rounds[t].attempt.ballot, tally.value)
  {
    var b := s.rounds[t].attempt.ballot;
    var promised := SlotsFormQuorum(s, peers, Promisers(rs));
    forall b': Ballot, v': Value | b'.Less(b) && Choosable(s.nodes, s.votes, b', v') ensures v' == tally.value {
      var q :| IsQuorum(s.nodes.Keys, q) && AllCanBack(s.nodes, s.votes, q, b', v');
      var a := QuorumsMeet(s.nodes.Keys, promised, q);
      var i :| i in Promisers(rs) && peers[i] == a;
      assert HeardFrom(s, t, a, rs[i].value);
      assert Vote(a, b', v') in s.votes by {
        assert CanBack(s.nodes, s.votes, a, b', v');
      }
      AdoptedValueIsForced(s, t, own, peers, rs, tally, i, b', v');
    }
  }

  /** If one of the promising acceptors voted for a value that can be chosen, the tally takes that value. */
  lemma AdoptedValueIsForced(s: Cluster, t: nat, own: Value, peers: seq<int>, rs: PrepareSlots, tally: PrepareTally,
                             i: nat, b': Ballot, v': Value)
    requires Inv(s) && OneValueEach(s.net)
    requires Heard(s, t, peers, rs) && IsPrepareTally(own, rs, tally)
    requires i < |rs| && rs[i].Some? && rs[i].value.promised
    requires b'.Less(s.rounds[t].attempt.ballot)
    requires Vote(peers[i], b', v') in s.votes && Choosable(s.nodes, s.votes, b', v')
    ensures tally.value == v'
  {
    assert HeardFrom(s, t, peers[i], rs[i].value);
    assert Reports(rs[i]) && rs[i].value.accepted.AtLeast(b');
    var lead := AdoptedIsProposed(s, t, own, peers, rs, tally, i);
    if lead == b' {
      assert Proposed(s.net, b', v');
    } else {
      assert SafeAt(s.nodes, s.votes, lead, tally.value);
    }
  }

  /** A tally that sees a report takes a proposed value, from a ballot at least as high as the report's. */
  lemma AdoptedIsProposed(s: Cluster, t: nat, own: Value, peers: seq<int>, rs: PrepareSlots, tally: PrepareTally, i: nat)
    returns (lead: Ballot)
    requires Heard(s, t, peers, rs) && IsPrepareTally(own, rs, tally)
    requires i < |rs| && Reports(rs[i])
    ensures Proposed(s.net, lead, tally.value) && lead.AtLeast(rs[i].value.accepted)
    ensures s.rounds[t].attempt.ballot.AtLeast(lead)
  {
    lead :| Adopts(own, rs, tally.adopted, tally.value, lead);
    var k: nat :| FirstHighest(rs, k) && Some((lead, tally.value)) == Reported(rs[k]);
    assert HeardFrom(s, t, peers[k], rs[k].value);
  }

  lemma NewProposalIsSafe(s: Cluster, action: Action, b: Ballot, v: Value)
    requires Inv(s) && OneValueEach(s.net) && Enabled(s, action)
    requires Proposed(Do(s, action).net, b, v) && !Proposed(s.net, b, v)
    ensures SafeAt(s.nodes, s.votes, b, v)
  {
    NewAcceptIsTallied(s, action, b, v);
    var t, tally := action.t, action.prepareTally;
    var k := s.rounds[t].obj;
    assert s.objs[k] in s.objs;
    RepliesAreHeard(s, t, s.objs[k].peers, action.prepares);
    TalliedValueIsSafe(s, t, s.objs[k].value, s.objs[k].peers, action.prepares, tally);
  }

  lemma StepKeeps(s: Cluster, action: Action)
    requires Inv(s) && OneValueEach(s.net) && Enabled(s, action)
    ensures Inv(Do(s, action))
  {
    var s' := Do(s, action);
    StepIsSound(s, action);
    StepIsDurable(s, action);
    forall b, v | Proposed(s'.net, b, v) ensures SafeAt(s'.nodes, s'.votes, b, v) {
      if !Proposed(s.net, b, v) {
        NewProposalIsSafe(s, action, b, v);
      }
      SafetyIsStable(s, s', b, v);
    }
  }

  // ---- whole runs ----

  lemma InitHolds(s: Cluster)
    requires Init(s)
    ensures Sound(s) && Durable(s) && ProposalsSafe(s)
  {
  }

  lemma {:induction false} RunIsDurable(s: Cluster, actions: seq<Action>, s': Cluster)
    requires Fenced(s) && Sound(s) && Durable(s) && Leads(s, actions, s')
    ensures Fenced(s') && Durable(s')
    decreases |actions|
  {
    if actions != [] {
      StepIsSound(s, actions[0]);
      StepIsDurable(s, actions[0]);
      RunIsDurable(Do(s, actions[0]), actions[1..], s');
    }
  }

  /** No message or acceptance is lost, and the surroundings stay as they are. */
  ghost predicate Monotone(s: Cluster, s': Cluster) {
    && s.net <= s'.net && s.votes <= s'.votes && s'.nodes.Keys == s.nodes.Keys
    && s'.sealed == s.sealed && s'.exclusive == s.exclusive
  }

  lemma AcceptorsGrow(s: Cluster, action: Action)
    requires Enabled(s, action) && ByAcceptors(action)
    ensures Monotone(s, Do(s, action))
  {
  }

  lemma StepGrows(s: Cluster, action: Action)
    requires Enabled(s, action)
    ensures Monotone(s, Do(s, action))
  {
    if ByAcceptors(action) {
      AcceptorsGrow(s, action);
    }
  }

  /** Nothing sent is unsent, and nobody changes the surroundings. */
  lemma {:induction false} RunsGrow(s: Cluster, actions: seq<Action>, s': Cluster)
    requires Leads(s, actions, s')
    ensures Monotone(s, s')
    decreases |actions|
  {
    if actions != [] {
      StepGrows(s, actions[0]);
      RunsGrow(Do(s, actions[0]), actions[1..], s');
    }
  }

  lemma OneValueBefore(net: set<Message>, net': set<Message>)
    requires net <= net' && OneValueEach(net')
    ensures OneValueEach(net)
  {
    forall b, v | Proposed(net, b, v) ensures Proposed(net', b, v) {
      ProposedStays(net, net', b, v);
    }
  }

  lemma {:induction false} RunKeeps(s: Cluster, actions: seq<Action>, s': Cluster)
    requires Inv(s) && Leads(s, actions, s') && OneValueEach(s'.net)
    ensures Inv(s')
    decreases |actions|
  {
    if actions != [] {
      RunsGrow(s, actions, s');
      OneValueBefore(s.net, s'.net);
      StepKeeps(s, actions[0]);
      RunKeeps(Do(s, actions[0]), actions[1..], s');
    }
  }

  lemma ReachableIsDurable(s: Cluster)
    requires Reachable(s) && Fenced(s)
    ensures Durable(s)
  {
    var s0, actions :| Init(s0) && Leads(s0, actions, s);
    InitHolds(s0);
    RunsGrow(s0, actions, s);
    RunIsDurable(s0, actions, s);
  }

  lemma ReachableInv(s: Cluster)
    requires Reachable(s) && Fenced(s) && OneValueEach(s.net)
    ensures Inv(s)
  {
    var s0, actions :| Init(s0) && Leads(s0, actions, s);
    InitHolds(s0);
    RunsGrow(s0, actions, s);
    RunKeeps(s0, actions, s);
  }

  /** When no ballot was issued twice, no ballot carries two values: a proposal is that of the one round with its
      ballot. */
  lemma DistinctMeansOneValue(s: Cluster)
    requires RequestsOk(s) && DistinctBallots(s)
    ensures OneValueEach(s.net)
  {
    forall b, v, v' | Proposed(s.net, b, v) && Proposed(s.net, b, v') ensures v == v' {
      var t: nat :| Sent(t, Accept(b, v)) in s.net;
      var u: nat :| Sent(u, Accept(b, v')) in s.net;
      assert RequestOk(s, t, Accept(b, v)) && RequestOk(s, u, Accept(b, v'));
    }
  }

  lemma ReachableOneValue(s: Cluster)
    requires Reachable(s) && DistinctBallots(s)
    ensures OneValueEach(s.net)
  {
    ReachableIsSound(s);
    DistinctMeansOneValue(s);
  }

  // ---- agreement ----

  lemma ChosenIsChoosable(s: Cluster, b: Ballot, v: Value)
    requires ChosenAt(s.nodes.Keys, s.votes, b, v)
    ensures Choosable(s.nodes, s.votes, b, v)
  {
    var q :| IsQuorum(s.nodes.Keys, q) && AllVoted(s.votes, q, b, v);
    assert AllCanBack(s.nodes, s.votes, q, b, v);
  }

  lemma InvAgreement(s: Cluster, b: Ballot, v: Value, b': Ballot, v': Value)
    requires Inv(s) && OneValueEach(s.net)
    requires ChosenAt(s.nodes.Keys, s.votes, b, v) && ChosenAt(s.nodes.Keys, s.votes, b', v')
    ensures v == v'
  {
    ChosenIsProposed(s, b, v);
    ChosenIsProposed(s, b', v');
    if b.Less(b') {
      ChosenIsChoosable(s, b, v);
    } else if b'.Less(b) {
      ChosenIsChoosable(s, b', v');
    }
  }

  /** Agreement: where no ballot carries two values, two ballots each accepted by a quorum carry one. */
  lemma Agreement(s: Cluster, b: Ballot, v: Value, b': Ballot, v': Value)
    requires Reachable(s) && Fenced(s) && OneValueEach(s.net)
    requires ChosenAt(s.nodes.Keys, s.votes, b, v) && ChosenAt(s.nodes.Keys, s.votes, b', v')
    ensures v == v'
  {
    ReachableInv(s);
    InvAgreement(s, b, v, b', v');
  }
}
