/** What every run of the cluster keeps, whatever ballots are issued and whatever acceptor works on which store:
    everything held, answered, recorded, reported and learned goes back to a proposal, and what is reported as chosen
    was accepted by a quorum. */
module Soundness {
  import opened Ballots
  import opened Wrappers
  import opened Acceptors
  import opened Quorums
  import opened Tallies
  import opened Protocol

  ghost predicate Proposed(net: set<Message>, b: Ballot, v: Value) {
    exists t: nat :: Sent(t, Accept(b, v)) in net
  }

  ghost predicate ChosenAt(all: set<int>, votes: set<Vote>, b: Ballot, v: Value) {
    exists q :: IsQuorum(all, q) && AllVoted(votes, q, b, v)
  }

  ghost predicate AllVoted(votes: set<Vote>, q: set<int>, b: Ballot, v: Value) {
    forall a | a in q :: Vote(a, b, v) in votes
  }

  ghost predicate StateOk(st: AcceptorState, net: set<Message>) {
    && st.promised.AtLeast(ZERO)
    && (st.hasAccepted ==>
          ZERO.Less(st.accepted) && st.promised.AtLeast(st.accepted) && Proposed(net, st.accepted, st.value))
  }

  ghost predicate MachineSound(a: int, m: Machine, votes: set<Vote>, net: set<Message>) {
    StateOk(m.disk, net) && (m.mem.Some? ==> StateOk(m.mem.value, net) && Held(a, m) <= votes)
  }

  ghost predicate StatesOk(s: Cluster) {
    && (forall a | a in s.nodes :: MachineSound(a, s.nodes[a], s.votes, s.net))
    && (forall i | 0 <= i < |s.spares| :: s.spares[i].acceptor in s.nodes && StateOk(s.spares[i].st, s.net))
  }

  ghost predicate VotesOk(s: Cluster) {
    && (forall vote | vote in s.votes :: vote.acceptor in s.nodes && Proposed(s.net, vote.ballot, vote.value))
    && (forall vote | vote in s.ledger :: vote in s.votes)
  }

  ghost predicate RequestOk(s: Cluster, t: nat, req: Request) {
    && t < |s.rounds| && s.rounds[t].attempt.ballot == req.ballot
    && (req.Accept? ==> s.rounds[t].accepting && s.rounds[t].attempt.value == req.value)
  }

  ghost predicate RequestsOk(s: Cluster) {
    forall t, req | Sent(t, req) in s.net :: RequestOk(s, t, req)
  }

  /** A promise reports what was proposed, at its own ballot at most; an acceptance was made. */
  ghost predicate ReplyOk(s: Cluster, t: nat, a: int, reply: Reply) {
    && t < |s.rounds| && a in s.nodes
    && (reply.Promise? && reply.prepare.promised && reply.prepare.hasAccepted ==>
          && ZERO.Less(reply.prepare.accepted) && s.rounds[t].attempt.ballot.AtLeast(reply.prepare.accepted)
          && Proposed(s.net, reply.prepare.accepted, reply.prepare.value))
    && (reply.Acceptance? && reply.accept.accepted ==>
          s.rounds[t].accepting && Vote(a, s.rounds[t].attempt.ballot, s.rounds[t].attempt.value) in s.votes)
  }

  ghost predicate RepliesOk(s: Cluster, net: set<Message>) {
    forall t, a, reply | Replied(t, a, reply) in net :: ReplyOk(s, t, a, reply)
  }

  ghost predicate Configured(objs: seq<ProposerObj>, v: Value) {
    exists k :: 0 <= k < |objs| && objs[k].value == v
  }

  ghost predicate RoundOk(s: Cluster, round: Round) {
    && round.obj < |s.objs| && round.attempt.quorum == QuorumSize(|s.nodes|)
    && (round.accepting ==> Configured(s.objs, round.attempt.value))
    && (round.attempt.outcome.Chosen? ==>
          round.accepting && ChosenAt(s.nodes.Keys, s.votes, round.attempt.ballot, round.attempt.value))
  }

  ghost predicate RoundsOk(s: Cluster) {
    && (forall obj | obj in s.objs :: Enumerates(obj.peers, s.nodes.Keys))
    && (forall round | round in s.rounds :: RoundOk(s, round))
  }

  ghost predicate DecisionsOk(s: Cluster) {
    forall i | i in s.decisions ::
      ChosenAt(s.nodes.Keys, s.votes, s.decisions[i].ballot, s.decisions[i].value)
  }

  ghost predicate Sound(s: Cluster) {
    StatesOk(s) && VotesOk(s) && RequestsOk(s) && RepliesOk(s, s.net) && RoundsOk(s) && DecisionsOk(s)
  }

  // ---- the acceptors' steps ----

  /** A step of the acceptors leaves the proposers alone and sends only replies. */
  ghost predicate AcceptorStep(s: Cluster, s': Cluster) {
    && s'.nodes.Keys == s.nodes.Keys && s.net <= s'.net && s.votes <= s'.votes
    && s'.sealed == s.sealed && s'.exclusive == s.exclusive
    && s'.objs == s.objs && s'.rounds == s.rounds && s'.decisions == s.decisions
    && (forall t, req | Sent(t, req) in s'.net :: Sent(t, req) in s.net)
  }

  lemma ProposedStays(net: set<Message>, net': set<Message>, b: Ballot, v: Value)
    requires net <= net' && Proposed(net, b, v)
    ensures Proposed(net', b, v)
  {
    var t: nat :| Sent(t, Accept(b, v)) in net;
    assert Sent(t, Accept(b, v)) in net';
  }

  lemma ChoiceIsStable(all: set<int>, votes: set<Vote>, votes': set<Vote>, b: Ballot, v: Value)
    requires votes <= votes' && ChosenAt(all, votes, b, v)
    ensures ChosenAt(all, votes', b, v)
  {
    var q :| IsQuorum(all, q) && AllVoted(votes, q, b, v);
    assert AllVoted(votes', q, b, v);
  }

  lemma StateStays(st: AcceptorState, net: set<Message>, net': set<Message>)
    requires net <= net' && StateOk(st, net)
    ensures StateOk(st, net')
  {
    if st.hasAccepted { ProposedStays(net, net', st.accepted, st.value); }
  }

  lemma ReplyStays(s: Cluster, s': Cluster, t: nat, a: int, reply: Reply)
    requires AcceptorStep(s, s') && ReplyOk(s, t, a, reply)
    ensures ReplyOk(s', t, a, reply)
  {
    if reply.Promise? && reply.prepare.promised && reply.prepare.hasAccepted {
      ProposedStays(s.net, s'.net, reply.prepare.accepted, reply.prepare.value);
    }
  }

  lemma AcceptorStepKeeps(s: Cluster, s': Cluster)
    requires Sound(s) && AcceptorStep(s, s')
    ensures RequestsOk(s') && RoundsOk(s') && DecisionsOk(s')
    ensures RepliesOk(s', s.net)
  {
    assert |s'.nodes| == |s'.nodes.Keys| && |s.nodes| == |s.nodes.Keys|;
    forall t, req | Sent(t, req) in s'.net ensures RequestOk(s', t, req) {
      assert RequestOk(s, t, req);
    }
    forall round | round in s'.rounds ensures RoundOk(s', round) {
      assert RoundOk(s, round);
      if round.attempt.outcome.Chosen? {
        ChoiceIsStable(s.nodes.Keys, s.votes, s'.votes, round.attempt.ballot, round.attempt.value);
      }
    }
    forall i | i in s'.decisions
      ensures ChosenAt(s'.nodes.Keys, s'.votes, s'.decisions[i].ballot, s'.decisions[i].value)
    {
      ChoiceIsStable(s.nodes.Keys, s.votes, s'.votes, s.decisions[i].ballot, s.decisions[i].value);
    }
    forall t: nat, a, reply | Replied(t, a, reply) in s.net ensures ReplyOk(s', t, a, reply) {
      ReplyStays(s, s', t, a, reply);
    }
  }

  lemma VotesStay(s: Cluster, s': Cluster)
    requires VotesOk(s) && AcceptorStep(s, s')
    requires forall vote | vote in s'.votes && vote !in s.votes ::
      vote.acceptor in s.nodes && Proposed(s.net, vote.ballot, vote.value)
    requires forall vote | vote in s'.ledger :: vote in s.ledger || vote in s'.votes
    ensures VotesOk(s')
  {
    forall vote | vote in s'.votes ensures vote.acceptor in s'.nodes && Proposed(s'.net, vote.ballot, vote.value) {
      ProposedStays(s.net, s'.net, vote.ballot, vote.value);
    }
  }

  /** Every state after an acceptor step is one from before, or comes from handling a request that was sent. */
  lemma StatesStay(s: Cluster, s': Cluster, a: int)
    requires StatesOk(s) && AcceptorStep(s, s')
    requires a in s.nodes && MachineSound(a, s'.nodes[a], s'.votes, s'.net)
    requires forall c | c in s.nodes && c != a :: s'.nodes[c] == s.nodes[c]
    requires forall i | 0 <= i < |s'.spares| ::
      s'.spares[i].acceptor in s.nodes && (s'.spares[i] in s.spares || StateOk(s'.spares[i].st, s'.net))
    ensures StatesOk(s')
  {
    forall c | c in s'.nodes ensures MachineSound(c, s'.nodes[c], s'.votes, s'.net) {
      if c != a {
        assert MachineSound(c, s.nodes[c], s.votes, s.net);
        StateStays(s.nodes[c].disk, s.net, s'.net);
        if s.nodes[c].mem.Some? { StateStays(s.nodes[c].mem.value, s.net, s'.net); }
      }
    }
    forall i | 0 <= i < |s'.spares| ensures s'.spares[i].acceptor in s'.nodes && StateOk(s'.spares[i].st, s'.net) {
      if s'.spares[i] in s.spares {
        StateStays(s'.spares[i].st, s.net, s'.net);
      }
    }
  }

  /** What handling a request that was sent does to a memory and a disk, and what it answers. */
  lemma HandleIsSound(s: Cluster, a: int, m: Machine, t: nat, req: Request, save: SaveOutcome, s': Cluster)
    requires RequestOk(s, t, req) && Sent(t, req) in s.net && a in s.nodes && AcceptorStep(s, s')
    requires m.mem.Some? ==> StateOk(m.mem.value, s.net)
    requires StateOk(m.disk, s.net)
    requires Confirmed(a, req, Handle(a, m, req, save).1) <= s'.votes
    ensures var (m', reply) := Handle(a, m, req, save);
            && StateOk(m'.disk, s'.net) && (m'.mem.Some? ==> StateOk(m'.mem.value, s'.net))
            && (reply.Some? ==> ReplyOk(s', t, a, reply.value))
            && (m.mem.Some? && Held(a, m) <= s'.votes ==> Held(a, m') <= s'.votes)
  {
    if req.Accept? { assert Proposed(s'.net, req.ballot, req.value); }
    StateStays(m.disk, s.net, s'.net);
    if m.mem.Some? { StateStays(m.mem.value, s.net, s'.net); }
  }

  lemma DeliverIsSound(s: Cluster, a: int, t: nat, req: Request, save: SaveOutcome)
    requires Sound(s) && a in s.nodes && Sent(t, req) in s.net
    ensures Sound(DoDeliver(s, a, t, req, save))
  {
    var s' := DoDeliver(s, a, t, req, save);
    assert MachineSound(a, s.nodes[a], s.votes, s.net) && RequestOk(s, t, req);
    AcceptorStepKeeps(s, s');
    HandleIsSound(s, a, s.nodes[a], t, req, save, s');
    VotesStay(s, s');
    StatesStay(s, s', a);
  }

  lemma StraggleIsSound(s: Cluster, i: nat, t: nat, req: Request, save: SaveOutcome)
    requires Sound(s) && i < |s.spares| && Sent(t, req) in s.net
    ensures s.spares[i].acceptor in s.nodes && Sound(DoStraggle(s, i, t, req, save))
  {
    var a := s.spares[i].acceptor;
    var s' := DoStraggle(s, i, t, req, save);
    assert MachineSound(a, s.nodes[a], s.votes, s.net) && RequestOk(s, t, req);
    AcceptorStepKeeps(s, s');
    HandleIsSound(s, a, Machine(Some(s.spares[i].st), s.nodes[a].disk), t, req, save, s');
    VotesStay(s, s');
    assert MachineSound(a, s'.nodes[a], s'.votes, s'.net) by {
      if s.nodes[a].mem.Some? { StateStays(s.nodes[a].mem.value, s.net, s'.net); }
    }
    StatesStay(s, s', a);
  }

  /** An acceptor object put in place, or none. */
  lemma SwapIsSound(s: Cluster, s': Cluster, a: int, mem: Option<AcceptorState>)
    requires Sound(s) && a in s.nodes && (mem.Some? ==> StateOk(mem.value, s.net))
    requires s' == s.(nodes := s.nodes[a := s.nodes[a].(mem := mem)], spares := s'.spares,
                      votes := s.votes + Held(a, s.nodes[a].(mem := mem)))
    requires forall i | 0 <= i < |s'.spares| :: s'.spares[i] in s.spares || s'.spares[i] in Superseded(s, a)
    ensures Sound(s')
  {
    assert MachineSound(a, s.nodes[a], s.votes, s.net);
    AcceptorStepKeeps(s, s');
    VotesStay(s, s');
    StatesStay(s, s', a);
  }

  lemma AcceptorsAreSound(s: Cluster, action: Action)
    requires Sound(s) && Enabled(s, action)
    requires ByAcceptors(action)
    ensures Sound(Do(s, action)) && AcceptorStep(s, Do(s, action))
  {
    match action
    case Deliver(a, t, req, save) => DeliverIsSound(s, a, t, req, save);
    case Straggle(i, t, req, save) => StraggleIsSound(s, i, t, req, save);
    case _ => ExchangeIsSound(s, action);
  }

  /** The steps that only exchange acceptor objects. */
  lemma ExchangeIsSound(s: Cluster, action: Action)
    requires Sound(s) && Enabled(s, action)
    requires action.CrashNode? || action.RestartNode? || action.Load? || action.Install?
    ensures Sound(Do(s, action)) && AcceptorStep(s, Do(s, action))
  {
    var s' := Do(s, action);
    match action
    case CrashNode(a) => SwapIsSound(s, s', a, None);
    case RestartNode(a) =>
      assert MachineSound(a, s.nodes[a], s.votes, s.net);
      SwapIsSound(s, s', a, Some(s.nodes[a].disk));
    case Load(a) =>
      assert MachineSound(a, s.nodes[a], s.votes, s.net);
      AcceptorStepKeeps(s, s');
    case Install(i) => SwapIsSound(s, s', s.spares[i].acceptor, Some(s.spares[i].st));
  }

  // ---- the proposers' steps ----

  ghost predicate RoundGoesOn(round: Round, round': Round) {
    && round'.obj == round.obj && round'.attempt.ballot == round.attempt.ballot
    && (round.accepting ==> round'.accepting && round'.attempt.value == round.attempt.value)
  }

  ghost predicate SameProposer(obj: ProposerObj, obj': ProposerObj) {
    obj'.id == obj.id && obj'.value == obj.value && obj'.peers == obj.peers
  }

  /** A step of the proposers touches no acceptor, delivers no reply, and never goes back on a round. */
  ghost predicate ProposerStep(s: Cluster, s': Cluster) {
    && s'.nodes == s.nodes && s'.spares == s.spares && s'.votes == s.votes && s'.ledger == s.ledger && s.net <= s'.net
    && s'.sealed == s.sealed && s'.exclusive == s.exclusive
    && (forall t, a, reply | Replied(t, a, reply) in s'.net :: Replied(t, a, reply) in s.net)
    && |s.rounds| <= |s'.rounds| && (forall t | 0 <= t < |s.rounds| :: RoundGoesOn(s.rounds[t], s'.rounds[t]))
    && |s.objs| <= |s'.objs| && (forall k | 0 <= k < |s.objs| :: SameProposer(s.objs[k], s'.objs[k]))
  }

  lemma ProposerStepKeeps(s: Cluster, s': Cluster)
    requires Sound(s) && ProposerStep(s, s')
    requires forall t: nat, req | Sent(t, req) in s'.net && Sent(t, req) !in s.net :: RequestOk(s', t, req)
    ensures StatesOk(s') && VotesOk(s') && RequestsOk(s') && RepliesOk(s', s'.net)
  {
    forall b: Ballot, v: Value | Proposed(s.net, b, v) ensures Proposed(s'.net, b, v) {
      ProposedStays(s.net, s'.net, b, v);
    }
    forall a | a in s'.nodes ensures MachineSound(a, s'.nodes[a], s'.votes, s'.net) {
      assert MachineSound(a, s.nodes[a], s.votes, s.net);
    }
    forall t: nat, req | Sent(t, req) in s'.net ensures RequestOk(s', t, req) {
      if Sent(t, req) in s.net {
        assert RequestOk(s, t, req);
        assert RoundGoesOn(s.rounds[t], s'.rounds[t]);
      }
    }
    forall t: nat, a, reply | Replied(t, a, reply) in s'.net ensures ReplyOk(s', t, a, reply) {
      assert ReplyOk(s, t, a, reply);
      assert RoundGoesOn(s.rounds[t], s'.rounds[t]);
    }
  }

  lemma ConfiguredStays(objs: seq<ProposerObj>, objs': seq<ProposerObj>, v: Value)
    requires |objs| <= |objs'| && forall k | 0 <= k < |objs| :: SameProposer(objs[k], objs'[k])
    requires Configured(objs, v)
    ensures Configured(objs', v)
  {
    var k :| 0 <= k < |objs| && objs[k].value == v;
    assert SameProposer(objs[k], objs'[k]);
  }

  /** Rounds a proposer step left as they were, or finished without a choice, stay sound. */
  lemma RoundStays(s: Cluster, s': Cluster, round: Round, round': Round)
    requires ProposerStep(s, s') && RoundOk(s, round) && RoundGoesOn(round, round')
    requires round'.attempt.quorum == round.attempt.quorum
    requires round'.accepting ==> round.accepting
    requires round'.attempt.outcome.Chosen? ==> round.attempt.outcome.Chosen?
    ensures RoundOk(s', round')
  {
    if round.accepting {
      ConfiguredStays(s.objs, s'.objs, round.attempt.value);
    }
  }

  lemma PeersStay(s: Cluster, s': Cluster)
    requires ProposerStep(s, s') && forall obj | obj in s.objs :: Enumerates(obj.peers, s.nodes.Keys)
    requires forall k | |s.objs| <= k < |s'.objs| :: Enumerates(s'.objs[k].peers, s.nodes.Keys)
    ensures forall obj | obj in s'.objs :: Enumerates(obj.peers, s'.nodes.Keys)
  {
    forall obj | obj in s'.objs ensures Enumerates(obj.peers, s'.nodes.Keys) {
      var k :| 0 <= k < |s'.objs| && s'.objs[k] == obj;
      if k < |s.objs| { assert SameProposer(s.objs[k], obj); assert s.objs[k] in s.objs; }
    }
  }

  lemma NewRoundIsSound(s: Cluster, k: nat)
    requires RoundsOk(s) && k < |s.objs|
    ensures var s' := DoStart(s, k); RoundOk(s', s'.rounds[|s.rounds|])
  {
    assert s.objs[k] in s.objs;
    EnumerationSize(s.objs[k].peers, s.nodes.Keys);
    assert |s.nodes| == |s.nodes.Keys|;
  }

  lemma BookkeepingIsSound(s: Cluster, action: Action)
    requires Sound(s) && Enabled(s, action)
    requires action.Spawn? || action.Start? || action.FastForward? || action.Learn?
    ensures Sound(Do(s, action)) && ProposerStep(s, Do(s, action))
  {
    var s' := Do(s, action);
    assert ProposerStep(s, s');
    ProposerStepKeeps(s, s');
    if action.Start? {
      NewRoundIsSound(s, action.k);
    }
    forall round | round in s'.rounds && round in s.rounds ensures RoundOk(s', round) {
      RoundStays(s, s', round, round);
    }
    PeersStay(s, s');
    if action.Learn? {
      assert RoundOk(s, s.rounds[action.t]);
    }
  }

  /** A tally changes one round and may send one request. */
  lemma TallyIsProposerStep(s: Cluster, t: nat, round': Round, sent: set<Message>)
    requires t < |s.rounds| && RoundGoesOn(s.rounds[t], round')
    requires forall m | m in sent :: m.Sent?
    ensures ProposerStep(s, s.(rounds := s.rounds[t := round'], net := s.net + sent))
  {
  }

  /** The acceptors in the slots that satisfy a phase form a quorum. */
  lemma SlotsFormQuorum(s: Cluster, peers: seq<int>, slots: set<nat>) returns (q: set<int>)
    requires Enumerates(peers, s.nodes.Keys)
    requires forall i | i in slots :: i < |peers|
    requires |slots| >= QuorumSize(|s.nodes|)
    ensures q == At(peers, slots) && IsQuorum(s.nodes.Keys, q)
  {
    SlotsAreAcceptors(peers, s.nodes.Keys, slots);
    q := At(peers, slots);
    assert |s.nodes| == |s.nodes.Keys|;
  }

  /** A tally keeps the layer if the round it changes and the request it sends are in order. */
  lemma TallyIsSound(s: Cluster, t: nat, round': Round, sent: set<Message>)
    requires Sound(s) && t < |s.rounds| && RoundGoesOn(s.rounds[t], round') && RoundOk(s, round')
    requires forall m | m in sent :: m == Sent(t, Accept(round'.attempt.ballot, round'.attempt.value)) && round'.accepting
    ensures Sound(s.(rounds := s.rounds[t := round'], net := s.net + sent))
    ensures ProposerStep(s, s.(rounds := s.rounds[t := round'], net := s.net + sent))
  {
    var s' := s.(rounds := s.rounds[t := round'], net := s.net + sent);
    TallyIsProposerStep(s, t, round', sent);
    ProposerStepKeeps(s, s');
    forall r | r in s'.rounds ensures RoundOk(s', r) {
      assert r in s.rounds || r == round';
    }
  }

  /** An accept quorum in the slots is a quorum of acceptors. */
  lemma AcceptQuorumChooses(s: Cluster, t: nat, peers: seq<int>, rs: AcceptSlots)
    requires Sound(s) && t < |s.rounds| && HeardAccepts(s, t, peers, rs) && Enumerates(peers, s.nodes.Keys)
    requires |Accepters(rs)| >= QuorumSize(|s.nodes|)
    ensures ChosenAt(s.nodes.Keys, s.votes, s.rounds[t].attempt.ballot, s.rounds[t].attempt.value)
  {
    var q := SlotsFormQuorum(s, peers, Accepters(rs));
    forall a | a in q ensures Vote(a, s.rounds[t].attempt.ballot, s.rounds[t].attempt.value) in s.votes {
      var i :| i in Accepters(rs) && peers[i] == a;
      assert ReplyOk(s, t, a, Acceptance(rs[i].value));
    }
    assert AllVoted(s.votes, q, s.rounds[t].attempt.ballot, s.rounds[t].attempt.value);
  }

  lemma TallyAcceptIsSound(s: Cluster, action: Action)
    requires Sound(s) && Enabled(s, action) && action.TallyAccept?
    ensures Sound(Do(s, action)) && ProposerStep(s, Do(s, action))
  {
    var s' := Do(s, action);
    var t, round := action.t, s.rounds[action.t];
    assert round in s.rounds && RoundOk(s, round) && s.objs[round.obj] in s.objs;
    if s'.rounds[t].attempt.outcome.Chosen? {
      AcceptQuorumChooses(s, t, s.objs[round.obj].peers, action.accepts);
    }
    TallyIsSound(s, t, s'.rounds[t], {});
    assert s' == s.(rounds := s.rounds[t := s'.rounds[t]], net := s.net + {});
  }

  /** The value a tally takes is the proposer's own or one that was proposed before. */
  lemma TalliedValueIsConfigured(s: Cluster, t: nat, k: nat, rs: PrepareSlots, tally: PrepareTally)
    requires Sound(s) && k < |s.objs| && HeardPrepares(s, t, s.objs[k].peers, rs)
    requires IsPrepareTally(s.objs[k].value, rs, tally)
    ensures Configured(s.objs, tally.value)
  {
    if tally.adopted {
      var lead :| Adopts(s.objs[k].value, rs, true, tally.value, lead);
      var i: nat :| FirstHighest(rs, i) && Some((lead, tally.value)) == Reported(rs[i]);
      assert ReplyOk(s, t, s.objs[k].peers[i], Promise(rs[i].value));
      ProposedIsConfigured(s, lead, tally.value);
    }
  }

  lemma ProposedIsConfigured(s: Cluster, b: Ballot, v: Value)
    requires Sound(s) && Proposed(s.net, b, v)
    ensures Configured(s.objs, v)
  {
    var t: nat :| Sent(t, Accept(b, v)) in s.net;
    assert RequestOk(s, t, Accept(b, v));
    assert s.rounds[t] in s.rounds && RoundOk(s, s.rounds[t]);
  }

  /** The accept request of a round that has got past its first tally. */
  function AcceptOf(t: nat, round: Round): set<Message> {
    if round.accepting then {Sent(t, Accept(round.attempt.ballot, round.attempt.value))} else {}
  }

  /** Only a tally of a quorum of promises sends accepts, with the value tallied at the ballot of its round. */
  lemma NewAcceptIsTallied(s: Cluster, action: Action, b: Ballot, v: Value)
    requires Sound(s) && Enabled(s, action) && Proposed(Do(s, action).net, b, v) && !Proposed(s.net, b, v)
    ensures action.TallyPrepare? && s.rounds[action.t].attempt.ballot == b && action.prepareTally.value == v
    ensures action.prepareTally.promises >= QuorumSize(|s.nodes|)
  {
    var t: nat :| Sent(t, Accept(b, v)) in Do(s, action).net;
    assert action.TallyPrepare? && t == action.t;
    assert s.rounds[t] in s.rounds && RoundOk(s, s.rounds[t]) && RequestOk(DoTallyPrepare(s, t, action.prepareTally, action.abandoned), t, Accept(b, v));
  }

  lemma TallyPrepareShape(s: Cluster, t: nat, tally: PrepareTally, abandoned: bool)
    requires t < |s.rounds| && !s.rounds[t].accepting && !s.rounds[t].attempt.outcome.Chosen?
    ensures var s' := DoTallyPrepare(s, t, tally, abandoned);
            && |s'.rounds| == |s.rounds|
            && s' == s.(rounds := s.rounds[t := s'.rounds[t]], net := s.net + AcceptOf(t, s'.rounds[t]))
            && RoundGoesOn(s.rounds[t], s'.rounds[t]) && s'.rounds[t].attempt.quorum == s.rounds[t].attempt.quorum
            && s'.rounds[t].attempt.value == tally.value && !s'.rounds[t].attempt.outcome.Chosen?
  {
    var s' := DoTallyPrepare(s, t, tally, abandoned);
    assert !s'.rounds[t].accepting ==> s.net == s.net + {};
  }

  lemma TallyPrepareIsSound(s: Cluster, action: Action)
    requires Sound(s) && Enabled(s, action) && action.TallyPrepare?
    ensures Sound(Do(s, action)) && ProposerStep(s, Do(s, action))
  {
    var t, round := action.t, s.rounds[action.t];
    assert round in s.rounds && RoundOk(s, round);
    TalliedValueIsConfigured(s, t, round.obj, action.prepares, action.prepareTally);
    TallyPrepareShape(s, t, action.prepareTally, action.abandoned);
    var round' := DoTallyPrepare(s, t, action.prepareTally, action.abandoned).rounds[t];
    TallyIsSound(s, t, round', AcceptOf(t, round'));
  }

  predicate ByAcceptors(action: Action) {
    action.Deliver? || action.CrashNode? || action.RestartNode? || action.Load? || action.Install? || action.Straggle?
  }

  lemma StepIsSound(s: Cluster, action: Action)
    requires Sound(s) && Enabled(s, action)
    ensures Sound(Do(s, action))
    ensures if ByAcceptors(action) then AcceptorStep(s, Do(s, action)) else ProposerStep(s, Do(s, action))
  {
    if ByAcceptors(action) {
      AcceptorsAreSound(s, action);
    } else if action.TallyPrepare? {
      TallyPrepareIsSound(s, action);
    } else if action.TallyAccept? {
      TallyAcceptIsSound(s, action);
    } else {
      BookkeepingIsSound(s, action);
    }
  }

  lemma {:induction false} RunIsSound(s: Cluster, actions: seq<Action>, s': Cluster)
    requires Sound(s) && Leads(s, actions, s')
    ensures Sound(s')
    decreases |actions|
  {
    if actions != [] {
      StepIsSound(s, actions[0]);
      RunIsSound(Do(s, actions[0]), actions[1..], s');
    }
  }

  /** A state some run of a fresh cluster ends in. */
  ghost predicate Reachable(s: Cluster) {
    exists s0, actions :: Init(s0) && Leads(s0, actions, s)
  }

  lemma ReachableIsSound(s: Cluster)
    requires Reachable(s)
    ensures Sound(s)
  {
    var s0, actions :| Init(s0) && Leads(s0, actions, s);
    RunIsSound(s0, actions, s);
  }

  lemma ChosenIsProposed(s: Cluster, b: Ballot, v: Value)
    requires VotesOk(s) && ChosenAt(s.nodes.Keys, s.votes, b, v)
    ensures Proposed(s.net, b, v)
  {
    var q :| IsQuorum(s.nodes.Keys, q) && AllVoted(s.votes, q, b, v);
    var a := QuorumsMeet(s.nodes.Keys, q, q);
    assert Vote(a, b, v) in s.votes;
  }
}
