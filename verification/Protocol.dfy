/** The whole cluster as a state machine: acceptors with their disks, proposer objects, the rounds they have
    opened, and a network that may lose, delay, duplicate and reorder what is sent on it. Each action is one
    atomic step of the code, and any interleaving of actions is a run. */
module Protocol {
  import opened Ballots
  import opened Wrappers
  import opened Acceptors
  import opened Quorums
  import opened Tallies
  import opened Attempts

  /** A Proposer object. Two objects may carry one node id: a revived node builds a new one at round zero. */
  datatype ProposerObj = ProposerObj(id: int, value: Value, peers: seq<int>, round: nat)

  /** One execution of Propose, from the ballot it issues to its outcome. */
  datatype Round = Round(obj: nat, accepting: bool, attempt: Attempt)

  /** Traffic of round t: a request to the acceptors, or one acceptor's reply. A message is never removed:
      one that is lost is one that is never delivered. */
  datatype Message = Sent(t: nat, req: Request) | Replied(t: nat, acceptor: int, reply: Reply)

  datatype Decision = Decision(ballot: Ballot, value: Value)

  /** An acceptor object that is not its node's current one: a crash or a restart superseded it, or a restart has loaded
      it and not yet put it in place. The calls that had fetched it go on, each with a request of the time. */
  datatype Spare = Spare(acceptor: int, st: AcceptorState, calls: set<Message>)

  /** What the surroundings guarantee, if anything: with sealed stores a superseded acceptor can save nothing more; with
      exclusive restarts nothing is saved between the load and the swap of one. */
  datatype Cluster = Cluster(
    sealed: bool,
    exclusive: bool,
    nodes: map<int, Machine>,
    spares: seq<Spare>,
    objs: seq<ProposerObj>,
    rounds: seq<Round>,
    net: set<Message>,
    votes: set<Vote>,              // every acceptance some acceptor has ever held in memory
    ledger: seq<Vote>,             // the acceptances the test harness recorded
    decisions: map<int, Decision>) // what each node has learned

  datatype Action =
    | Spawn(obj: ProposerObj)
    | Start(k: nat)
    | Deliver(acceptor: int, t: nat, req: Request, save: SaveOutcome)
    | CrashNode(acceptor: int)
    | RestartNode(acceptor: int)
    | Load(acceptor: int)
    | Install(spare: nat)
    | Straggle(spare: nat, t: nat, req: Request, save: SaveOutcome)
    | TallyPrepare(t: nat, prepares: PrepareSlots, prepareTally: PrepareTally, abandoned: bool)
    | TallyAccept(t: nat, accepts: AcceptSlots, acceptTally: AcceptTally, abandoned: bool)
    | FastForward(t: nat)
    | Learn(t: nat)

  /** A new cluster: every acceptor is up and empty, and nobody has proposed. */
  ghost predicate Init(s: Cluster) {
    && (forall a | a in s.nodes :: s.nodes[a] == FRESH)
    && s.spares == [] && s.objs == [] && s.rounds == [] && s.net == {} && s.votes == {} && s.ledger == [] && s.decisions == map[]
  }

  /** Each slot holds a reply of that slot's peer to round t, or nothing. */
  predicate HeardPrepares(s: Cluster, t: nat, peers: seq<int>, rs: PrepareSlots) {
    && |rs| == |peers|
    && forall i | 0 <= i < |rs| && rs[i].Some? :: Replied(t, peers[i], Promise(rs[i].value)) in s.net
  }

  predicate HeardAccepts(s: Cluster, t: nat, peers: seq<int>, rs: AcceptSlots) {
    && |rs| == |peers|
    && forall i | 0 <= i < |rs| && rs[i].Some? :: Replied(t, peers[i], Acceptance(rs[i].value)) in s.net
  }

  ghost predicate Enabled(s: Cluster, action: Action) {
    match action
    case Spawn(obj) => obj.round == 0 && Enumerates(obj.peers, s.nodes.Keys)
    case Start(k) => k < |s.objs|
    case Deliver(a, t, req, _) => a in s.nodes && Sent(t, req) in s.net
    case CrashNode(a) => a in s.nodes
    case RestartNode(a) => a in s.nodes
    case Load(a) => a in s.nodes
    case Install(i) =>
      && i < |s.spares| && s.spares[i].acceptor in s.nodes
      && (s.exclusive ==> s.spares[i].st == s.nodes[s.spares[i].acceptor].disk)
    case Straggle(i, t, req, save) =>
      && i < |s.spares| && s.spares[i].acceptor in s.nodes && Sent(t, req) in s.net && Sent(t, req) in s.spares[i].calls
      && (s.sealed ==> save.Refused?)
    case TallyPrepare(t, rs, tally, _) =>
      && t < |s.rounds| && !s.rounds[t].accepting && s.rounds[t].attempt.outcome.Unknown?
      && s.rounds[t].obj < |s.objs|
      && HeardPrepares(s, t, s.objs[s.rounds[t].obj].peers, rs)
      && IsPrepareTally(s.objs[s.rounds[t].obj].value, rs, tally)
    case TallyAccept(t, rs, tally, _) =>
      && t < |s.rounds| && s.rounds[t].accepting && s.rounds[t].attempt.outcome.Unknown?
      && s.rounds[t].obj < |s.objs|
      && HeardAccepts(s, t, s.objs[s.rounds[t].obj].peers, rs)
      && IsAcceptTally(rs, tally)
    case FastForward(t) =>
      && t < |s.rounds| && s.rounds[t].obj < |s.objs|
      && (s.rounds[t].attempt.outcome.PrepareFailed? || s.rounds[t].attempt.outcome.AcceptFailed?)
    case Learn(t) =>
      t < |s.rounds| && s.rounds[t].obj < |s.objs| && s.rounds[t].attempt.outcome.Chosen?
  }

  /** The acceptance a reply confirms, if it does. */
  function Confirmed(a: int, req: Request, reply: Option<Reply>): set<Vote> {
    match (req, reply)
    case (Accept(b, v), Some(Acceptance(resp))) => if resp.accepted then {Vote(a, b, v)} else {}
    case _ => {}
  }

  /** The acceptance a machine holds in memory, if any. */
  function Held(a: int, m: Machine): set<Vote> {
    if m.mem.Some? && m.mem.value.hasAccepted then {Vote(a, m.mem.value.accepted, m.mem.value.value)} else {}
  }

  function Do(s: Cluster, action: Action): Cluster
    requires Enabled(s, action)
  {
    match action
    case Spawn(obj) => s.(objs := s.objs + [obj])
    case Start(k) => DoStart(s, k)
    case Deliver(a, t, req, save) => DoDeliver(s, a, t, req, save)
    case CrashNode(a) => s.(nodes := s.nodes[a := Crash(s.nodes[a])], spares := s.spares + Superseded(s, a))
    case RestartNode(a) =>
      var m := Restart(s.nodes[a]);
      s.(nodes := s.nodes[a := m], spares := s.spares + Superseded(s, a), votes := s.votes + Held(a, m))
    case Load(a) => s.(spares := s.spares + [Spare(a, s.nodes[a].disk, {})])
    case Install(i) => DoInstall(s, i)
    case Straggle(i, t, req, save) => DoStraggle(s, i, t, req, save)
    case TallyPrepare(t, _, tally, abandoned) => DoTallyPrepare(s, t, tally, abandoned)
    case TallyAccept(t, _, tally, abandoned) =>
      var round := s.rounds[t];
      s.(rounds := s.rounds[t := round.(attempt := AfterAccept(round.attempt, tally, abandoned))])
    case FastForward(t) =>
      var k, seen := s.rounds[t].obj, s.rounds[t].attempt.highestSeen.round;
      s.(objs := s.objs[k := s.objs[k].(round := if seen > s.objs[k].round then seen else s.objs[k].round)])
    case Learn(t) =>
      var attempt := s.rounds[t].attempt;
      s.(decisions := s.decisions[s.objs[s.rounds[t].obj].id := Decision(attempt.ballot, attempt.value)])
  }

  function DoStart(s: Cluster, k: nat): Cluster
    requires k < |s.objs|
  {
    var obj := s.objs[k];
    var b := Ballot(obj.round + 1, obj.id);
    s.(objs := s.objs[k := obj.(round := obj.round + 1)],
       rounds := s.rounds + [Round(k, false, Opened(b, QuorumSize(|obj.peers|)))],
       net := s.net + {Sent(|s.rounds|, Prepare(b))})
  }

  function DoDeliver(s: Cluster, a: int, t: nat, req: Request, save: SaveOutcome): Cluster
    requires a in s.nodes
  {
    var (m, reply) := Handle(a, s.nodes[a], req, save);
    var confirmed := Confirmed(a, req, reply);
    s.(nodes := s.nodes[a := m],
       net := if reply.Some? then s.net + {Replied(t, a, reply.value)} else s.net,
       votes := s.votes + confirmed,
       ledger := if confirmed == {} then s.ledger else s.ledger + [Vote(a, req.ballot, req.value)])
  }

  function DoTallyPrepare(s: Cluster, t: nat, tally: PrepareTally, abandoned: bool): Cluster
    requires t < |s.rounds|
  {
    var round := s.rounds[t];
    var attempt := AfterPrepare(round.attempt, tally, abandoned);
    if attempt.outcome.Unknown? then
      s.(rounds := s.rounds[t := round.(accepting := true, attempt := attempt)],
         net := s.net + {Sent(t, Accept(attempt.ballot, attempt.value))})
    else
      s.(rounds := s.rounds[t := round.(attempt := attempt)])
  }

  /** The acceptor object a node loses when it crashes or gets another. */
  function Superseded(s: Cluster, a: int): seq<Spare>
    requires a in s.nodes
  {
    if s.nodes[a].mem.Some? then [Spare(a, s.nodes[a].mem.value, s.net)] else []
  }

  /** A restart's swap: the loaded acceptor becomes the node's current one. */
  function DoInstall(s: Cluster, i: nat): Cluster
    requires i < |s.spares| && s.spares[i].acceptor in s.nodes
  {
    var a := s.spares[i].acceptor;
    var m := s.nodes[a].(mem := Some(s.spares[i].st));
    s.(nodes := s.nodes[a := m], spares := s.spares[..i] + s.spares[i + 1..] + Superseded(s, a),
       votes := s.votes + Held(a, m))
  }

  /** A call goes on at an acceptor object that is no longer current: its own memory, over the store as it is now. */
  function DoStraggle(s: Cluster, i: nat, t: nat, req: Request, save: SaveOutcome): Cluster
    requires i < |s.spares| && s.spares[i].acceptor in s.nodes
  {
    var a := s.spares[i].acceptor;
    var (m, reply) := Handle(a, Machine(Some(s.spares[i].st), s.nodes[a].disk), req, save);
    var confirmed := Confirmed(a, req, reply);
    s.(nodes := s.nodes[a := s.nodes[a].(disk := m.disk)],
       spares := s.spares[i := s.spares[i].(st := m.mem.value)],
       net := if reply.Some? then s.net + {Replied(t, a, reply.value)} else s.net,
       votes := s.votes + confirmed,
       ledger := if confirmed == {} then s.ledger else s.ledger + [Vote(a, req.ballot, req.value)])
  }

  /** Only round t differs, and it is still of the same proposer and at the same ballot; and only that round may have sent
      something more. */
  ghost predicate OneRewritten(s: Cluster, t: nat, s': Cluster) {
    && s'.nodes == s.nodes && s'.objs == s.objs && s'.decisions == s.decisions && s'.ledger == s.ledger
    && t < |s.rounds| == |s'.rounds| && s'.rounds == s.rounds[t := s'.rounds[t]]
    && s'.rounds[t].obj == s.rounds[t].obj && s'.rounds[t].attempt.ballot == s.rounds[t].attempt.ballot
    && s.net <= s'.net && (forall u: nat, req | Sent(u, req) in s'.net && Sent(u, req) !in s.net :: u == t)
  }

  lemma FirstTallyRewrites(s: Cluster, t: nat, tally: PrepareTally, abandoned: bool)
    requires t < |s.rounds|
    ensures OneRewritten(s, t, DoTallyPrepare(s, t, tally, abandoned))
  {
  }

  lemma TalliesRewriteOneRound(s: Cluster, action: Action)
    requires Enabled(s, action) && (action.TallyPrepare? || action.TallyAccept?)
    ensures OneRewritten(s, action.t, Do(s, action))
  {
    if action.TallyPrepare? {
      FirstTallyRewrites(s, action.t, action.prepareTally, action.abandoned);
    }
  }

  /** The actions are legal one after the other and lead from s to s'. */
  ghost predicate Leads(s: Cluster, actions: seq<Action>, s': Cluster)
    decreases |actions|
  {
    if actions == [] then s == s'
    else Enabled(s, actions[0]) && Leads(Do(s, actions[0]), actions[1..], s')
  }

  lemma {:induction false} LeadsThrough(s: Cluster, p: seq<Action>, mid: Cluster, q: seq<Action>, s': Cluster)
    requires Leads(s, p, mid) && Leads(mid, q, s')
    ensures Leads(s, p + q, s')
    decreases |p|
  {
    if p == [] {
      assert p + q == q;
    } else {
      LeadsThrough(Do(s, p[0]), p[1..], mid, q, s');
      assert (p + q)[1..] == p[1..] + q;
    }
  }

  /** The acceptor that a restart has just loaded serves no call. */
  lemma LoadedServesNothing(s: Cluster, a: int, t: nat, req: Request, save: SaveOutcome)
    requires Enabled(s, Load(a))
    ensures var s' := Do(s, Load(a));
            |s'.spares| > |s.spares| && !Enabled(s', Straggle(|s.spares|, t, req, save))
  {
  }

  /** The step takes node a's acceptor from it, or puts another in its place. */
  predicate Supersedes(s: Cluster, action: Action, a: int) {
    match action
    case CrashNode(b) => b == a
    case RestartNode(b) => b == a
    case Install(i) => i < |s.spares| && s.spares[i].acceptor == a
    case _ => false
  }

  /** An acceptor that a crash or a restart supersedes goes on, with the memory it had, with the requests sent by then and
      no later ones. The node then has no memory, what is on its disk, or what the restart had loaded; the disk stays. */
  lemma SupersededServesWhatWasSent(s: Cluster, action: Action, a: int, t: nat, req: Request)
    requires Enabled(s, action) && Supersedes(s, action, a) && a in s.nodes && s.nodes[a].mem.Some?
    ensures var s', i := Do(s, action), |Do(s, action).spares| - 1;
            && i >= 0 && s'.spares[i].acceptor == a && s'.spares[i].st == s.nodes[a].mem.value
            && (Enabled(s', Straggle(i, t, req, Refused)) <==> Sent(t, req) in s.net)
            && s'.nodes == s.nodes[a := s'.nodes[a]] && s'.nodes[a].disk == s.nodes[a].disk
            && s'.nodes[a].mem == match action
                                  case CrashNode(_) => None
                                  case RestartNode(_) => Some(s.nodes[a].disk)
                                  case Install(k) => Some(s.spares[k].st)
  {
  }

  /** A call that goes on at a superseded acceptor is handled in that acceptor's own memory. What it stores is the node's
      record from then on; the node's memory, and every other node and superseded acceptor, stay as they are. */
  lemma StraggledExactly(s: Cluster, i: nat, t: nat, req: Request, save: SaveOutcome)
    requires Enabled(s, Straggle(i, t, req, save))
    ensures var s', a, st := Do(s, Straggle(i, t, req, save)), s.spares[i].acceptor, s.spares[i].st;
            && s'.nodes == s.nodes[a := Machine(s.nodes[a].mem, s'.nodes[a].disk)]
            && |s'.spares| == |s.spares| && s'.spares == s.spares[i := s.spares[i].(st := s'.spares[i].st)]
            && if req.ballot == ZERO || req.ballot.Less(st.promised) || save.Refused? then
                 s'.spares[i].st == st && s'.nodes[a].disk == s.nodes[a].disk
               else
                 Moved(st, req, s'.nodes[a].disk) && s'.spares[i].st == if save.Saved? then s'.nodes[a].disk else st
  {
    HandledExactly(s.spares[i].acceptor, Machine(Some(s.spares[i].st), s.nodes[s.spares[i].acceptor].disk), req, save);
  }

  /** No ballot was issued twice. */
  ghost predicate DistinctBallots(s: Cluster) {
    forall t, u | 0 <= t < u < |s.rounds| :: s.rounds[t].attempt.ballot != s.rounds[u].attempt.ballot
  }
}
