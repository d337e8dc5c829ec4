/** A campaign retries rounds until one is chosen or its caller goes (pkg/paxos/proposer.go:171-199), and when it is
    bound to succeed. */
module Campaigns {
  import opened Ballots
  import opened Wrappers
  import opened Acceptors
  import opened Quorums
  import opened Tallies
  import opened Attempts
  import opened Protocol
  import opened Broadcasts

  /** One turn of the campaign's loop: the round it runs, and whether the caller goes while it then waits. */
  datatype Turn = Turn(script: Script, stop: bool)

  /** The proposer after a failed attempt: its round jumps to the highest one seen. */
  function Forwarded(obj: ProposerObj, seen: Ballot): ProposerObj {
    obj.(round := if seen.round > obj.round then seen.round else obj.round)
  }

  predicate Fails(outcome: Outcome) {
    outcome.PrepareFailed? || outcome.AcceptFailed?
  }

  predicate TurnsFit(turns: seq<Turn>, n: nat) {
    forall turn | turn in turns :: ScriptFits(turn.script, n)
  }

  /** Where a campaign stands between turns. */
  datatype Stand = Stand(obj: ProposerObj, w: World)

  ghost predicate StandFits(at: Stand, turn: Turn) {
    |at.obj.peers| == |at.w.machines| && ScriptFits(turn.script, |at.obj.peers|)
  }

  /** A turn whose round failed and after whose wait the caller is still there. */
  ghost predicate FailedTurn(at: Stand, turn: Turn, at': Stand, attempt: Attempt) {
    && StandFits(at, turn) && !turn.script.gone && !turn.stop
    && IsRound(at.obj, at.w, turn.script, at'.w, attempt) && Fails(attempt.outcome)
    && at'.obj == Forwarded(at.obj.(round := at.obj.round + 1), attempt.highestSeen)
  }

  /** The turn a campaign ends in: gone from the start, decided, or given up on. */
  ghost predicate LastTurn(at: Stand, turn: Turn, last: bool, at': Stand, attempt: Attempt) {
    var tried := at.obj.(round := at.obj.round + 1);
    && StandFits(at, turn)
    && if turn.script.gone then
         at' == at && attempt == Opened(ZERO, QuorumSize(|at.obj.peers|)).(outcome := Aborted)
       else
         && IsRound(at.obj, at.w, turn.script, at'.w, attempt)
         && if Fails(attempt.outcome) then (turn.stop || last) && at'.obj == Forwarded(tried, attempt.highestSeen)
            else at'.obj == tried
  }

  /** What a turn comes to, from the round it ran: gone from the start, decided, or failed. */
  lemma TurnComes(at: Stand, turn: Turn, last: bool, w': World, attempt: Attempt)
    requires StandFits(at, turn)
    requires if turn.script.gone then w' == at.w && attempt == Opened(ZERO, QuorumSize(|at.obj.peers|)).(outcome := Aborted)
             else IsRound(at.obj, at.w, turn.script, w', attempt)
    ensures var tried := at.obj.(round := at.obj.round + 1);
            var jumped := Stand(Forwarded(tried, attempt.highestSeen), w');
            && !attempt.outcome.Unknown?
            && (turn.script.gone ==> LastTurn(at, turn, last, Stand(at.obj, w'), attempt))
            && (!turn.script.gone && !Fails(attempt.outcome) ==> LastTurn(at, turn, last, Stand(tried, w'), attempt))
            && (Fails(attempt.outcome) && (turn.stop || last) ==> LastTurn(at, turn, last, jumped, attempt))
            && (Fails(attempt.outcome) && !turn.stop && !last ==> FailedTurn(at, turn, jumped, attempt))
  {
    if !turn.script.gone {
      RoundEnds(at.obj, at.w, turn.script, w', attempt);
    }
  }

  /** The first turns all failed, each starting where the one before ended. */
  ghost predicate AllFailed(path: seq<Stand>, failed: seq<Attempt>, turns: seq<Turn>) {
    && |path| == |failed| + 1 && |failed| <= |turns|
    && forall i | 0 <= i < |failed| :: FailedAt(path, failed, turns, i)
  }

  ghost predicate FailedAt(path: seq<Stand>, failed: seq<Attempt>, turns: seq<Turn>, i: nat)
    requires i < |failed| <= |turns| && i + 1 < |path|
  {
    FailedTurn(path[i], turns[i], path[i + 1], failed[i])
  }

  lemma PathGrows(path: seq<Stand>, failed: seq<Attempt>, turns: seq<Turn>, at': Stand, attempt: Attempt)
    requires AllFailed(path, failed, turns) && |failed| < |turns|
    requires FailedTurn(path[|failed|], turns[|failed|], at', attempt)
    ensures AllFailed(path + [at'], failed + [attempt], turns)
  {
    var path', failed' := path + [at'], failed + [attempt];
    forall i | 0 <= i < |failed'| ensures FailedAt(path', failed', turns, i) {
      if i < |failed| {
        assert FailedAt(path, failed, turns, i);
      }
    }
  }

  /** A whole campaign: it fails along the path and ends in the turn after it with this attempt. Its caller goes in the
      last turn at the latest. */
  ghost predicate IsCampaign(turns: seq<Turn>, path: seq<Stand>, failed: seq<Attempt>, end: Stand, attempt: Attempt) {
    && AllFailed(path, failed, turns) && |failed| < |turns|
    && LastTurn(path[|failed|], turns[|failed|], |failed| == |turns| - 1, end, attempt)
  }

  /** The stands of a campaign are those of one proposer, and each failure takes it past the highest ballot seen and no
      further: the next attempt's ballot is the first one above the failed attempt and above all it has seen, as far as
      the round goes. */
  lemma {:induction false} FailuresJump(path: seq<Stand>, failed: seq<Attempt>, turns: seq<Turn>, n: nat)
    requires AllFailed(path, failed, turns) && n <= |failed|
    ensures path[n].obj == path[0].obj.(round := path[n].obj.round)
    ensures n > 0 ==> JumpedPast(failed[n - 1], path[n].obj)
    decreases n
  {
    if n > 0 {
      FailuresJump(path, failed, turns, n - 1);
      assert FailedAt(path, failed, turns, n - 1);
      FailureJumps(path[n - 1], turns[n - 1], path[n], failed[n - 1]);
    }
  }

  lemma FailureJumps(at: Stand, turn: Turn, at': Stand, attempt: Attempt)
    requires FailedTurn(at, turn, at', attempt)
    ensures at'.obj == at.obj.(round := at'.obj.round) && JumpedPast(attempt, at'.obj)
  {
    var w1, rs, rs2 := RoundReports(at.obj, at.w, turn.script, at'.w, attempt);
  }

  /** The proposer's round is that of the attempt or of the highest ballot it has seen, whichever is later. */
  predicate JumpedPast(attempt: Attempt, obj: ProposerObj) {
    && obj.round >= attempt.ballot.round && obj.round >= attempt.highestSeen.round
    && (obj.round == attempt.ballot.round || obj.round == attempt.highestSeen.round)
  }

  /** The ballot of each attempt is one round above the later of the failed attempt before it and the highest ballot that
      one has seen. */
  lemma NextAttempt(turns: seq<Turn>, path: seq<Stand>, failed: seq<Attempt>, end: Stand, attempt: Attempt, i: nat)
    requires IsCampaign(turns, path, failed, end, attempt) && 0 < i <= |failed|
    requires i == |failed| ==> !turns[i].script.gone
    ensures var next := if i < |failed| then failed[i] else attempt;
            && next.ballot.node == path[0].obj.id
            && next.ballot.round > failed[i - 1].ballot.round && next.ballot.round > failed[i - 1].highestSeen.round
            && (next.ballot.round == failed[i - 1].ballot.round + 1 || next.ballot.round == failed[i - 1].highestSeen.round + 1)
  {
    FailuresJump(path, failed, turns, i);
    if i < |failed| {
      assert FailedAt(path, failed, turns, i);
      var w1, rs, rs2 := RoundReports(path[i].obj, path[i].w, turns[i].script, path[i + 1].w, failed[i]);
    } else {
      var w1, rs, rs2 := RoundReports(path[i].obj, path[i].w, turns[i].script, end.w, attempt);
    }
  }

  /** Nobody has gone where the code looks: not before the round, not after its prepares, nor, if it got that far, after its
      accepts. */
  predicate CallerStays(script: Script, attempt: Attempt) {
    !script.gone && !script.gone1 && (attempt.promises >= attempt.quorum ==> !script.gone2)
  }

  /** The campaign goes on past a turn only while its caller stays, and only without a quorum of acceptances. */
  lemma CampaignGoesOn(path: seq<Stand>, failed: seq<Attempt>, turns: seq<Turn>, i: nat)
    requires AllFailed(path, failed, turns) && i < |failed|
    ensures CallerStays(turns[i].script, failed[i]) && !turns[i].stop && failed[i].accepts < failed[i].quorum
  {
    assert FailedAt(path, failed, turns, i);
    var w1, rs, rs2 := RoundReports(path[i].obj, path[i].w, turns[i].script, path[i + 1].w, failed[i]);
  }

  /** It ends with a value chosen by a quorum of acceptances, or because its caller has gone. The proposer's round is then
      that of its last ballot, and after a failure it has jumped once more. */
  lemma CampaignEnds(turns: seq<Turn>, path: seq<Stand>, failed: seq<Attempt>, end: Stand, attempt: Attempt)
    requires IsCampaign(turns, path, failed, end, attempt)
    ensures var last := |failed|;
            if attempt.outcome.Chosen? then !turns[last].script.gone && attempt.accepts >= attempt.quorum
            else !CallerStays(turns[last].script, attempt) || turns[last].stop || last == |turns| - 1
    ensures var before := path[|failed|].obj;
            && end.obj == before.(round := end.obj.round)
            && if turns[|failed|].script.gone then end == path[|failed|] && attempt.ballot == ZERO
               else
                 && attempt.ballot == Ballot(before.round + 1, before.id)
                 && if Fails(attempt.outcome) then JumpedPast(attempt, end.obj) else end.obj.round == attempt.ballot.round
  {
    var at, turn := path[|failed|], turns[|failed|];
    if !turn.script.gone {
      var w1, rs, rs2 := RoundReports(at.obj, at.w, turn.script, end.w, attempt);
    }
  }

  /** A round ends with a definite outcome, over the same peers. */
  lemma RoundEnds(obj: ProposerObj, w: World, script: Script, w': World, attempt: Attempt)
    requires |obj.peers| == |w.machines| && ScriptFits(script, |obj.peers|)
    requires IsRound(obj, w, script, w', attempt)
    ensures !attempt.outcome.Unknown? && |w'.machines| == |w.machines|
  {
  }

  // ---- the quiet period ----

  /** Only the proposer's own requests happen. */
  predicate Calm(events: seq<Event>) {
    forall e | e in events :: e.Call?
  }

  /** The peers that are up and serve the broadcast with a working disk and a reply that comes back. */
  function Reached(w: World, events: seq<Event>): set<nat> {
    set i | i in Slots(|w.machines|) && w.machines[i].mem.Some? && Call(i, Saved, true) in events
  }

  /** Both broadcasts of the round are undisturbed and reach a quorum each, not always the same one. */
  predicate Quiet(w: World, script: Script) {
    && !script.gone && !script.gone1 && !script.gone2
    && Calm(script.first) && |Reached(w, script.first)| >= QuorumSize(|w.machines|)
    && Calm(script.second) && |Reached(w, script.second)| >= QuorumSize(|w.machines|)
  }

  predicate Positive(reply: Reply) {
    match reply
    case Promise(p) => p.promised
    case Acceptance(a) => a.accepted
  }

  function Highest(reply: Reply): Ballot {
    match reply
    case Promise(p) => p.highestPromised
    case Acceptance(a) => a.highestPromised
  }

  /** What a calm broadcast at ballot b may do to one peer, and what that peer's slot may hold: the promise stays or
      becomes b, and a rejection tells the promise that caused it, which stands. */
  ghost predicate CalmSlot(m: Machine, m': Machine, own: Request, reply: Option<Reply>) {
    && (m'.mem.Some? <==> m.mem.Some?)
    && (m.mem.Some? ==>
          || m'.mem.value.promised == m.mem.value.promised
          || (m'.mem.value.promised == own.ballot && own.ballot.AtLeast(m.mem.value.promised)))
    && (reply.Some? ==>
          && m.mem.Some? && (own.Prepare? <==> reply.value.Promise?)
          && (Positive(reply.value)
              || (own.ballot.Less(m'.mem.value.promised) && Highest(reply.value) == m'.mem.value.promised)))
  }

  ghost predicate CalmSlots(w: World, w': World, own: Request, rs: Replies) {
    && |w'.machines| == |w.machines| == |rs|
    && forall i | 0 <= i < |rs| :: CalmSlot(w.machines[i], w'.machines[i], own, rs[i])
  }

  lemma CallIsCalm(peers: seq<int>, w: World, w1: World, own: Request, rs: Replies, event: Event)
    requires |peers| == |w1.machines| == |rs| && event.Call? && event.slot < |peers|
    requires !own.ballot.IsZero() && CalmSlots(w, w1, own, rs)
    ensures var (w', rs') := Happen(peers, w1, own, rs, event);
            && CalmSlots(w, w', own, rs')
            && (forall i | 0 <= i < |rs| && rs[i].Some? :: rs'[i].Some?)
            && (event.save.Saved? && event.replied && w.machines[event.slot].mem.Some? ==> rs'[event.slot].Some?)
  {
    assert CalmSlot(w.machines[event.slot], w1.machines[event.slot], own, rs[event.slot]);
  }

  lemma {:induction false} BroadcastIsCalm(peers: seq<int>, w: World, own: Request, events: seq<Event>)
    requires |peers| == |w.machines| && SlotsIn(events, |peers|) && Calm(events) && !own.ballot.IsZero()
    ensures var (w', rs) := Broadcast(peers, w, own, events);
            CalmSlots(w, w', own, rs) && forall i | i in Reached(w, events) :: i < |rs| && rs[i].Some?
    decreases |events|
  {
    if events != [] {
      var last := |events| - 1;
      var fewer := events[..last];
      BroadcastIsCalm(peers, w, own, fewer);
      var (w1, rs) := Broadcast(peers, w, own, fewer);
      assert events[last] in events && events == fewer + [events[last]];
      CallIsCalm(peers, w, w1, own, rs, events[last]);
      forall i | i in Reached(w, events) ensures i in Reached(w, fewer) || events[last] == Call(i, Saved, true) {
      }
    }
  }

  /** The peers that have promised beyond a round: the ones that can turn it down. */
  function Ahead(w: World, round: int): set<nat> {
    set i | i in Slots(|w.machines|) && w.machines[i].mem.Some? && w.machines[i].mem.value.promised.round > round
  }

  /** A broadcast that some reached peer turns down leaves fewer peers ahead, once the round is forwarded past that
      peer's promise. */
  lemma RejectionShrinksAhead(w: World, w': World, own: Request, rs: Replies, i: nat, round: int, round': int)
    requires CalmSlots(w, w', own, rs) && i < |rs| && rs[i].Some? && !Positive(rs[i].value)
    requires round < own.ballot.round <= round' && Highest(rs[i].value).round <= round'
    ensures Ahead(w', round') < Ahead(w, round)
  {
    assert CalmSlot(w.machines[i], w'.machines[i], own, rs[i]);
    forall j | j in Ahead(w', round') ensures j in Ahead(w, round) {
      assert CalmSlot(w.machines[j], w'.machines[j], own, rs[j]);
    }
    assert i in Ahead(w, round) && i !in Ahead(w', round');
  }

  lemma FewerThan<T>(p: set<T>, q: set<T>)
    requires p < q
    ensures |p| < |q|
  {
    var x :| x in q && x !in p;
    SubsetSize(p, q - {x});
  }

  /** Of the reached peers, one turned the request down if too few agreed. */
  lemma SomebodyRefused(reached: set<nat>, agreed: set<nat>, q: nat) returns (i: nat)
    requires |reached| >= q > |agreed|
    ensures i in reached && i !in agreed
  {
    if reached <= agreed {
      SubsetSize(reached, agreed);
      assert false;
    }
    i :| i in reached && i !in agreed;
  }

  lemma PrepareRefusedShrinks(obj: ProposerObj, w: World, script: Script, w1: World, rs: Replies, a1: Attempt)
    requires |obj.peers| == |w.machines| && ScriptFits(script, |obj.peers|) && Quiet(w, script)
    requires FirstPhase(obj, w, script, w1, rs, a1) && a1.outcome.PrepareFailed?
    ensures |Ahead(w1, Forwarded(obj.(round := obj.round + 1), a1.highestSeen).round)| < |Ahead(w, obj.round)|
  {
    var own := Prepare(NextBallot(obj));
    BroadcastIsCalm(obj.peers, w, own, script.first);
    var i := SomebodyRefused(Reached(w, script.first), Promisers(AsPrepares(rs)), QuorumSize(|obj.peers|));
    assert CalmSlot(w.machines[i], w1.machines[i], own, rs[i]);
    var bs := PreparePromises(AsPrepares(rs));
    assert bs[i] == Some(Highest(rs[i].value));
    var round' := Forwarded(obj.(round := obj.round + 1), a1.highestSeen).round;
    RejectionShrinksAhead(w, w1, own, rs, i, obj.round, round');
    FewerThan(Ahead(w1, round'), Ahead(w, obj.round));
  }

  lemma SameReached(w: World, w1: World, own: Request, rs: Replies, events: seq<Event>)
    requires CalmSlots(w, w1, own, rs)
    ensures Reached(w1, events) == Reached(w, events)
  {
    forall i | 0 <= i < |rs| ensures w1.machines[i].mem.Some? <==> w.machines[i].mem.Some? {
      assert CalmSlot(w.machines[i], w1.machines[i], own, rs[i]);
    }
  }

  /** Both calm broadcasts of a round together. */
  lemma CalmThrough(w: World, w1: World, w2: World, b: Ballot, v: Value, rs: Replies, rs2: Replies)
    requires CalmSlots(w, w1, Prepare(b), rs) && CalmSlots(w1, w2, Accept(b, v), rs2)
    ensures CalmSlots(w, w2, Accept(b, v), rs2)
  {
    forall j | 0 <= j < |rs2| ensures CalmSlot(w.machines[j], w2.machines[j], Accept(b, v), rs2[j]) {
      assert CalmSlot(w.machines[j], w1.machines[j], Prepare(b), rs[j]);
      assert CalmSlot(w1.machines[j], w2.machines[j], Accept(b, v), rs2[j]);
    }
  }

  lemma AcceptRefusedShrinks(obj: ProposerObj, w: World, script: Script, w1: World, rs: Replies, a1: Attempt,
                             w2: World, rs2: Replies, a2: Attempt)
    requires |obj.peers| == |w.machines| == |w1.machines| && ScriptFits(script, |obj.peers|) && Quiet(w, script)
    requires FirstPhase(obj, w, script, w1, rs, a1) && a1.outcome.Unknown?
    requires SecondPhase(obj, w1, a1, script, w2, rs2, a2) && a2.outcome.AcceptFailed?
    ensures |Ahead(w2, Forwarded(obj.(round := obj.round + 1), a2.highestSeen).round)| < |Ahead(w, obj.round)|
  {
    var own := Accept(a1.ballot, a1.value);
    BroadcastIsCalm(obj.peers, w, Prepare(NextBallot(obj)), script.first);
    BroadcastIsCalm(obj.peers, w1, own, script.second);
    SameReached(w, w1, Prepare(NextBallot(obj)), rs, script.second);
    var i := SomebodyRefused(Reached(w1, script.second), Accepters(AsAccepts(rs2)), QuorumSize(|obj.peers|));
    assert CalmSlot(w1.machines[i], w2.machines[i], own, rs2[i]);
    assert AcceptPromises(AsAccepts(rs2))[i] == Some(Highest(rs2[i].value));
    var round' := Forwarded(obj.(round := obj.round + 1), a2.highestSeen).round;
    CalmThrough(w, w1, w2, a1.ballot, a1.value, rs, rs2);
    RejectionShrinksAhead(w, w2, own, rs2, i, obj.round, round');
    FewerThan(Ahead(w2, round'), Ahead(w, obj.round));
  }

  /** A quiet round either gets its value chosen or leaves fewer peers ahead of the proposer, and keeps every node up
      that was up. */
  lemma QuietRoundShrinks(obj: ProposerObj, w: World, script: Script, w': World, attempt: Attempt)
    requires |obj.peers| == |w.machines| && ScriptFits(script, |obj.peers|) && Quiet(w, script)
    requires IsRound(obj, w, script, w', attempt)
    ensures attempt.outcome.Chosen?
         || (Fails(attempt.outcome)
             && |Ahead(w', Forwarded(obj.(round := obj.round + 1), attempt.highestSeen).round)| < |Ahead(w, obj.round)|)
    ensures SameUp(w, w')
  {
    var w1, rs, a1 :|
      && FirstPhase(obj, w, script, w1, rs, a1)
      && if a1.outcome.Unknown? then exists rs2 :: SecondPhase(obj, w1, a1, script, w', rs2, attempt)
         else w' == w1 && attempt == a1;
    CalmKeepsUp(obj.peers, w, Prepare(NextBallot(obj)), script.first);
    if a1.outcome.Unknown? {
      var rs2 :| SecondPhase(obj, w1, a1, script, w', rs2, attempt);
      CalmKeepsUp(obj.peers, w1, Accept(a1.ballot, a1.value), script.second);
      if !attempt.outcome.Chosen? {
        AcceptRefusedShrinks(obj, w, script, w1, rs, a1, w', rs2, attempt);
      }
    } else {
      PrepareRefusedShrinks(obj, w, script, w1, rs, a1);
    }
  }

  ghost predicate SameUp(w: World, w': World) {
    |w'.machines| == |w.machines|
    && forall i | 0 <= i < |w.machines| :: w'.machines[i].mem.Some? <==> w.machines[i].mem.Some?
  }

  lemma {:induction false} CalmKeepsUp(peers: seq<int>, w: World, own: Request, events: seq<Event>)
    requires |peers| == |w.machines| && SlotsIn(events, |peers|) && Calm(events) && !own.ballot.IsZero()
    ensures SameUp(w, Broadcast(peers, w, own, events).0)
  {
    BroadcastIsCalm(peers, w, own, events);
    var (w', rs) := Broadcast(peers, w, own, events);
    forall i | 0 <= i < |w.machines| ensures w'.machines[i].mem.Some? <==> w.machines[i].mem.Some? {
      assert CalmSlot(w.machines[i], w'.machines[i], own, rs[i]);
    }
  }

  /** Every turn is quiet, and the caller waits through all but the last. */
  predicate QuietTurns(w: World, turns: seq<Turn>) {
    forall i | 0 <= i < |turns| :: Quiet(w, turns[i].script) && (i < |turns| - 1 ==> !turns[i].stop)
  }

  lemma QuietStays(w: World, w1: World, script: Script)
    requires Quiet(w, script) && SameUp(w, w1)
    ensures Quiet(w1, script)
  {
    assert Reached(w1, script.first) == Reached(w, script.first);
    assert Reached(w1, script.second) == Reached(w, script.second);
  }

  lemma NextQuietFailure(path: seq<Stand>, failed: seq<Attempt>, turns: seq<Turn>, n: nat)
    requires AllFailed(path, failed, turns) && n < |failed|
    requires QuietTurns(path[0].w, turns) && SameUp(path[0].w, path[n].w)
    ensures SameUp(path[0].w, path[n + 1].w) && Lag(path[n + 1]) < Lag(path[n])
  {
    assert FailedAt(path, failed, turns, n);
    QuietStays(path[0].w, path[n].w, turns[n].script);
    QuietFailureShrinks(path[n], turns[n], path[n + 1], failed[n]);
    SameUpThrough(path[0].w, path[n].w, path[n + 1].w);
  }

  /** Each quiet failure leaves fewer peers ahead. */
  lemma {:induction false} QuietFailuresShrink(path: seq<Stand>, failed: seq<Attempt>, turns: seq<Turn>, n: nat)
    requires AllFailed(path, failed, turns) && n <= |failed|
    requires QuietTurns(path[0].w, turns)
    ensures SameUp(path[0].w, path[n].w)
    ensures Lag(path[n]) + n <= Lag(path[0])
  {
    if n > 0 {
      QuietFailuresShrink(path, failed, turns, n - 1);
      NextQuietFailure(path, failed, turns, n - 1);
    }
  }

  lemma SameUpThrough(w: World, w1: World, w2: World)
    requires SameUp(w, w1) && SameUp(w1, w2)
    ensures SameUp(w, w2)
  {
  }

  /** How many peers are ahead of the proposer where the campaign stands. */
  function Lag(at: Stand): nat {
    |Ahead(at.w, at.obj.round)|
  }

  lemma QuietFailureShrinks(at: Stand, turn: Turn, at': Stand, attempt: Attempt)
    requires FailedTurn(at, turn, at', attempt) && Quiet(at.w, turn.script)
    ensures SameUp(at.w, at'.w) && Lag(at') < Lag(at)
  {
    QuietRoundShrinks(at.obj, at.w, turn.script, at'.w, attempt);
  }

  /** Termination: in a quiet period a campaign given enough turns gets its value chosen, and fails no more often
      before than there are peers ahead of it. */
  lemma QuietCampaignChooses(turns: seq<Turn>, path: seq<Stand>, failed: seq<Attempt>, end: Stand, attempt: Attempt)
    requires IsCampaign(turns, path, failed, end, attempt)
    requires QuietTurns(path[0].w, turns) && |turns| > Lag(path[0])
    ensures attempt.outcome.Chosen? && |failed| <= Lag(path[0])
  {
    var n := |failed|;
    QuietFailuresShrink(path, failed, turns, n);
    QuietStays(path[0].w, path[n].w, turns[n].script);
    QuietRoundShrinks(path[n].obj, path[n].w, turns[n].script, end.w, attempt);
  }

  /** In a quiet period, and with turns enough, the value is chosen. */
  ghost predicate Assured(at: Stand, turns: seq<Turn>, attempt: Attempt) {
    QuietTurns(at.w, turns) && |turns| > Lag(at) ==> attempt.outcome.Chosen?
  }

  /** A path of failures and a last turn make a campaign. */
  lemma CampaignIsAssured(turns: seq<Turn>, path: seq<Stand>, failed: seq<Attempt>, end: Stand, attempt: Attempt)
    requires AllFailed(path, failed, turns) && |failed| < |turns|
    requires LastTurn(path[|failed|], turns[|failed|], |failed| == |turns| - 1, end, attempt)
    ensures IsCampaign(turns, path, failed, end, attempt) && Assured(path[0], turns, attempt)
  {
    if QuietTurns(path[0].w, turns) && |turns| > Lag(path[0]) {
      QuietCampaignChooses(turns, path, failed, end, attempt);
    }
  }
}
