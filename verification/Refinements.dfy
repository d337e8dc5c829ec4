/** A whole campaign is a run of the cluster, in which others may do as they like: the theorems hold of what it
    reports. */
module Refinements {
  import opened Attempts
  import opened Protocol
  import opened Soundness
  import opened Safety
  import opened Theorems
  import opened Broadcasts
  import opened Campaigns

  /** The cluster and a campaign of proposer k agree on where things stand. */
  ghost predicate Stands(s: Cluster, k: nat, at: Stand) {
    k < |s.objs| && s.objs[k] == at.obj && Shows(s, at.obj.peers, at.w)
  }

  /** The attempts proposer k has made, in order. */
  function AttemptsOf(rounds: seq<Round>, k: nat): seq<Attempt> {
    if rounds == [] then []
    else
      var before, last := AttemptsOf(rounds[..|rounds| - 1], k), rounds[|rounds| - 1];
      if last.obj == k then before + [last.attempt] else before
  }

  /** From s to s' proposer k has made these attempts and no other. The rest of the cluster may have moved. */
  ghost predicate Makes(s: Cluster, k: nat, attempts: seq<Attempt>, s': Cluster) {
    AttemptsOf(s'.rounds, k) == AttemptsOf(s.rounds, k) + attempts
  }

  lemma {:induction false} NobodyElses(rounds: seq<Round>, k: nat, more: seq<Round>)
    requires forall u | 0 <= u < |more| :: more[u].obj != k
    ensures AttemptsOf(rounds + more, k) == AttemptsOf(rounds, k)
    decreases |more|
  {
    if more == [] {
      assert rounds + more == rounds;
    } else {
      assert (rounds + more)[..|rounds + more| - 1] == rounds + more[..|more| - 1];
      NobodyElses(rounds, k, more[..|more| - 1]);
    }
  }

  lemma {:induction false} SameAttempts(rounds: seq<Round>, rounds': seq<Round>, k: nat)
    requires |rounds| == |rounds'| && forall u | 0 <= u < |rounds| :: SameRound(k, rounds[u], rounds'[u])
    ensures AttemptsOf(rounds', k) == AttemptsOf(rounds, k)
    decreases |rounds|
  {
    if rounds != [] {
      var n := |rounds| - 1;
      assert SameRound(k, rounds[n], rounds'[n]);
      SameAttempts(rounds[..n], rounds'[..n], k);
    }
  }

  lemma {:induction false} RoundIsMade(s: Cluster, k: nat, a1: Attempt, attempt: Attempt, s': Cluster)
    requires k < |s.objs| && RoundAdded(s, k, a1, attempt, s')
    ensures Makes(s, k, [attempt], s')
  {
    var t := |s.rounds|;
    var mine := s'.rounds[..t + 1];
    assert s'.rounds == mine + s'.rounds[t + 1..];
    NobodyElses(mine, k, s'.rounds[t + 1..]);
    assert mine[..t] == s'.rounds[..t];
    SameAttempts(s.rounds, s'.rounds[..t], k);
  }

  /** The jump past what a failed round has seen, or nothing. */
  function Jumped(s: Cluster, t: nat): Cluster
    requires t < |s.rounds|
  {
    if Fails(s.rounds[t].attempt.outcome) && s.rounds[t].obj < |s.objs| then Do(s, FastForward(t)) else s
  }

  /** The state one turn leads to. */
  ghost predicate TurnLeads(s: Cluster, k: nat, at: Stand, turn: Turn, s': Cluster)
    requires Stands(s, k, at) && StandFits(at, turn)
  {
    exists mid :: RoundLeads(s, k, at.w, turn.script, mid) && |s.rounds| < |mid.rounds| && s' == Jumped(mid, |s.rounds|)
  }

  /** In every turn from i on, others do what is possible. */
  ghost predicate CampaignFair(s: Cluster, k: nat, path: seq<Stand>, turns: seq<Turn>, i: nat)
    decreases |turns| - i
  {
    i < |turns| && i < |path| && Stands(s, k, path[i]) && StandFits(path[i], turns[i]) && !turns[i].script.gone ==>
      && RoundFair(s, k, path[i].w, turns[i].script)
      && forall s' | TurnLeads(s, k, path[i], turns[i], s') :: CampaignFair(s', k, path, turns, i + 1)
  }

  /** So is a campaign in which nobody else takes part. */
  lemma {:induction false} AloneCampaignIsFair(s: Cluster, k: nat, path: seq<Stand>, turns: seq<Turn>, i: nat)
    requires forall turn | turn in turns :: CallsOnly(turn.script.first) && CallsOnly(turn.script.second)
    ensures CampaignFair(s, k, path, turns, i)
    decreases |turns| - i
  {
    if i < |turns| && i < |path| && Stands(s, k, path[i]) && StandFits(path[i], turns[i]) {
      assert turns[i] in turns;
      AloneIsFair(s, k, path[i].w, turns[i].script);
      forall s' | TurnLeads(s, k, path[i], turns[i], s') ensures CampaignFair(s', k, path, turns, i + 1) {
        AloneCampaignIsFair(s', k, path, turns, i + 1);
      }
    }
  }

  /** Where the proposer stands after an attempt, jump included. */
  function After(at: Stand, attempt: Attempt): Stand {
    if Fails(attempt.outcome) then at.(obj := Forwarded(at.obj, attempt.highestSeen)) else at
  }

  lemma {:induction false} JumpIsRun(mid: Cluster, t: nat, k: nat, at: Stand, attempt: Attempt) returns (actions: seq<Action>)
    requires t < |mid.rounds| && mid.rounds[t].obj == k && mid.rounds[t].attempt == attempt && Stands(mid, k, at)
    ensures Leads(mid, actions, Jumped(mid, t)) && Stands(Jumped(mid, t), k, After(at, attempt))
    ensures Jumped(mid, t).rounds == mid.rounds
  {
    if Fails(attempt.outcome) {
      actions := [FastForward(t)];
      OneStep(mid, FastForward(t));
    } else {
      actions := [];
    }
  }

  /** The round of a try. */
  lemma {:induction false} RoundIsTried(s: Cluster, k: nat, at: Stand, turn: Turn, w': World, attempt: Attempt)
    returns (actions: seq<Action>, s': Cluster)
    requires Stands(s, k, at) && StandFits(at, turn) && RoundFair(s, k, at.w, turn.script)
    requires IsRound(at.obj, at.w, turn.script, w', attempt)
    ensures Leads(s, actions, s') && Stands(s', k, Stand(at.obj.(round := at.obj.round + 1), w'))
    ensures Makes(s, k, [attempt], s') && RoundLeads(s, k, at.w, turn.script, s')
    ensures |s.rounds| < |s'.rounds| && s'.rounds[|s.rounds|].obj == k && s'.rounds[|s.rounds|].attempt == attempt
  {
    var acts, mid, w1, rs, a1 := RoundIsRun(s, k, at.w, turn.script, w', attempt);
    actions, s' := acts, mid;
    RoundIsMade(s, k, a1, attempt, mid);
  }

  /** One tried round, and the jump if it failed. */
  lemma {:induction false} TryIsRun(s: Cluster, k: nat, at: Stand, turn: Turn, at': Stand, attempt: Attempt)
    returns (actions: seq<Action>, s': Cluster)
    requires Stands(s, k, at) && StandFits(at, turn) && RoundFair(s, k, at.w, turn.script)
    requires IsRound(at.obj, at.w, turn.script, at'.w, attempt)
    requires at' == After(Stand(at.obj.(round := at.obj.round + 1), at'.w), attempt)
    ensures Leads(s, actions, s') && Stands(s', k, at') && Makes(s, k, [attempt], s') && TurnLeads(s, k, at, turn, s')
  {
    var acts, mid := RoundIsTried(s, k, at, turn, at'.w, attempt);
    var tried := Stand(at.obj.(round := at.obj.round + 1), at'.w);
    var more := JumpIsRun(mid, |s.rounds|, k, tried, attempt);
    s' := Jumped(mid, |s.rounds|);
    LeadsThrough(s, acts, mid, more, s');
    actions := acts + more;
  }

  lemma {:induction false} FairNext(s: Cluster, k: nat, path: seq<Stand>, turns: seq<Turn>, i: nat)
    requires CampaignFair(s, k, path, turns, i) && i < |turns| && i < |path|
    requires Stands(s, k, path[i]) && StandFits(path[i], turns[i]) && !turns[i].script.gone
    ensures RoundFair(s, k, path[i].w, turns[i].script)
    ensures forall s' | TurnLeads(s, k, path[i], turns[i], s') :: CampaignFair(s', k, path, turns, i + 1)
  {
  }

  /** A failed turn of the campaign is a run. */
  lemma {:induction false} FailureIsRun(s: Cluster, k: nat, turns: seq<Turn>, path: seq<Stand>, failed: seq<Attempt>, i: nat)
    returns (actions: seq<Action>, s': Cluster)
    requires AllFailed(path, failed, turns) && i < |failed|
    requires Stands(s, k, path[i]) && CampaignFair(s, k, path, turns, i)
    ensures Leads(s, actions, s') && Stands(s', k, path[i + 1]) && Makes(s, k, [failed[i]], s')
    ensures CampaignFair(s', k, path, turns, i + 1)
  {
    assert FailedAt(path, failed, turns, i);
    FairNext(s, k, path, turns, i);
    actions, s' := TryIsRun(s, k, path[i], turns[i], path[i + 1], failed[i]);
  }

  lemma {:induction false} FailuresAreRun(s: Cluster, k: nat, turns: seq<Turn>, path: seq<Stand>, failed: seq<Attempt>, n: nat)
    returns (actions: seq<Action>, s': Cluster)
    requires AllFailed(path, failed, turns) && n <= |failed|
    requires Stands(s, k, path[0]) && CampaignFair(s, k, path, turns, 0)
    ensures Leads(s, actions, s') && Stands(s', k, path[n]) && Makes(s, k, failed[..n], s')
    ensures CampaignFair(s', k, path, turns, n)
  {
    if n == 0 {
      actions, s' := [], s;
    } else {
      var acts, mid := FailuresAreRun(s, k, turns, path, failed, n - 1);
      var more, last := FailureIsRun(mid, k, turns, path, failed, n - 1);
      LeadsThrough(s, acts, mid, more, last);
      assert failed[..n] == failed[..n - 1] + [failed[n - 1]];
      actions, s' := acts + more, last;
    }
  }

  /** The attempts a campaign makes: all but a last one that its caller forestalled. */
  function Tried(failed: seq<Attempt>, gone: bool, attempt: Attempt): seq<Attempt> {
    if gone then failed else failed + [attempt]
  }

  lemma {:induction false} LastIsRun(s: Cluster, k: nat, turns: seq<Turn>, path: seq<Stand>, n: nat, end: Stand, attempt: Attempt)
    returns (actions: seq<Action>, s': Cluster)
    requires n < |turns| && n < |path| && LastTurn(path[n], turns[n], n == |turns| - 1, end, attempt)
    requires !turns[n].script.gone && Stands(s, k, path[n]) && CampaignFair(s, k, path, turns, n)
    ensures Leads(s, actions, s') && Stands(s', k, end) && Makes(s, k, [attempt], s')
  {
    FairNext(s, k, path, turns, n);
    actions, s' := TryIsRun(s, k, path[n], turns[n], end, attempt);
  }

  /** Campaign refines the protocol: whatever others do meanwhile, it is a legal run of the cluster in which its proposer
      makes exactly the attempts it reports, in order. */
  lemma {:induction false} CampaignIsRun(s: Cluster, k: nat, turns: seq<Turn>, path: seq<Stand>, failed: seq<Attempt>, end: Stand, attempt: Attempt)
    returns (actions: seq<Action>, s': Cluster)
    requires IsCampaign(turns, path, failed, end, attempt)
    requires Stands(s, k, path[0]) && CampaignFair(s, k, path, turns, 0)
    ensures Leads(s, actions, s') && Stands(s', k, end)
    ensures Makes(s, k, Tried(failed, turns[|failed|].script.gone, attempt), s')
  {
    var n := |failed|;
    var acts, mid := FailuresAreRun(s, k, turns, path, failed, n);
    assert failed[..n] == failed;
    if turns[n].script.gone {
      actions, s' := acts, mid;
    } else {
      var more, last := LastIsRun(mid, k, turns, path, n, end, attempt);
      LeadsThrough(s, acts, mid, more, last);
      actions, s' := acts + more, last;
    }
  }

  /** Each attempt is that of a round of k, and a later attempt that of a later round. */
  lemma {:induction false} AttemptHasRound(rounds: seq<Round>, k: nat, i: nat) returns (t: nat)
    requires i < |AttemptsOf(rounds, k)|
    ensures t < |rounds| && rounds[t].obj == k && rounds[t].attempt == AttemptsOf(rounds, k)[i]
    ensures AttemptsOf(rounds[..t], k) == AttemptsOf(rounds, k)[..i]
  {
    var n := |rounds| - 1;
    if i < |AttemptsOf(rounds[..n], k)| {
      t := AttemptHasRound(rounds[..n], k, i);
      assert rounds[..n][..t] == rounds[..t];
    } else {
      t := n;
    }
  }

  lemma {:induction false} FewerRoundsFewerAttempts(rounds: seq<Round>, k: nat, t: nat)
    requires t <= |rounds|
    ensures |AttemptsOf(rounds[..t], k)| <= |AttemptsOf(rounds, k)|
    decreases |rounds|
  {
    if t < |rounds| {
      FewerRoundsFewerAttempts(rounds[..|rounds| - 1], k, t);
      assert rounds[..|rounds| - 1][..t] == rounds[..t];
    } else {
      assert rounds[..t] == rounds;
    }
  }

  lemma {:induction false} AttemptsInOrder(rounds: seq<Round>, k: nat, i: nat, j: nat) returns (t: nat, u: nat)
    requires i < j < |AttemptsOf(rounds, k)|
    ensures t < u < |rounds| && rounds[t].obj == k == rounds[u].obj
    ensures rounds[t].attempt == AttemptsOf(rounds, k)[i] && rounds[u].attempt == AttemptsOf(rounds, k)[j]
  {
    t := AttemptHasRound(rounds, k, i);
    u := AttemptHasRound(rounds, k, j);
    if u <= t {
      assert rounds[..t][..u] == rounds[..u];
      FewerRoundsFewerAttempts(rounds[..t], k, u);
    }
  }

  lemma {:induction false} MadeIsChosen(s: Cluster, k: nat, before: seq<Attempt>, attempt: Attempt)
    requires Reachable(s) && AttemptsOf(s.rounds, k) == before + [attempt] && attempt.outcome.Chosen?
    ensures ChosenAt(s.nodes.Keys, s.votes, attempt.ballot, attempt.value)
  {
    var t := AttemptHasRound(s.rounds, k, |before|);
    ReportedIsChosen(s, t);
  }

  /** What a campaign reports as chosen is chosen, in any cluster; behind a fence, where no ballot carries two values,
      nothing else is chosen in that run. */
  lemma {:induction false} CampaignReportIsChosen(s: Cluster, k: nat, turns: seq<Turn>, path: seq<Stand>, failed: seq<Attempt>, end: Stand, attempt: Attempt)
    returns (actions: seq<Action>, s': Cluster)
    requires IsCampaign(turns, path, failed, end, attempt) && attempt.outcome.Chosen?
    requires Reachable(s) && Stands(s, k, path[0]) && CampaignFair(s, k, path, turns, 0)
    ensures Leads(s, actions, s') && Stands(s', k, end)
    ensures ChosenAt(s'.nodes.Keys, s'.votes, attempt.ballot, attempt.value)
    ensures Fenced(s) && OneValueEach(s'.net) ==>
              forall b, v | ChosenAt(s'.nodes.Keys, s'.votes, b, v) :: v == attempt.value
  {
    var acts, last := CampaignIsRun(s, k, turns, path, failed, end, attempt);
    actions, s' := acts, last;
    ReachesOn(s, acts, last);
    assert AttemptsOf(s'.rounds, k) == (AttemptsOf(s.rounds, k) + failed) + [attempt];
    MadeIsChosen(s', k, AttemptsOf(s.rounds, k) + failed, attempt);
    NothingElseChosen(s, acts, s', attempt);
  }

  lemma {:induction false} NothingElseChosen(s: Cluster, actions: seq<Action>, s': Cluster, attempt: Attempt)
    requires Leads(s, actions, s') && Reachable(s')
    requires ChosenAt(s'.nodes.Keys, s'.votes, attempt.ballot, attempt.value)
    ensures Fenced(s) && OneValueEach(s'.net) ==>
              forall b, v | ChosenAt(s'.nodes.Keys, s'.votes, b, v) :: v == attempt.value
  {
    RunsGrow(s, actions, s');
    if Fenced(s) && OneValueEach(s'.net) {
      forall b, v | ChosenAt(s'.nodes.Keys, s'.votes, b, v) ensures v == attempt.value {
        Agreement(s', b, v, attempt.ballot, attempt.value);
      }
    }
  }

  /** A campaign never repeats a ballot: each attempt's is above all before it. */
  lemma {:induction false} CampaignBallotsIncrease(s: Cluster, k: nat, turns: seq<Turn>, path: seq<Stand>, failed: seq<Attempt>, end: Stand,
                                attempt: Attempt, tried: seq<Attempt>, i: nat, j: nat)
    requires IsCampaign(turns, path, failed, end, attempt)
    requires Reachable(s) && Stands(s, k, path[0]) && CampaignFair(s, k, path, turns, 0)
    requires tried == Tried(failed, turns[|failed|].script.gone, attempt) && i < j < |tried|
    ensures tried[i].ballot.Less(tried[j].ballot)
  {
    var actions, s' := CampaignIsRun(s, k, turns, path, failed, end, attempt);
    ReachesOn(s, actions, s');
    MadeBallotsIncrease(s', k, AttemptsOf(s.rounds, k), tried, i, j);
  }

  lemma {:induction false} MadeBallotsIncrease(s: Cluster, k: nat, before: seq<Attempt>, tried: seq<Attempt>, i: nat, j: nat)
    requires Reachable(s) && AttemptsOf(s.rounds, k) == before + tried && i < j < |tried|
    ensures tried[i].ballot.Less(tried[j].ballot)
  {
    var t, u := AttemptsInOrder(s.rounds, k, |before| + i, |before| + j);
    BallotsIncrease(s, t, u);
  }
}
