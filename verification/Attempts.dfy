/** The record of one round and how the tallies of its two phases fill it (pkg/paxos/attempt.go,
    pkg/paxos/outcome.go, pkg/paxos/proposer.go:85-147). */
module Attempts {
  import opened Ballots
  import opened Acceptors
  import opened Tallies

  datatype Outcome = Unknown | Chosen | PrepareFailed | AcceptFailed | Aborted

  datatype Attempt = Attempt(
    ballot: Ballot, value: Value, outcome: Outcome, promises: nat, accepts: nat, quorum: nat,
    adopted: bool, highestSeen: Ballot)

  function Opened(b: Ballot, quorum: nat): Attempt {
    Attempt(b, 0, Unknown, 0, 0, quorum, false, ZERO)
  }

  /** The attempt after phase 1. It goes on to phase 2 exactly when its outcome is still unknown. */
  function AfterPrepare(attempt: Attempt, tally: PrepareTally, abandoned: bool): Attempt {
    attempt.(promises := tally.promises, value := tally.value, adopted := tally.adopted,
             highestSeen := tally.highestSeen,
             outcome := if abandoned then Aborted
                        else if tally.promises < attempt.quorum then PrepareFailed
                        else Unknown)
  }

  /** The attempt after phase 2. A quorum of accepts wins even if the caller has gone. */
  function AfterAccept(attempt: Attempt, tally: AcceptTally, abandoned: bool): Attempt {
    attempt.(accepts := tally.accepts, highestSeen := Max(attempt.highestSeen, tally.highestSeen),
             outcome := if tally.accepts >= attempt.quorum then Chosen
                        else if abandoned then Aborted
                        else AcceptFailed)
  }
}
