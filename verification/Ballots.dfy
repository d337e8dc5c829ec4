/** Proposal numbers, also called ballots, and their lexicographic order (pkg/paxos/proposal.go). */
module Ballots {

  datatype Ballot = Ballot(round: int, node: int) {
    predicate IsZero() {
      round == 0 && node == 0
    }

    function Compare(other: Ballot): (c: int)
      ensures c == 0 <==> this == other
      ensures c < 0 <==> round < other.round || (round == other.round && node < other.node)
    {
      if round < other.round then -1
      else if round > other.round then 1
      else if node < other.node then -1
      else if node > other.node then 1
      else 0
    }

    predicate Less(other: Ballot) {
      Compare(other) < 0
    }

    predicate AtLeast(other: Ballot) {
      Compare(other) >= 0
    }
  }

  const ZERO := Ballot(0, 0)

  function Max(a: Ballot, b: Ballot): (m: Ballot)
    ensures m.AtLeast(a) && m.AtLeast(b)
    ensures m == a || m == b
  {
    if a.Less(b) then b else a
  }
}
