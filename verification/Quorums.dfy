/** Majorities of a finite set of acceptors, and the enumeration of that set as a list of peer slots. */
module Quorums {

  /** The number of positive answers a phase needs among n peers (pkg/paxos/proposer.go:47). */
  function QuorumSize(n: nat): (r: nat)
    ensures 2 * r > n && 2 * (r - 1) <= n
  {
    n / 2 + 1
  }

  ghost predicate IsQuorum(all: set<int>, q: set<int>) {
    q <= all && |q| >= QuorumSize(|all|)
  }

  /** A list of peers with no repeated id that covers exactly the acceptors. */
  ghost predicate Enumerates(peers: seq<int>, all: set<int>) {
    && (forall i, j :: 0 <= i < j < |peers| ==> peers[i] != peers[j])
    && (forall a :: a in peers <==> a in all)
  }

  lemma QuorumsMeet(all: set<int>, p: set<int>, q: set<int>) returns (a: int)
    requires IsQuorum(all, p) && IsQuorum(all, q)
    ensures a in p && a in q
  {
    if forall x :: x in p ==> x !in q {
      assert |p + q| == |p| + |q|;
      SubsetSize(p + q, all);
      assert false;
    }
    a :| a in p && a in q;
  }

  lemma Inhabited(s: set<int>)
    requires s != {}
    ensures exists a :: a in s
  {
    if forall a :: a !in s {
      assert false;
    }
  }

  lemma SubsetSize<T>(p: set<T>, q: set<T>)
    requires p <= q
    ensures |p| <= |q|
  {
    assert q == p + (q - p);
  }

  /** The peers standing in a set of slots. */
  function At(peers: seq<int>, slots: set<nat>): set<int>
    requires forall i | i in slots :: i < |peers|
  {
    set i | i in slots :: peers[i]
  }

  /** With distinct peers, as many acceptors as slots. */
  lemma {:induction false} SlotsAreAcceptors(peers: seq<int>, all: set<int>, slots: set<nat>)
    requires Enumerates(peers, all)
    requires forall i | i in slots :: i < |peers|
    ensures |At(peers, slots)| == |slots| && At(peers, slots) <= all
  {
    if slots != {} {
      var i :| i in slots;
      var rest := slots - {i};
      SlotsAreAcceptors(peers, all, rest);
      assert peers[i] !in At(peers, rest);
      assert At(peers, slots) == At(peers, rest) + {peers[i]};
      assert |slots| == |rest| + 1;
    }
  }

  function Slots(n: nat): (slots: set<nat>)
    ensures forall i: nat :: i in slots <==> i < n
    ensures |slots| == n
  {
    if n == 0 then {} else Slots(n - 1) + {n - 1}
  }

  /** Counting peer slots and counting acceptors give the same quorum. */
  lemma EnumerationSize(peers: seq<int>, all: set<int>)
    requires Enumerates(peers, all)
    ensures |peers| == |all|
  {
    var slots := Slots(|peers|);
    SlotsAreAcceptors(peers, all, slots);
    assert At(peers, slots) == all by {
      forall a | a in all ensures a in At(peers, slots) {
        var i :| 0 <= i < |peers| && peers[i] == a;
        assert i in slots;
      }
    }
  }
}
