/** The test harness's record of acceptances and the agreement check over it (pkg/paxostest/harness.go:21-78,
    283-308). */
module Ledgers {
  import opened Ballots
  import opened Wrappers
  import opened Acceptors
  import opened Quorums

  datatype Choice = Choice(ballot: Ballot, value: Value, acceptors: seq<int>)

  /** The distinct acceptors recorded at a ballot. */
  function Backers(records: seq<Vote>, b: Ballot): set<int> {
    set r | r in records && r.ballot == b :: r.acceptor
  }

  /** The value acceptor a recorded last at ballot b. */
  function Latest(records: seq<Vote>, b: Ballot, a: int): Option<Value> {
    if records == [] then None
    else
      var last := records[|records| - 1];
      if last.ballot == b && last.acceptor == a then Some(last.value) else Latest(records[..|records| - 1], b, a)
  }

  lemma {:induction false} LatestIsRecorded(records: seq<Vote>, b: Ballot, a: int)
    ensures Latest(records, b, a).Some? <==> a in Backers(records, b)
    ensures Latest(records, b, a).Some? ==> Vote(a, b, Latest(records, b, a).value) in records
  {
    if records != [] {
      var before := records[..|records| - 1];
      LatestIsRecorded(before, b, a);
      assert records == before + [records[|records| - 1]];
      BackersGrow(before, records[|records| - 1]);
    }
  }

  /** Record i is the last one of acceptor a at ballot b. */
  predicate IsLast(records: seq<Vote>, b: Ballot, a: int, i: nat) {
    && i < |records| && records[i].ballot == b && records[i].acceptor == a
    && forall j | i < j < |records| :: records[j].ballot != b || records[j].acceptor != a
  }

  lemma {:induction false} LatestIsLast(records: seq<Vote>, b: Ballot, a: int, v: Value)
    ensures Latest(records, b, a) == Some(v) <==> exists i: nat :: IsLast(records, b, a, i) && records[i].value == v
  {
    if records != [] {
      var n := |records| - 1;
      var before := records[..n];
      if records[n].ballot == b && records[n].acceptor == a {
        assert IsLast(records, b, a, n);
      } else {
        LatestIsLast(before, b, a, v);
        forall i: nat | i < n ensures IsLast(records, b, a, i) <==> IsLast(before, b, a, i) {
        }
        if i: nat :| IsLast(before, b, a, i) && before[i].value == v {
          assert IsLast(records, b, a, i);
        }
        if i: nat :| IsLast(records, b, a, i) && records[i].value == v {
          assert IsLast(before, b, a, i);
        }
      }
    }
  }

  /** A ballot counts as chosen when somebody recorded it and enough distinct acceptors did. */
  predicate HasQuorum(records: seq<Vote>, quorum: int, b: Ballot) {
    Backers(records, b) != {} && |Backers(records, b)| >= quorum
  }

  ghost predicate IncreasingInts(s: seq<int>) {
    forall i, j | 0 <= i < j < |s| :: s[i] < s[j]
  }

  ghost predicate IncreasingBallots(cs: seq<Choice>) {
    forall i, j | 0 <= i < j < |cs| :: cs[i].ballot.Less(cs[j].ballot)
  }

  /** A listed choice names exactly the acceptors of its ballot, in order, and the value one of them recorded last. */
  ghost predicate ChoiceOk(records: seq<Vote>, quorum: int, c: Choice) {
    && HasQuorum(records, quorum, c.ballot)
    && IncreasingInts(c.acceptors) && (forall a :: a in c.acceptors <==> a in Backers(records, c.ballot))
    && (exists a :: Latest(records, c.ballot, a) == Some(c.value))
  }

  ghost predicate Lists(cs: seq<Choice>, b: Ballot) {
    exists c :: c in cs && c.ballot == b
  }

  /** What Chosen promises: one sound entry for each ballot with a quorum, and no other, by increasing ballot. */
  ghost predicate IsChosen(records: seq<Vote>, quorum: int, cs: seq<Choice>) {
    && IncreasingBallots(cs)
    && (forall c | c in cs :: ChoiceOk(records, quorum, c))
    && (forall b | HasQuorum(records, quorum, b) :: Lists(cs, b))
  }

  /** Each ballot was recorded with one value. */
  ghost predicate SingleValued(records: seq<Vote>) {
    forall r, r' | r in records && r' in records && r.ballot == r'.ballot :: r.value == r'.value
  }

  /** No two ballots with a quorum differ in value. */
  ghost predicate Agrees(records: seq<Vote>, quorum: int) {
    forall r, r' | r in records && r' in records
                && HasQuorum(records, quorum, r.ballot) && HasQuorum(records, quorum, r'.ballot) :: r.value == r'.value
  }

  // ---- sorting, as sort.Ints and sort.Slice do it ----

  function InsertInt(x: int, s: seq<int>): (r: seq<int>)
    requires IncreasingInts(s) && x !in s
    ensures IncreasingInts(r) && forall y :: y in r <==> y == x || y in s
  {
    if s == [] then [x]
    else if x < s[0] then [x] + s
    else
      var rest := InsertInt(x, s[1..]);
      assert s[0] != x && forall y :: y in s <==> y == s[0] || y in s[1..];
      assert forall j | 0 <= j < |rest| :: rest[j] in rest;
      assert forall y | y in s[1..] :: s[0] < y;
      assert forall j | 0 <= j < |rest| :: s[0] < rest[j];
      [s[0]] + rest
  }

  function InsertChoice(c: Choice, cs: seq<Choice>): (r: seq<Choice>)
    requires IncreasingBallots(cs) && forall d | d in cs :: d.ballot != c.ballot
    ensures IncreasingBallots(r) && forall d :: d in r <==> d == c || d in cs
  {
    if cs == [] || c.ballot.Less(cs[0].ballot) then [c] + cs
    else
      var rest := InsertChoice(c, cs[1..]);
      assert forall d | d in rest :: cs[0].ballot.Less(d.ballot);
      [cs[0]] + rest
  }

  class Ledger {
    var records: seq<Vote>

    constructor ()
      ensures records == []
    {
      records := [];
    }

    method Record(vote: Vote)
      modifies this
      ensures records == old(records) + [vote]
    {
      records := records + [vote];
    }

    method Acceptances() returns (copy: seq<Vote>)
      ensures copy == records
    {
      copy := records;
    }

    method ByProposal() returns (table: map<Ballot, map<int, Value>>)
      ensures IsTable(records, table)
    {
      table := map[];
      var all := Acceptances();
      var i := 0;
      while i < |all|
        invariant 0 <= i <= |all|
        invariant IsTable(all[..i], table)
      {
        var r := all[i];
        assert all[..i + 1] == all[..i] + [r];
        TableGrows(all[..i], table, r);
        var row: map<int, Value> := if r.ballot in table then table[r.ballot] else map[];
        table := table[r.ballot := row[r.acceptor := r.value]];
        i := i + 1;
      }
      assert all[..i] == all;
    }

    /** Go visits the keys of a map in any order, and so do the two loops here. */
    method Chosen(quorum: int) returns (chosen: seq<Choice>)
      ensures IsChosen(records, quorum, chosen)
    {
      var table := ByProposal();
      chosen := [];
      var todo := table.Keys;
      while todo != {}
        invariant todo <= table.Keys && ChosenOutside(records, quorum, chosen, todo)
        decreases todo
      {
        var b :| b in todo;
        todo := todo - {b};
        chosen := Consider(b, table[b], quorum, chosen, todo);
      }
    }

    /** Ballot b joins the choices if enough acceptors back it. */
    method Consider(b: Ballot, row: map<int, Value>, quorum: int, before: seq<Choice>, ghost todo: set<Ballot>)
      returns (chosen: seq<Choice>)
      requires IsRow(records, b, row) && row != map[] && b !in todo
      requires ChosenOutside(records, quorum, before, todo + {b})
      ensures ChosenOutside(records, quorum, chosen, todo)
    {
      assert |row| == |row.Keys|;
      if |row| < quorum {
        return before;
      }
      var ids, value := Collect(row);
      ChoiceAdded(records, quorum, before, todo, Choice(b, value, ids), row);
      chosen := InsertChoice(Choice(b, value, ids), before);
    }

    method Collect(acceptors: map<int, Value>) returns (ids: seq<int>, value: Value)
      requires acceptors != map[]
      ensures IncreasingInts(ids) && ids != [] && forall a :: a in ids <==> a in acceptors
      ensures exists a :: a in acceptors && acceptors[a] == value
    {
      ids, value := [], 0;
      var todo := acceptors.Keys;
      while todo != {}
        invariant todo <= acceptors.Keys && IncreasingInts(ids)
        invariant forall a :: a in ids <==> a in acceptors && a !in todo
        invariant ids != [] ==> exists a :: a in acceptors && acceptors[a] == value
        decreases todo
      {
        Inhabited(todo);
        var a :| a in todo;
        todo := todo - {a};
        ids := InsertInt(a, ids);
        value := acceptors[a];
      }
      Inhabited(acceptors.Keys);
    }

    /** The harness's safety check. It passes when every listed choice has the value of the first. */
    method AssertAgreement(quorum: int) returns (ok: bool)
      ensures exists chosen :: IsChosen(records, quorum, chosen) && (ok <==> OneValue(chosen))
      ensures SingleValued(records) ==> (ok <==> Agrees(records, quorum))
    {
      var chosen := Chosen(quorum);
      ok := true;
      var i := 0;
      while i < |chosen|
        invariant 0 <= i <= |chosen|
        invariant ok <==> forall j | 0 <= j < i :: chosen[j].value == chosen[0].value
      {
        if chosen[i].value != chosen[0].value {
          ok := false;
        }
        i := i + 1;
      }
      assert IsChosen(records, quorum, chosen) && (ok <==> OneValue(chosen));
      if SingleValued(records) {
        ListedValues(records, quorum, chosen);
      }
    }
  }

  /** The nested map Chosen builds: for each recorded ballot, the last value of each acceptor. */
  ghost predicate IsTable(records: seq<Vote>, table: map<Ballot, map<int, Value>>) {
    && (forall b :: b in table <==> Backers(records, b) != {})
    && (forall b | b in table :: IsRow(records, b, table[b]))
  }

  ghost predicate IsRow(records: seq<Vote>, b: Ballot, row: map<int, Value>) {
    && row.Keys == Backers(records, b)
    && forall a | a in row :: Latest(records, b, a) == Some(row[a])
  }

  /** The choices list the ballots with a quorum that are not still to be visited. */
  ghost predicate ChosenOutside(records: seq<Vote>, quorum: int, cs: seq<Choice>, todo: set<Ballot>) {
    && IncreasingBallots(cs)
    && (forall c | c in cs :: ChoiceOk(records, quorum, c) && c.ballot !in todo)
    && (forall b | HasQuorum(records, quorum, b) && b !in todo :: Lists(cs, b))
  }

  lemma {:induction false} ChoiceAdded(records: seq<Vote>, quorum: int, cs: seq<Choice>, todo: set<Ballot>, c: Choice, row: map<int, Value>)
    requires ChosenOutside(records, quorum, cs, todo + {c.ballot}) && c.ballot !in todo
    requires IsRow(records, c.ballot, row) && row != map[] && |row| >= quorum
    requires IncreasingInts(c.acceptors) && forall a :: a in c.acceptors <==> a in row
    requires exists a :: a in row && row[a] == c.value
    ensures forall d | d in cs :: d.ballot != c.ballot
    ensures ChosenOutside(records, quorum, InsertChoice(c, cs), todo)
  {
    var cs' := InsertChoice(c, cs);
    assert |row| == |row.Keys|;
    forall b | HasQuorum(records, quorum, b) && b !in todo ensures Lists(cs', b) {
      if b == c.ballot {
        assert c in cs';
      } else {
        var d :| d in cs && d.ballot == b;
        assert d in cs';
      }
    }
  }

  lemma TableGrows(records: seq<Vote>, table: map<Ballot, map<int, Value>>, r: Vote)
    requires IsTable(records, table)
    ensures var row: map<int, Value> := if r.ballot in table then table[r.ballot] else map[];
            IsTable(records + [r], table[r.ballot := row[r.acceptor := r.value]])
  {
    BackersGrow(records, r);
    var row: map<int, Value> := if r.ballot in table then table[r.ballot] else map[];
    assert IsRow(records, r.ballot, row);
    RowGrows(records, r.ballot, row, r);
    var table' := table[r.ballot := row[r.acceptor := r.value]];
    assert r.acceptor in Backers(records, r.ballot) + {r.acceptor};
    forall b ensures b in table' <==> Backers(records + [r], b) != {} {
      assert Backers(records + [r], b) == Backers(records, b) + (if b == r.ballot then {r.acceptor} else {});
    }
    forall b | b in table' ensures IsRow(records + [r], b, table'[b]) {
      if b != r.ballot { RowStays(records, b, table[b], r); }
    }
  }

  lemma RowGrows(records: seq<Vote>, b: Ballot, row: map<int, Value>, r: Vote)
    requires IsRow(records, b, row) && r.ballot == b
    ensures IsRow(records + [r], b, row[r.acceptor := r.value])
  {
    BackersGrow(records, r);
    assert (records + [r])[..|records|] == records;
  }

  lemma RowStays(records: seq<Vote>, b: Ballot, row: map<int, Value>, r: Vote)
    requires IsRow(records, b, row) && r.ballot != b
    ensures IsRow(records + [r], b, row)
  {
    BackersGrow(records, r);
    assert (records + [r])[..|records|] == records;
  }

  lemma BackersGrow(records: seq<Vote>, r: Vote)
    ensures forall b :: Backers(records + [r], b) == Backers(records, b) + (if b == r.ballot then {r.acceptor} else {})
  {
    forall b
      ensures Backers(records + [r], b) == Backers(records, b) + (if b == r.ballot then {r.acceptor} else {})
    {
      assert forall x :: x in records + [r] <==> x in records || x == r;
    }
  }

  /** A listed value is one that was recorded at its ballot, and every ballot with a quorum is listed with one. */
  lemma ListedIsRecorded(records: seq<Vote>, quorum: int, c: Choice) returns (r: Vote)
    requires ChoiceOk(records, quorum, c)
    ensures r in records && r.ballot == c.ballot && r.value == c.value
  {
    var a :| Latest(records, c.ballot, a) == Some(c.value);
    LatestIsRecorded(records, c.ballot, a);
    r := Vote(a, c.ballot, c.value);
  }

  ghost predicate OneValue(cs: seq<Choice>) {
    forall c, d | c in cs && d in cs :: c.value == d.value
  }

  /** With one value per ballot, the records agree exactly when the listed choices do. */
  lemma ListedValues(records: seq<Vote>, quorum: int, cs: seq<Choice>)
    requires IsChosen(records, quorum, cs) && SingleValued(records)
    ensures Agrees(records, quorum) <==> OneValue(cs)
  {
    if OneValue(cs) {
      forall r, r' | r in records && r' in records && HasQuorum(records, quorum, r.ballot) && HasQuorum(records, quorum, r'.ballot)
        ensures r.value == r'.value
      {
        var c :| c in cs && c.ballot == r.ballot;
        var d :| d in cs && d.ballot == r'.ballot;
        var x := ListedIsRecorded(records, quorum, c);
        var y := ListedIsRecorded(records, quorum, d);
      }
    }
    if Agrees(records, quorum) {
      forall c, d | c in cs && d in cs ensures c.value == d.value {
        var x := ListedIsRecorded(records, quorum, c);
        var y := ListedIsRecorded(records, quorum, d);
      }
    }
  }

  /** With one value per ballot, Chosen has one possible result, whatever order the maps are visited in. */
  lemma ChosenIsUnique(records: seq<Vote>, quorum: int, cs: seq<Choice>, ds: seq<Choice>)
    requires SingleValued(records) && IsChosen(records, quorum, cs) && IsChosen(records, quorum, ds)
    ensures cs == ds
  {
    forall c | c in cs ensures c in ds {
      ListedInBoth(records, quorum, cs, ds, c);
    }
    forall d | d in ds ensures d in cs {
      ListedInBoth(records, quorum, ds, cs, d);
    }
    SameChoices(cs, ds);
  }

  lemma ListedInBoth(records: seq<Vote>, quorum: int, cs: seq<Choice>, ds: seq<Choice>, c: Choice)
    requires SingleValued(records) && IsChosen(records, quorum, cs) && IsChosen(records, quorum, ds) && c in cs
    ensures c in ds
  {
    assert Lists(ds, c.ballot);
    var d :| d in ds && d.ballot == c.ballot;
    var x := ListedIsRecorded(records, quorum, c);
    var y := ListedIsRecorded(records, quorum, d);
    SameInts(c.acceptors, d.acceptors);
  }

  lemma {:induction false} SameChoices(cs: seq<Choice>, ds: seq<Choice>)
    requires IncreasingBallots(cs) && IncreasingBallots(ds)
    requires forall c :: c in cs <==> c in ds
    ensures cs == ds
  {
    assert cs != [] ==> cs[0] in ds;
    assert ds != [] ==> ds[0] in cs;
    if cs != [] {
      assert cs[0] == ds[0];
      forall c ensures c in cs[1..] <==> c in ds[1..] {
        assert c in cs <==> c == cs[0] || c in cs[1..];
        assert c in ds <==> c == ds[0] || c in ds[1..];
      }
      SameChoices(cs[1..], ds[1..]);
    }
  }

  lemma {:induction false} SameInts(s: seq<int>, r: seq<int>)
    requires IncreasingInts(s) && IncreasingInts(r)
    requires forall x :: x in s <==> x in r
    ensures s == r
  {
    assert s != [] ==> s[0] in s && s[0] in r;
    assert r != [] ==> r[0] in r && r[0] in s;
    if s != [] {
      assert s[0] == r[0];
      forall x ensures x in s[1..] <==> x in r[1..] {
        assert x in s <==> x == s[0] || x in s[1..];
        assert x in r <==> x == r[0] || x in r[1..];
      }
      SameInts(s[1..], r[1..]);
    }
  }
}
