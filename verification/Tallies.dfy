/** The tallies of the two broadcasts (pkg/paxos/prepare.go:48-75, pkg/paxos/accept.go:42-54). A slot is None
    when the peer was not reached, failed, or its reply was lost. */
module Tallies {
  import opened Ballots
  import opened Wrappers
  import opened Acceptors
  import opened Quorums

  datatype PrepareTally = PrepareTally(promises: nat, value: Value, adopted: bool, highestSeen: Ballot)

  datatype AcceptTally = AcceptTally(accepts: nat, highestSeen: Ballot)

  type PrepareSlots = seq<Option<PrepareResponse>>
  type AcceptSlots = seq<Option<AcceptResponse>>

  ghost function Promisers(rs: PrepareSlots): set<nat> {
    set i | i in Slots(|rs|) && rs[i].Some? && rs[i].value.promised
  }

  ghost function Accepters(rs: AcceptSlots): set<nat> {
    set i | i in Slots(|rs|) && rs[i].Some? && rs[i].value.accepted
  }

  /** A slot whose promise carries an acceptance. */
  predicate Reports(r: Option<PrepareResponse>) {
    r.Some? && r.value.promised && r.value.hasAccepted && ZERO.Less(r.value.accepted)
  }

  /** Slot i reports the highest acceptance, and no earlier slot reports the same ballot. */
  ghost predicate FirstHighest(rs: PrepareSlots, i: nat) {
    && i < |rs| && Reports(rs[i])
    && (forall j | 0 <= j < |rs| && Reports(rs[j]) :: rs[i].value.accepted.AtLeast(rs[j].value.accepted))
    && (forall j | 0 <= j < i && Reports(rs[j]) :: rs[j].value.accepted.Less(rs[i].value.accepted))
  }

  /** h is the highest promise among the replies, rejections included, or zero. */
  ghost predicate HighestPromise(promises: seq<Option<Ballot>>, h: Ballot) {
    && h.AtLeast(ZERO)
    && (forall i | 0 <= i < |promises| && promises[i].Some? :: h.AtLeast(promises[i].value))
    && (h == ZERO || Some(h) in promises)
  }

  function PreparePromises(rs: PrepareSlots): (bs: seq<Option<Ballot>>)
    ensures |bs| == |rs|
  {
    seq(|rs|, i requires 0 <= i < |rs| => if rs[i].Some? then Some(rs[i].value.highestPromised) else None)
  }

  function AcceptPromises(rs: AcceptSlots): (bs: seq<Option<Ballot>>)
    ensures |bs| == |rs|
  {
    seq(|rs|, i requires 0 <= i < |rs| => if rs[i].Some? then Some(rs[i].value.highestPromised) else None)
  }

  /** What phase 1 must conclude from the replies, in no particular order of looking at them: the promise count,
      the highest promise, and the value of the highest acceptance, or the proposer's own if there is none. */
  ghost predicate IsPrepareTally(own: Value, rs: PrepareSlots, r: PrepareTally) {
    && r.promises == |Promisers(rs)|
    && HighestPromise(PreparePromises(rs), r.highestSeen)
    && (exists lead :: Adopts(own, rs, r.adopted, r.value, lead))
  }

  /** The value phase 2 must propose, and the ballot it was accepted at: those of the first highest report. */
  ghost predicate Adopts(own: Value, rs: PrepareSlots, adopted: bool, value: Value, lead: Ballot) {
    if adopted then exists i: nat :: FirstHighest(rs, i) && Some((lead, value)) == Reported(rs[i])
    else value == own && lead == ZERO && forall i | 0 <= i < |rs| :: !Reports(rs[i])
  }

  function Reported(r: Option<PrepareResponse>): Option<(Ballot, Value)> {
    if Reports(r) then Some((r.value.accepted, r.value.value)) else None
  }

  ghost predicate IsAcceptTally(rs: AcceptSlots, r: AcceptTally) {
    && r.accepts == |Accepters(rs)|
    && HighestPromise(AcceptPromises(rs), r.highestSeen)
  }

  lemma HighestPromiseExtends(bs: seq<Option<Ballot>>, h: Ballot, b: Option<Ballot>)
    requires HighestPromise(bs, h)
    ensures HighestPromise(bs + [b], if b.Some? then Max(h, b.value) else h)
  {
    assert forall x :: x in bs ==> x in bs + [b];
    assert (bs + [b])[|bs|] == b;
  }

  lemma AdoptsExtends(own: Value, rs: PrepareSlots, x: Option<PrepareResponse>, adopted: bool, value: Value, lead: Ballot)
    requires Adopts(own, rs, adopted, value, lead)
    ensures if Reports(x) && lead.Less(x.value.accepted)
            then Adopts(own, rs + [x], true, x.value.value, x.value.accepted)
            else Adopts(own, rs + [x], adopted, value, lead)
  {
    if Reports(x) && lead.Less(x.value.accepted) {
      assert FirstHighest(rs + [x], |rs|);
    } else if adopted {
      var i: nat :| FirstHighest(rs, i) && Some((lead, value)) == Reported(rs[i]);
      assert FirstHighest(rs + [x], i);
    }
  }

  lemma PrepareSlotAdded(rs: PrepareSlots, x: Option<PrepareResponse>)
    ensures Promisers(rs + [x]) == if x.Some? && x.value.promised then Promisers(rs) + {|rs|} else Promisers(rs)
    ensures PreparePromises(rs + [x])
         == PreparePromises(rs) + [if x.Some? then Some(x.value.highestPromised) else None]
  {
  }

  lemma AcceptSlotAdded(rs: AcceptSlots, x: Option<AcceptResponse>)
    ensures Accepters(rs + [x]) == if x.Some? && x.value.accepted then Accepters(rs) + {|rs|} else Accepters(rs)
    ensures AcceptPromises(rs + [x])
         == AcceptPromises(rs) + [if x.Some? then Some(x.value.highestPromised) else None]
  {
  }

  method TallyPrepares(own: Value, responses: array<Option<PrepareResponse>>) returns (result: PrepareTally)
    ensures IsPrepareTally(own, responses[..], result)
  {
    result := PrepareTally(0, own, false, ZERO);
    var highestAccepted := ZERO;
    var i := 0;
    while i < responses.Length
      invariant 0 <= i <= responses.Length
      invariant result.promises == |Promisers(responses[..i])|
      invariant HighestPromise(PreparePromises(responses[..i]), result.highestSeen)
      invariant Adopts(own, responses[..i], result.adopted, result.value, highestAccepted)
      invariant highestAccepted.AtLeast(ZERO)
    {
      ghost var before := responses[..i];
      var slot := responses[i];
      i := i + 1;
      assert responses[..i] == before + [slot];
      PrepareSlotAdded(before, slot);
      HighestPromiseExtends(PreparePromises(before), result.highestSeen,
                            if slot.Some? then Some(slot.value.highestPromised) else None);
      AdoptsExtends(own, before, slot, result.adopted, result.value, highestAccepted);
      if slot.None? {
        continue;
      }
      var resp := slot.value;
      result := result.(highestSeen := Max(result.highestSeen, resp.highestPromised));
      if !resp.promised {
        continue;
      }
      result := result.(promises := result.promises + 1);
      if resp.hasAccepted && highestAccepted.Less(resp.accepted) {
        highestAccepted := resp.accepted;
        result := result.(value := resp.value, adopted := true);
      }
    }
    assert responses[..i] == responses[..];
  }

  method TallyAccepts(responses: array<Option<AcceptResponse>>) returns (result: AcceptTally)
    ensures IsAcceptTally(responses[..], result)
  {
    result := AcceptTally(0, ZERO);
    var i := 0;
    while i < responses.Length
      invariant 0 <= i <= responses.Length
      invariant IsAcceptTally(responses[..i], result)
    {
      ghost var before, was := responses[..i], result;
      var slot := responses[i];
      i := i + 1;
      assert responses[..i] == before + [slot];
      AcceptSlotAdded(before, slot);
      HighestPromiseExtends(AcceptPromises(before), was.highestSeen,
                            if slot.Some? then Some(slot.value.highestPromised) else None);
      if slot.None? {
        continue;
      }
      result := result.(highestSeen := Max(result.highestSeen, slot.value.highestPromised));
      if slot.value.accepted {
        result := result.(accepts := result.accepts + 1);
      }
    }
    assert responses[..i] == responses[..];
  }

  /** The specification leaves one result, whether or not the replies are consistent. */
  lemma TallyIsExact(own: Value, rs: PrepareSlots, r: PrepareTally, r': PrepareTally)
    requires IsPrepareTally(own, rs, r) && IsPrepareTally(own, rs, r')
    ensures r == r'
  {
    if Some(r.highestSeen) in PreparePromises(rs) {
      var i :| 0 <= i < |rs| && PreparePromises(rs)[i] == Some(r.highestSeen);
    }
    if Some(r'.highestSeen) in PreparePromises(rs) {
      var i :| 0 <= i < |rs| && PreparePromises(rs)[i] == Some(r'.highestSeen);
    }
    if r.adopted && r'.adopted {
      var lead :| Adopts(own, rs, true, r.value, lead);
      var i: nat :| FirstHighest(rs, i) && Some((lead, r.value)) == Reported(rs[i]);
      var lead' :| Adopts(own, rs, true, r'.value, lead');
      var j: nat :| FirstHighest(rs, j) && Some((lead', r'.value)) == Reported(rs[j]);
      assert i == j;
    }
  }

  /** A tally of any replies exists. */
  lemma {:induction false} TallyExists(own: Value, rs: PrepareSlots) returns (tally: PrepareTally, lead: Ballot)
    ensures IsPrepareTally(own, rs, tally) && Adopts(own, rs, tally.adopted, tally.value, lead) && lead.AtLeast(ZERO)
    decreases |rs|
  {
    if rs == [] {
      tally, lead := PrepareTally(0, own, false, ZERO), ZERO;
      assert Promisers(rs) == {};
      assert Adopts(own, rs, false, own, ZERO);
    } else {
      var before, x := rs[..|rs| - 1], rs[|rs| - 1];
      assert rs == before + [x];
      var t, l := TallyExists(own, before);
      PrepareSlotAdded(before, x);
      HighestPromiseExtends(PreparePromises(before), t.highestSeen, if x.Some? then Some(x.value.highestPromised) else None);
      AdoptsExtends(own, before, x, t.adopted, t.value, l);
      var highest := if x.Some? then Max(t.highestSeen, x.value.highestPromised) else t.highestSeen;
      var promises := t.promises + (if x.Some? && x.value.promised then 1 else 0);
      if Reports(x) && l.Less(x.value.accepted) {
        tally, lead := PrepareTally(promises, x.value.value, true, highest), x.value.accepted;
      } else {
        tally, lead := PrepareTally(promises, t.value, t.adopted, highest), l;
      }
      assert Adopts(own, rs, tally.adopted, tally.value, lead);
    }
  }

  lemma {:induction false} AcceptTallyExists(rs: AcceptSlots) returns (tally: AcceptTally)
    ensures IsAcceptTally(rs, tally)
    decreases |rs|
  {
    if rs == [] {
      tally := AcceptTally(0, ZERO);
      assert Accepters(rs) == {};
    } else {
      var before, x := rs[..|rs| - 1], rs[|rs| - 1];
      assert rs == before + [x];
      var t := AcceptTallyExists(before);
      AcceptSlotAdded(before, x);
      HighestPromiseExtends(AcceptPromises(before), t.highestSeen, if x.Some? then Some(x.value.highestPromised) else None);
      tally := AcceptTally(t.accepts + (if x.Some? && x.value.accepted then 1 else 0),
                           if x.Some? then Max(t.highestSeen, x.value.highestPromised) else t.highestSeen);
    }
  }

  /** Replies that report the same ballot report the same value. */
  ghost predicate Consistent(rs: PrepareSlots) {
    forall i, j | 0 <= i < |rs| && 0 <= j < |rs| && Reports(rs[i]) && Reports(rs[j])
               && rs[i].value.accepted == rs[j].value.accepted :: rs[i].value.value == rs[j].value.value
  }

  /** Slot i reports the highest acceptance; other slots may report it too. */
  ghost predicate Highest(rs: PrepareSlots, i: nat) {
    && i < |rs| && Reports(rs[i])
    && (forall j | 0 <= j < |rs| && Reports(rs[j]) :: rs[i].value.accepted.AtLeast(rs[j].value.accepted))
  }

  /** The reports of the highest acceptance carry one value. */
  ghost predicate TopAgrees(rs: PrepareSlots) {
    forall i: nat, j: nat | Highest(rs, i) && Highest(rs, j) :: rs[i].value.value == rs[j].value.value
  }

  lemma ConsistentTopAgrees(rs: PrepareSlots)
    requires Consistent(rs)
    ensures TopAgrees(rs)
  {
  }

  /** rs' is rs with its slots rearranged: slot i of rs' is slot order[i] of rs. */
  ghost predicate Rearranged(rs: PrepareSlots, rs': PrepareSlots, order: seq<int>) {
    && |rs'| == |rs| == |order|
    && Enumerates(order, Slots(|rs|))
    && (forall i | 0 <= i < |order| :: order[i] in Slots(|rs|) && rs'[i] == rs[order[i]])
  }

  lemma RearrangedBack(rs: PrepareSlots, rs': PrepareSlots, order: seq<int>, k: nat) returns (i: nat)
    requires Rearranged(rs, rs', order) && k < |rs|
    ensures i < |rs'| && rs'[i] == rs[k] && order[i] == k
  {
    assert k in Slots(|rs|);
    assert k in order;
    i :| i < |order| && order[i] == k;
  }

  /** Replies that agree at the top give one result, in whatever order the peers are listed. */
  lemma TallyIgnoresOrder(own: Value, rs: PrepareSlots, rs': PrepareSlots, order: seq<int>, r: PrepareTally, r': PrepareTally)
    requires Rearranged(rs, rs', order) && TopAgrees(rs)
    requires IsPrepareTally(own, rs, r) && IsPrepareTally(own, rs', r')
    ensures r' == r
  {
    RearrangedCount(rs, rs', order);
    RearrangedHighest(rs, rs', order, r.highestSeen, r'.highestSeen);
    var lead :| Adopts(own, rs, r.adopted, r.value, lead);
    var lead' :| Adopts(own, rs', r'.adopted, r'.value, lead');
    RearrangedAdopts(own, rs, rs', order, r.adopted, r.value, lead, r'.adopted, r'.value, lead');
  }

  lemma RearrangedAdopts(own: Value, rs: PrepareSlots, rs': PrepareSlots, order: seq<int>,
                         adopted: bool, value: Value, lead: Ballot, adopted': bool, value': Value, lead': Ballot)
    requires Rearranged(rs, rs', order) && TopAgrees(rs)
    requires Adopts(own, rs, adopted, value, lead) && Adopts(own, rs', adopted', value', lead')
    ensures adopted' == adopted && value' == value && lead' == lead
  {
    if adopted {
      var k: nat :| FirstHighest(rs, k) && Some((lead, value)) == Reported(rs[k]);
      var i := RearrangedBack(rs, rs', order, k);
      assert Reports(rs'[i]) && adopted';
      var j: nat :| FirstHighest(rs', j) && Some((lead', value')) == Reported(rs'[j]);
      assert Reports(rs[order[j]]);
      assert Highest(rs, order[j]) by {
        forall m: nat | m < |rs| && Reports(rs[m]) ensures rs[order[j]].value.accepted.AtLeast(rs[m].value.accepted) {
          var n := RearrangedBack(rs, rs', order, m);
        }
      }
      assert Highest(rs, k);
    }
  }

  /** Every order of the slots gives the tally that rs gives. */
  ghost predicate OrderFree(own: Value, rs: PrepareSlots) {
    forall rs', order, r, r' | Rearranged(rs, rs', order) && IsPrepareTally(own, rs, r) && IsPrepareTally(own, rs', r') :: r == r'
  }

  /** The slots in order, but for k and m, which change places. */
  function Exchange(n: nat, k: nat, m: nat): (order: seq<int>)
    ensures |order| == n
  {
    seq(n, i => if i == k then m else if i == m then k else i)
  }

  function Exchanged(rs: PrepareSlots, k: nat, m: nat): (rs': PrepareSlots)
    requires k < |rs| && m < |rs|
    ensures |rs'| == |rs|
  {
    rs[k := rs[m]][m := rs[k]]
  }

  lemma {:induction false} ExchangeEnumerates(n: nat, k: nat, m: nat)
    requires k < n && m < n
    ensures Enumerates(Exchange(n, k, m), Slots(n))
  {
    var order := Exchange(n, k, m);
    forall a: int ensures a in order <==> a in Slots(n) {
      if a in Slots(n) {
        var slot: nat := a;
        assert order[if slot == k then m else if slot == m then k else slot] == a;
      }
    }
  }

  lemma ExchangeRearranges(rs: PrepareSlots, k: nat, m: nat)
    requires k < m < |rs|
    ensures Rearranged(rs, Exchanged(rs, k, m), Exchange(|rs|, k, m))
  {
    ExchangeEnumerates(|rs|, k, m);
    var order := Exchange(|rs|, k, m);
    forall i | 0 <= i < |order| ensures order[i] in Slots(|rs|) && Exchanged(rs, k, m)[i] == rs[order[i]] {
      var slot: nat := order[i];
    }
  }

  /** A tally takes the value of the first slot that reports the highest acceptance. */
  lemma TakesFirst(own: Value, rs: PrepareSlots, r: PrepareTally, k: nat)
    requires IsPrepareTally(own, rs, r) && FirstHighest(rs, k)
    ensures r.value == rs[k].value.value
  {
    var lead :| Adopts(own, rs, r.adopted, r.value, lead);
    if r.adopted {
      var i: nat :| FirstHighest(rs, i) && Some((lead, r.value)) == Reported(rs[i]);
      assert i == k;
    }
  }

  lemma ExchangedFirst(rs: PrepareSlots, k: nat, m: nat)
    requires FirstHighest(rs, k) && Highest(rs, m) && k < m
    ensures FirstHighest(Exchanged(rs, k, m), k) && Exchanged(rs, k, m)[k] == rs[m]
  {
    var rs' := Exchanged(rs, k, m);
    forall j | 0 <= j < |rs'| && Reports(rs'[j]) ensures rs'[k].value.accepted.AtLeast(rs'[j].value.accepted) {
      assert rs'[j] == rs[if j == k then m else if j == m then k else j];
    }
  }

  /** If the top disagrees, putting another top report first changes the tally. */
  lemma ExchangeChangesTally(own: Value, rs: PrepareSlots, k: nat, m: nat)
    requires FirstHighest(rs, k) && Highest(rs, m) && rs[m].value.value != rs[k].value.value
    ensures !OrderFree(own, rs)
  {
    assert k < m;
    var rs' := Exchanged(rs, k, m);
    ExchangeRearranges(rs, k, m);
    var r, l := TallyExists(own, rs);
    var r', l' := TallyExists(own, rs');
    ExchangedFirst(rs, k, m);
    TakesFirst(own, rs, r, k);
    TakesFirst(own, rs', r', k);
  }

  lemma SomeFirst(own: Value, rs: PrepareSlots, i: nat) returns (k: nat)
    requires Highest(rs, i)
    ensures FirstHighest(rs, k)
  {
    var r, l := TallyExists(own, rs);
    k :| FirstHighest(rs, k) && Some((l, r.value)) == Reported(rs[k]);
  }

  /** The tally does not depend on the order of the peers if and only if the reports of the highest acceptance carry one
      value. */
  lemma OrderFreeExactly(own: Value, rs: PrepareSlots)
    ensures OrderFree(own, rs) <==> TopAgrees(rs)
  {
    if TopAgrees(rs) {
      forall rs', order, r, r' | Rearranged(rs, rs', order) && IsPrepareTally(own, rs, r) && IsPrepareTally(own, rs', r')
        ensures r == r'
      {
        TallyIgnoresOrder(own, rs, rs', order, r, r');
      }
    } else {
      var i: nat, j: nat :| Highest(rs, i) && Highest(rs, j) && rs[i].value.value != rs[j].value.value;
      var k := SomeFirst(own, rs, i);
      ExchangeChangesTally(own, rs, k, if rs[i].value.value != rs[k].value.value then i else j);
    }
  }

  lemma RearrangedCount(rs: PrepareSlots, rs': PrepareSlots, order: seq<int>)
    requires Rearranged(rs, rs', order)
    ensures |Promisers(rs')| == |Promisers(rs)|
  {
    var slots := Promisers(rs');
    SlotsAreAcceptors(order, Slots(|rs|), slots);
    assert At(order, slots) == Promisers(rs) by {
      forall k | k in Promisers(rs) ensures k in At(order, slots) {
        var i := RearrangedBack(rs, rs', order, k);
        assert i in slots;
      }
    }
  }

  lemma RearrangedHighest(rs: PrepareSlots, rs': PrepareSlots, order: seq<int>, h: Ballot, h': Ballot)
    requires Rearranged(rs, rs', order)
    requires HighestPromise(PreparePromises(rs), h) && HighestPromise(PreparePromises(rs'), h')
    ensures h == h'
  {
    var bs, bs' := PreparePromises(rs), PreparePromises(rs');
    assert h'.AtLeast(h) by {
      if h != ZERO {
        var k: nat :| k < |bs| && bs[k] == Some(h);
        var i := RearrangedBack(rs, rs', order, k);
        assert bs'[i] == Some(h);
      }
    }
    assert h.AtLeast(h') by {
      if h' != ZERO {
        var i: nat :| i < |bs'| && bs'[i] == Some(h');
        assert bs[order[i]] == Some(h');
      }
    }
  }
}
