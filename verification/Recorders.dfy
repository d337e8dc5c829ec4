/** The event recorder of a node: a window over the last events of an unbounded log, kept in place
    (pkg/events/recorder.go). */
module Recorders {
  import opened Quorums

  /** An event: its sequence number, counted from one, and what it says. */
  datatype Entry = Entry(num: nat, text: string)

  const DEFAULT_LIMIT := 512

  function EntryAt(texts: seq<string>, n: nat): Entry
    requires n < |texts|
  {
    Entry(n + 1, texts[n])
  }

  /** The events a log of texts consists of. */
  function Logged(texts: seq<string>): (log: seq<Entry>)
    ensures |log| == |texts|
  {
    seq(|texts|, i requires 0 <= i < |texts| => EntryAt(texts, i))
  }

  function Larger(a: nat, b: nat): nat {
    if a > b then a else b
  }

  /** How many of n events a window over the last limit has lost. */
  function Evicted(n: nat, limit: nat): nat {
    if n > limit then n - limit else 0
  }

  /** The events numbered above num among the last limit of the log. */
  function Recent(log: seq<Entry>, limit: nat, num: nat): seq<Entry> {
    From(log, Larger(num, Evicted(|log|, limit)))
  }

  function From(log: seq<Entry>, start: nat): seq<Entry> {
    if start < |log| then log[start..] else []
  }

  // ---- subscribers ----

  const CAPACITY := 256

  /** A subscriber's channel after an event is offered to it: one that is full misses the event. */
  function Offered(channel: seq<Entry>, e: Entry): seq<Entry> {
    if |channel| < CAPACITY then channel + [e] else channel
  }

  /** What a channel opened when the log had k events holds, with nothing read from it: the events published since then, the
      first ones as many as there is room for. */
  ghost predicate Holds(channel: seq<Entry>, k: nat, log: seq<Entry>) {
    k <= |log| && channel == log[k..k + Lesser(CAPACITY, |log| - k)]
  }

  function Lesser(a: nat, b: nat): nat {
    if a < b then a else b
  }

  /** Every open channel has a number that has been given out, and holds what it should. */
  ghost predicate AllHold(subs: map<int, seq<Entry>>, starts: map<int, nat>, given: nat, log: seq<Entry>) {
    forall id :: HoldsAt(subs, starts, given, log, id)
  }

  ghost predicate HoldsAt(subs: map<int, seq<Entry>>, starts: map<int, nat>, given: nat, log: seq<Entry>, id: int) {
    && (id in starts <==> id in subs)
    && (id in subs ==> id < given && Holds(subs[id], starts[id], log))
  }

  lemma NewChannelHolds(subs: map<int, seq<Entry>>, starts: map<int, nat>, log: seq<Entry>, id: nat)
    requires AllHold(subs, starts, id, log)
    ensures AllHold(subs[id := []], starts[id := |log|], id + 1, log) && id !in subs
  {
    var subs', starts', given := subs[id := []], starts[id := |log|], id + 1;
    forall i ensures HoldsAt(subs', starts', given, log, i) {
      assert HoldsAt(subs, starts, id, log, i);
    }
    assert HoldsAt(subs, starts, id, log, id);
  }

  lemma ClosedChannelHolds(subs: map<int, seq<Entry>>, starts: map<int, nat>, given: nat, log: seq<Entry>, id: int)
    requires AllHold(subs, starts, given, log)
    ensures AllHold(subs - {id}, starts - {id}, given, log)
    ensures id !in subs ==> subs - {id} == subs && starts - {id} == starts
  {
    var subs', starts' := subs - {id}, starts - {id};
    forall i ensures HoldsAt(subs', starts', given, log, i) {
      assert HoldsAt(subs, starts, given, log, i);
    }
    assert HoldsAt(subs, starts, given, log, id);
  }

  lemma OfferedHolds(channel: seq<Entry>, k: nat, texts: seq<string>, text: string)
    requires Holds(channel, k, Logged(texts))
    ensures Holds(Offered(channel, Entry(|texts| + 1, text)), k, Logged(texts + [text]))
  {
    assert Logged(texts + [text]) == Logged(texts) + [Entry(|texts| + 1, text)];
  }

  /** Each channel has been offered the event. */
  ghost predicate AllOffered(subs: map<int, seq<Entry>>, subs': map<int, seq<Entry>>, e: Entry) {
    forall id :: OfferedAt(subs, subs', e, id)
  }

  ghost predicate OfferedAt(subs: map<int, seq<Entry>>, subs': map<int, seq<Entry>>, e: Entry, id: int) {
    && (id in subs' <==> id in subs)
    && (id in subs ==> subs'[id] == Offered(subs[id], e))
  }

  lemma AllOfferedHold(subs: map<int, seq<Entry>>, subs': map<int, seq<Entry>>, starts: map<int, nat>, given: nat,
                       texts: seq<string>, text: string)
    requires AllHold(subs, starts, given, Logged(texts)) && AllOffered(subs, subs', Entry(|texts| + 1, text))
    ensures AllHold(subs', starts, given, Logged(texts + [text]))
  {
    var log := Logged(texts + [text]);
    forall id ensures HoldsAt(subs', starts, given, log, id) {
      assert HoldsAt(subs, starts, given, Logged(texts), id) && OfferedAt(subs, subs', Entry(|texts| + 1, text), id);
      if id in subs {
        OfferedHolds(subs[id], starts[id], texts, text);
      }
    }
  }

  class Recorder {
    const limit: nat
    const ring: array<Entry>
    var len: nat
    var next: nat
    var subs: map<int, seq<Entry>>   // what each open channel still holds
    var nextSub: nat
    ghost var texts: seq<string>     // everything ever published
    ghost var starts: map<int, nat>  // how many events there were when each open channel was opened

    ghost predicate Valid()
      reads this, ring
    {
      && next == |texts| && RingHolds(texts)
      && AllHold(subs, starts, nextSub, Logged(texts))
    }

    /** The ring is the window over this log: its last limit events, or all of them. */
    ghost predicate RingHolds(log: seq<string>)
      reads this`len, ring
    {
      && 0 < limit == ring.Length && len == (if |log| < limit then |log| else limit)
      && forall i | 0 <= i < len :: ring[i] == EntryAt(log, |log| - len + i)
    }

    constructor (limit: int)
      ensures Valid() && fresh(ring) && texts == [] && subs == map[]
      ensures this.limit == if limit <= 0 then DEFAULT_LIMIT else limit
    {
      var size := if limit <= 0 then DEFAULT_LIMIT else limit;
      this.limit := size;
      ring := new Entry[size](_ => Entry(0, ""));
      len, next, subs, nextSub, texts, starts := 0, 0, map[], 0, [], map[];
    }

    method Publish(text: string)
      requires Valid()
      modifies this, ring
      ensures Valid() && texts == old(texts) + [text]
      ensures unchanged(this`nextSub, this`starts) && AllOffered(old(subs), subs, Entry(|texts|, text))
    {
      next := next + 1;
      var e := Entry(next, text);
      Keep(e);
      assert RingHolds(texts + [text]);
      Offer(e, texts);
      texts := texts + [text];
    }

    /** The event takes its place at the end of the ring, and the oldest one leaves a full ring. */
    method Keep(e: Entry)
      requires 0 < limit == ring.Length && len <= limit
      modifies this`len, ring
      ensures len == (if old(len) == limit then limit else old(len) + 1) && ring[len - 1] == e
      ensures forall i | 0 <= i < len - 1 :: ring[i] == old(ring[if len == limit then i + 1 else i])
    {
      if len == limit {
        forall i | 0 <= i < len - 1 {
          ring[i] := ring[i + 1];
        }
        ring[len - 1] := e;
      } else {
        ring[len] := e;
        len := len + 1;
      }
    }

    /** The event, the next one of the log, is offered to every channel, in any order, and waits for none. */
    method Offer(e: Entry, ghost log: seq<string>)
      requires AllHold(subs, starts, nextSub, Logged(log)) && e.num == |log| + 1
      modifies this`subs
      ensures AllOffered(old(subs), subs, e)
      ensures AllHold(subs, starts, nextSub, Logged(log + [e.text]))
    {
      var todo := subs.Keys;
      while todo != {}
        invariant todo <= subs.Keys == old(subs).Keys
        invariant forall id | id in subs :: subs[id] == if id in todo then old(subs)[id] else Offered(old(subs)[id], e)
        decreases todo
      {
        Inhabited(todo);
        var id :| id in todo;
        todo := todo - {id};
        if |subs[id]| < CAPACITY {
          subs := subs[id := subs[id] + [e]];
        }
      }
      forall id ensures OfferedAt(old(subs), subs, e, id) {
        assert id in subs.Keys <==> id in old(subs).Keys;
      }
      AllOfferedHold(old(subs), subs, starts, nextSub, log, e.text);
    }

    method Subscribe() returns (id: int)
      requires Valid()
      modifies this`subs, this`nextSub, this`starts
      ensures Valid() && id !in old(subs) && subs == old(subs)[id := []]
      ensures starts == old(starts)[id := |texts|]
    {
      NewChannelHolds(subs, starts, Logged(texts), nextSub);
      id := nextSub;
      nextSub := nextSub + 1;
      subs := subs[id := []];
      starts := starts[id := |texts|];
    }

    /** Cancelling twice is harmless. */
    method Unsubscribe(id: int)
      requires Valid()
      modifies this`subs, this`starts
      ensures Valid() && subs == old(subs) - {id} && starts == old(starts) - {id}
    {
      ClosedChannelHolds(subs, starts, nextSub, Logged(texts), id);
      if id in subs {
        subs, starts := subs - {id}, starts - {id};
      }
    }

    method Latest() returns (latest: nat)
      requires Valid()
      ensures latest == |texts|
    {
      latest := next;
    }

    method Since(num: nat) returns (out: seq<Entry>)
      requires Valid()
      ensures out == Recent(Logged(texts), limit, num)
    {
      out := [];
      ghost var log, first := Logged(texts), |texts| - len;
      var i := 0;
      while i < len
        invariant 0 <= i <= len
        invariant out == From(log[..first + i], Larger(num, first))
      {
        ghost var before := log[..first + i];
        var e := ring[i];
        assert e == log[first + i];
        assert log[..first + i + 1] == before + [e];
        FromGrows(before, e, Larger(num, first));
        if e.num > num {
          out := out + [e];
        }
        i := i + 1;
      }
      assert log[..first + i] == log;
    }
  }

  /** What a reader can still get: exactly the events after its cursor that are among the last limit. */
  lemma RecentExactly(texts: seq<string>, limit: nat, num: nat, e: Entry)
    ensures e in Recent(Logged(texts), limit, num)
       <==> e in Logged(texts) && e.num > num && e.num + limit > |texts|
  {
    var log, start := Logged(texts), Larger(num, Evicted(|texts|, limit));
    if e in log && e.num > start {
      assert log[start..][e.num - 1 - start] == e;
    }
  }

  lemma FromGrows(log: seq<Entry>, e: Entry, start: nat)
    ensures From(log + [e], start) == From(log, start) + (if start <= |log| then [e] else [])
  {
  }
}
