/** The console's tail of a node's events: polling with a cursor against a window that moves (pkg/console/tail.go,
    pkg/ui/server.go:96-109). */
module Tailers {
  import opened Wrappers
  import opened Recorders

  /** An answer to a poll: the number of the last event, and the events after the cursor, read just after. */
  datatype Batch = Batch(latest: nat, events: seq<Entry>)

  /** What the console knows of one node: its cursor, and what it has emitted. */
  datatype Tail = Tail(seen: nat, out: seq<Entry>)

  function Top(events: seq<Entry>): nat {
    if events == [] then 0
    else
      var rest := Top(events[..|events| - 1]);
      Larger(events[|events| - 1].num, rest)
  }

  /** The tail after one poll. A batch that ends before the cursor comes from a new recorder, so the cursor starts over. */
  function Polled(tail: Tail, batch: Option<Batch>): Tail {
    match batch
    case None => tail
    case Some(Batch(latest, events)) =>
      if latest < tail.seen then tail.(seen := 0)
      else Tail(if Top(events) > 0 then Top(events) else tail.seen, tail.out + events)
  }

  /** What happens on a node: an event is published, or the console polls. Events may be published while the poll is
      being answered, between the two reads, and the answer may not come back. Or the node's process starts anew, with a
      new recorder. */
  datatype Doing = Published(text: string) | Poll(meanwhile: seq<string>, answered: bool) | Replaced(limit: int)

  /** A node's recorder, by its limit and its log, and what the console knows of the node. */
  datatype Feed = Feed(limit: nat, texts: seq<string>, tail: Tail)

  function Answer(texts: seq<string>, meanwhile: seq<string>, limit: nat, since: nat): Batch {
    Batch(|texts|, Recent(Logged(texts + meanwhile), limit, since))
  }

  function Do(feed: Feed, doing: Doing): Feed {
    match doing
    case Published(text) => feed.(texts := feed.texts + [text])
    case Poll(meanwhile, answered) =>
      feed.(texts := feed.texts + meanwhile,
            tail := Polled(feed.tail,
                           if answered then Some(Answer(feed.texts, meanwhile, feed.limit, feed.tail.seen)) else None))
    case Replaced(limit) => Feed(if limit <= 0 then DEFAULT_LIMIT else limit, [], feed.tail)
  }

  function Run(feed: Feed, doings: seq<Doing>): Feed
    decreases |doings|
  {
    if doings == [] then feed
    else Do(Run(feed, doings[..|doings| - 1]), doings[|doings| - 1])
  }

  lemma {:induction false} RunThrough(feed: Feed, p: seq<Doing>, q: seq<Doing>)
    ensures Run(feed, p + q) == Run(Run(feed, p), q)
    decreases |q|
  {
    if q == [] {
      assert p + q == p;
    } else {
      assert (p + q)[..|p + q| - 1] == p + q[..|q| - 1];
      RunThrough(feed, p, q[..|q| - 1]);
    }
  }

  function Added(doing: Doing): nat {
    match doing
    case Published(_) => 1
    case Poll(meanwhile, _) => |meanwhile|
    case Replaced(_) => 0
  }

  /** How many events these doings have published. */
  function Count(doings: seq<Doing>): nat
    decreases |doings|
  {
    if doings == [] then 0 else Count(doings[..|doings| - 1]) + Added(doings[|doings| - 1])
  }

  // ---- the life of one recorder ----

  /** A recorder that has just been made, whatever the console still knows from an earlier one. */
  predicate Newly(start: Feed) {
    start.limit > 0 && start.texts == []
  }

  predicate OneRecorder(doings: seq<Doing>) {
    forall q | 0 <= q < |doings| :: !doings[q].Replaced?
  }

  predicate Answered(doing: Doing) {
    doing.Poll? && doing.answered
  }

  predicate Unanswered(doings: seq<Doing>) {
    forall q | 0 <= q < |doings| :: !Answered(doings[q])
  }

  /** Poll q, the first one answered, finds a log that is shorter than the cursor c. */
  predicate Notices(doings: seq<Doing>, c: nat, q: nat) {
    q < |doings| && Answered(doings[q]) && Unanswered(doings[..q]) && Count(doings[..q]) < c
  }

  ghost predicate Noticed(doings: seq<Doing>, c: nat) {
    exists q: nat :: Notices(doings, c, q)
  }

  /** Poll q brings the console what is then in the window after its cursor. */
  predicate Reads(doings: seq<Doing>, c: nat, q: nat) {
    q < |doings| && Answered(doings[q]) && !Notices(doings, c, q)
  }

  /** Poll p is the first one to read after event k was published. */
  ghost predicate FirstChance(doings: seq<Doing>, c: nat, k: nat, p: nat) {
    && Reads(doings, c, p) && k <= Count(doings[..p + 1])
    && forall q | 0 <= q < p :: Missed(doings, c, k, q)
  }

  ghost predicate Missed(doings: seq<Doing>, c: nat, k: nat, q: nat) {
    q < |doings| && (Reads(doings, c, q) ==> Count(doings[..q + 1]) < k)
  }

  /** Event k was still in the window when the console first had a chance to read it. */
  ghost predicate Caught(limit: nat, doings: seq<Doing>, c: nat, k: nat) {
    exists p: nat :: InTime(limit, doings, c, k, p)
  }

  ghost predicate InTime(limit: nat, doings: seq<Doing>, c: nat, k: nat, p: nat) {
    FirstChance(doings, c, k, p) && k + limit > Count(doings[..p + 1])
  }

  /** Event k of the present recorder has come out: it is among what came out after the first n. */
  ghost predicate Emitted(feed: Feed, n: nat, k: nat) {
    n <= |feed.tail.out| && Has(feed.tail.out[n..], k)
  }

  ghost predicate Has(events: seq<Entry>, k: nat) {
    exists e :: e in events && e.num == k
  }

  /** What came out belongs to the log, up to the cursor and in order. */
  ghost predicate InOrder(log: seq<Entry>, seen: nat, out: seq<Entry>) {
    && (forall i | 0 <= i < |out| :: 1 <= out[i].num <= seen && out[i].num <= |log| && out[i] == log[out[i].num - 1])
    && (forall i, j | 0 <= i < j < |out| :: out[i].num < out[j].num)
  }

  /** Until an answer arrives the console knows what it knew. After that its cursor is not beyond the log, nor behind the
      one it came with unless it has noticed, and what came out is of the log. */
  ghost predicate LifeOk(start: Feed, doings: seq<Doing>) {
    var c, o, feed := start.tail.seen, start.tail.out, Run(start, doings);
    && feed.limit == start.limit && |feed.texts| == Count(doings)
    && |o| <= |feed.tail.out| && feed.tail.out[..|o|] == o
    && InOrder(Logged(feed.texts), feed.tail.seen, feed.tail.out[|o|..])
    && if Unanswered(doings) then feed.tail == start.tail
       else feed.tail.seen <= Count(doings) && (feed.tail.seen < c ==> Noticed(doings, c))
  }

  lemma {:induction false} TopOfLast(log: seq<Entry>)
    requires log != [] && forall i, j | 0 <= i < j < |log| :: log[i].num < log[j].num
    ensures Top(log) == log[|log| - 1].num
  {
    var fewer := log[..|log| - 1];
    if fewer != [] {
      TopOfLast(fewer);
    }
  }

  /** What an answered poll adds: the events from the cursor or the window's start, whichever is later, to the end. */
  lemma AnsweredPoll(feed: Feed, meanwhile: seq<string>)
    requires feed.tail.seen <= |feed.texts| && 0 < feed.limit
    ensures var feed' := Do(feed, Poll(meanwhile, true));
            var log := Logged(feed.texts + meanwhile);
            && feed'.tail.out == feed.tail.out + Recent(log, feed.limit, feed.tail.seen)
            && feed'.tail.seen == |log| && |log| >= |feed.texts|
  {
    var log := Logged(feed.texts + meanwhile);
    var events := Recent(log, feed.limit, feed.tail.seen);
    if events != [] {
      TopOfLast(events);
    }
  }

  predicate SamePast(doings: seq<Doing>, before: seq<Doing>, q: nat)
    requires q < |before| <= |doings|
  {
    doings[..q] == before[..q] && doings[..q + 1] == before[..q + 1]
  }

  /** What has gone before does not depend on what came after. */
  lemma SamePolls(doings: seq<Doing>, c: nat)
    requires doings != []
    ensures var before := doings[..|doings| - 1];
            && (Unanswered(doings) <==> Unanswered(before) && !Answered(doings[|doings| - 1]))
            && (forall q: nat | q < |before| :: SamePast(doings, before, q))
            && (forall q: nat | q < |before| :: Notices(doings, c, q) <==> Notices(before, c, q))
            && (Noticed(doings, c) <==> Noticed(before, c) || Notices(doings, c, |doings| - 1))
  {
    var before := doings[..|doings| - 1];
    forall q: nat | q < |before|
      ensures SamePast(doings, before, q) && (Notices(doings, c, q) <==> Notices(before, c, q))
    {
      assert SamePast(doings, before, q);
    }
    if Unanswered(before) && !Answered(doings[|doings| - 1]) {
      forall q | 0 <= q < |doings| ensures !Answered(doings[q]) {
        if q < |before| { assert !Answered(before[q]); }
      }
    }
    if q: nat :| Notices(doings, c, q) {
      assert q < |before| ==> Notices(before, c, q);
    }
  }

  /** The tail after one more doing. */
  ghost predicate TailMoves(start: Feed, doings: seq<Doing>)
    requires doings != []
  {
    var n := |doings| - 1;
    var feed, feed' := Run(start, doings[..n]), Run(start, doings);
    if Reads(doings, start.tail.seen, n) then
      && feed.tail.seen <= |feed.texts|
      && feed'.tail == Tail(Count(doings), feed.tail.out + Recent(Logged(feed'.texts), feed.limit, feed.tail.seen))
    else
      feed'.tail == if Answered(doings[n]) then feed.tail.(seen := 0) else feed.tail
  }

  lemma {:induction false} NextTail(start: Feed, doings: seq<Doing>)
    requires Newly(start) && OneRecorder(doings) && doings != [] && LifeOk(start, doings[..|doings| - 1])
    ensures TailMoves(start, doings) && |Run(start, doings).texts| == Count(doings)
    ensures Run(start, doings[..|doings| - 1]).texts <= Run(start, doings).texts
  {
    var n := |doings| - 1;
    assert doings[n].Replaced? ==> false;
    var feed := Run(start, doings[..n]);
    if Reads(doings, start.tail.seen, n) {
      AnsweredPoll(feed, doings[n].meanwhile);
    }
  }

  /** What has come out stays in order. */
  lemma {:induction false} OutStaysInOrder(start: Feed, doings: seq<Doing>)
    requires Newly(start) && OneRecorder(doings) && doings != [] && LifeOk(start, doings[..|doings| - 1])
    ensures var k, feed' := |start.tail.out|, Run(start, doings);
            && k <= |feed'.tail.out| && feed'.tail.out[..k] == start.tail.out
            && InOrder(Logged(feed'.texts), feed'.tail.seen, feed'.tail.out[k..])
  {
    var n, k := |doings| - 1, |start.tail.out|;
    var feed, feed' := Run(start, doings[..n]), Run(start, doings);
    NextTail(start, doings);
    var log, log' := Logged(feed.texts), Logged(feed'.texts);
    assert log <= log';
    if Reads(doings, start.tail.seen, n) {
      var from := Larger(feed.tail.seen, Evicted(|log'|, feed.limit));
      EmittedOk(log, log', feed.tail.seen, feed.tail.out[k..], from);
      AppendBehind(feed.tail.out, From(log', from), k);
    } else if Answered(doings[n]) {
      assert feed'.tail.out[k..] == [];
    } else {
      ShorterOk(log, log', feed.tail.seen, feed.tail.out[k..]);
    }
  }

  lemma {:induction false} LifeGoesOn(start: Feed, doings: seq<Doing>)
    requires Newly(start) && OneRecorder(doings) && doings != [] && LifeOk(start, doings[..|doings| - 1])
    ensures LifeOk(start, doings)
  {
    OutStaysInOrder(start, doings);
    NextTail(start, doings);
    SamePolls(doings, start.tail.seen);
    assert !doings[|doings| - 1].Replaced?;
  }

  lemma AppendBehind(out: seq<Entry>, events: seq<Entry>, k: nat)
    requires k <= |out|
    ensures (out + events)[..k] == out[..k] && (out + events)[k..] == out[k..] + events
  {
  }

  lemma ShorterOk(log: seq<Entry>, log': seq<Entry>, seen: nat, out: seq<Entry>)
    requires InOrder(log, seen, out) && log <= log'
    ensures InOrder(log', seen, out)
  {
  }

  lemma EmittedOk(log: seq<Entry>, log': seq<Entry>, seen: nat, out: seq<Entry>, start: nat)
    requires log <= log' && forall n | 0 <= n < |log'| :: log'[n].num == n + 1
    requires InOrder(log, seen, out) && seen <= start && seen <= |log|
    ensures InOrder(log', |log'|, out + From(log', start))
  {
    var events := From(log', start);
    forall i | 0 <= i < |events| ensures events[i] == log'[start + i] {
    }
  }

  lemma {:induction false} LifeIsOk(start: Feed, doings: seq<Doing>)
    requires Newly(start) && OneRecorder(doings)
    ensures LifeOk(start, doings)
    decreases |doings|
  {
    if doings != [] {
      LifeIsOk(start, doings[..|doings| - 1]);
      LifeGoesOn(start, doings);
    }
  }

  ghost predicate AllMissed(doings: seq<Doing>, c: nat, k: nat) {
    forall q | 0 <= q < |doings| :: Missed(doings, c, k, q)
  }

  lemma SameMissed(doings: seq<Doing>, c: nat, k: nat, q: nat)
    requires q + 1 < |doings|
    ensures Missed(doings, c, k, q) <==> Missed(doings[..|doings| - 1], c, k, q)
  {
    SamePolls(doings, c);
    assert SamePast(doings, doings[..|doings| - 1], q);
  }

  /** Which chances there were before does not depend on the last doing. */
  lemma SameChance(doings: seq<Doing>, c: nat, k: nat, p: nat)
    requires p + 1 < |doings|
    ensures FirstChance(doings, c, k, p) <==> FirstChance(doings[..|doings| - 1], c, k, p)
  {
    var before := doings[..|doings| - 1];
    SamePolls(doings, c);
    assert SamePast(doings, before, p);
    forall q: nat | q < p ensures Missed(doings, c, k, q) <==> Missed(before, c, k, q) {
      SameMissed(doings, c, k, q);
    }
  }

  /** The last doing is the first chance if it reads and all before it missed. */
  lemma {:induction false} LastChance(doings: seq<Doing>, c: nat, k: nat)
    requires doings != []
    ensures FirstChance(doings, c, k, |doings| - 1)
       <==> Reads(doings, c, |doings| - 1) && k <= Count(doings) && AllMissed(doings[..|doings| - 1], c, k)
  {
    var n := |doings| - 1;
    assert doings[..n + 1] == doings;
    forall q: nat | q < n ensures Missed(doings, c, k, q) <==> Missed(doings[..n], c, k, q) {
      SameMissed(doings, c, k, q);
    }
  }

  /** Events beyond the cursor have had no chance to be read. */
  lemma {:induction false} UnseenIsMissed(start: Feed, doings: seq<Doing>, k: nat)
    requires Newly(start) && OneRecorder(doings) && k > Run(start, doings).tail.seen
    ensures AllMissed(doings, start.tail.seen, k)
    decreases |doings|
  {
    if doings != [] {
      var n, c := |doings| - 1, start.tail.seen;
      var before := doings[..n];
      LifeIsOk(start, before);
      NextTail(start, doings);
      if Notices(doings, c, n) {
        NoticedFirst(doings, c, k);
      } else {
        UnseenIsMissed(start, before, k);
        MissedNext(doings, c, k);
      }
    }
  }

  lemma {:induction false} MissedNext(doings: seq<Doing>, c: nat, k: nat)
    requires doings != [] && AllMissed(doings[..|doings| - 1], c, k)
    requires Reads(doings, c, |doings| - 1) ==> Count(doings) < k
    ensures AllMissed(doings, c, k)
  {
    forall q: nat | q < |doings| ensures Missed(doings, c, k, q) {
      if q + 1 < |doings| {
        SameMissed(doings, c, k, q);
      } else {
        assert doings[..q + 1] == doings;
      }
    }
  }

  /** Up to the poll that notices a new recorder there is no chance to read. */
  lemma NoticedFirst(doings: seq<Doing>, c: nat, k: nat)
    requires doings != [] && Notices(doings, c, |doings| - 1)
    ensures AllMissed(doings, c, k)
  {
    forall q | 0 <= q < |doings| - 1 ensures !Answered(doings[q]) {
      assert doings[..|doings| - 1][q] == doings[q];
    }
  }

  /** And events up to the cursor have had one, once an answer has arrived. */
  lemma {:induction false} SeenHadChance(start: Feed, doings: seq<Doing>, k: nat)
    requires Newly(start) && OneRecorder(doings) && 0 < k <= Run(start, doings).tail.seen && !Unanswered(doings)
    ensures exists p :: FirstChance(doings, start.tail.seen, k, p)
    decreases |doings|
  {
    var n, c := |doings| - 1, start.tail.seen;
    var before := doings[..n];
    LifeIsOk(start, before);
    NextTail(start, doings);
    if k <= Run(start, before).tail.seen && !Unanswered(before) {
      SeenHadChance(start, before, k);
      var p: nat :| FirstChance(before, c, k, p);
      SameChance(doings, c, k, p);
    } else {
      SamePolls(doings, c);
      LastChance(doings, c, k);
      if k > Run(start, before).tail.seen {
        UnseenIsMissed(start, before, k);
      }
    }
  }

  lemma SameInTime(limit: nat, doings: seq<Doing>, c: nat, k: nat, p: nat)
    requires p + 1 < |doings|
    ensures InTime(limit, doings, c, k, p) <==> InTime(limit, doings[..|doings| - 1], c, k, p)
  {
    SameChance(doings, c, k, p);
    assert doings[..p + 1] == doings[..|doings| - 1][..p + 1];
  }

  lemma CaughtBefore(limit: nat, doings: seq<Doing>, c: nat, k: nat)
    requires doings != [] && Caught(limit, doings[..|doings| - 1], c, k)
    ensures Caught(limit, doings, c, k)
  {
    var p: nat :| InTime(limit, doings[..|doings| - 1], c, k, p);
    SameInTime(limit, doings, c, k, p);
  }

  /** An event that is caught was caught before or is caught by the last doing. */
  lemma CaughtWhen(limit: nat, doings: seq<Doing>, c: nat, k: nat)
    requires doings != [] && Caught(limit, doings, c, k)
    ensures Caught(limit, doings[..|doings| - 1], c, k) || InTime(limit, doings, c, k, |doings| - 1)
  {
    var p: nat :| InTime(limit, doings, c, k, p);
    if p < |doings| - 1 {
      SameInTime(limit, doings, c, k, p);
    }
  }

  /** Whether an event is caught after the last doing. */
  lemma CaughtNext(limit: nat, doings: seq<Doing>, c: nat, k: nat)
    requires doings != []
    ensures var n := |doings| - 1;
            Caught(limit, doings, c, k) <==> Caught(limit, doings[..n], c, k) || InTime(limit, doings, c, k, n)
  {
    if Caught(limit, doings, c, k) {
      CaughtWhen(limit, doings, c, k);
    }
    if Caught(limit, doings[..|doings| - 1], c, k) {
      CaughtBefore(limit, doings, c, k);
    }
  }

  /** The events of the present recorder that should have come out: those caught, and of them only those above the cursor
      the console came with if it never noticed that the recorder is a new one. */
  ghost predicate Due(start: Feed, doings: seq<Doing>, k: nat) {
    && Caught(start.limit, doings, start.tail.seen, k)
    && (Noticed(doings, start.tail.seen) || k > start.tail.seen)
  }

  /** A poll emits the events it is the first to have a chance at and that are still in the window. */
  lemma PollEmits(start: Feed, doings: seq<Doing>, k: nat)
    requires Newly(start) && OneRecorder(doings) && doings != [] && 0 < k
    requires Reads(doings, start.tail.seen, |doings| - 1)
    ensures var feed, feed' := Run(start, doings[..|doings| - 1]), Run(start, doings);
            Emitted(feed', |start.tail.out|, k) <==>
              Emitted(feed, |start.tail.out|, k) || feed.tail.seen < k <= Count(doings) < k + start.limit
  {
    var n, o := |doings| - 1, |start.tail.out|;
    LifeIsOk(start, doings[..n]);
    NextTail(start, doings);
    var feed, feed' := Run(start, doings[..n]), Run(start, doings);
    AppendBehind(feed.tail.out, Recent(Logged(feed'.texts), feed.limit, feed.tail.seen), o);
    RecentHas(feed'.texts, feed.limit, feed.tail.seen, k);
    HasEither(feed.tail.out[o..], Recent(Logged(feed'.texts), feed.limit, feed.tail.seen), k);
  }

  lemma HasEither(p: seq<Entry>, q: seq<Entry>, k: nat)
    ensures Has(p + q, k) <==> Has(p, k) || Has(q, k)
  {
    forall e ensures e in p + q <==> e in p || e in q {
    }
  }

  lemma RecentHas(texts: seq<string>, limit: nat, seen: nat, k: nat)
    requires 0 < k
    ensures Has(Recent(Logged(texts), limit, seen), k) <==> seen < k <= |texts| < k + limit
  {
    var log := Logged(texts);
    if Has(Recent(log, limit, seen), k) {
      var e :| e in Recent(log, limit, seen) && e.num == k;
      RecentExactly(texts, limit, seen, e);
    }
    if seen < k <= |texts| < k + limit {
      assert log[k - 1] in log;
      RecentExactly(texts, limit, seen, log[k - 1]);
    }
  }

  lemma {:induction false} NextRead(start: Feed, doings: seq<Doing>, k: nat)
    requires Newly(start) && OneRecorder(doings) && doings != [] && 0 < k
    requires Reads(doings, start.tail.seen, |doings| - 1)
    requires Emitted(Run(start, doings[..|doings| - 1]), |start.tail.out|, k) <==> Due(start, doings[..|doings| - 1], k)
    ensures Emitted(Run(start, doings), |start.tail.out|, k) <==> Due(start, doings, k)
  {
    var n, c := |doings| - 1, start.tail.seen;
    var before := doings[..n];
    PollEmits(start, doings, k);
    LifeIsOk(start, before);
    LastChance(doings, c, k);
    SamePolls(doings, c);
    CaughtNext(start.limit, doings, c, k);
    assert doings[..n + 1] == doings;
    var seen := Run(start, before).tail.seen;
    if k <= seen {
      if !Unanswered(before) {
        SeenHadChance(start, before, k);
        var p: nat :| FirstChance(before, c, k, p);
        assert !Missed(before, c, k, p);
      }
    } else {
      UnseenIsMissed(start, before, k);
      assert !Unanswered(before) && seen < c ==> Noticed(before, c);
    }
  }

  /** A doing that reads nothing emits nothing. */
  lemma {:induction false} NextOther(start: Feed, doings: seq<Doing>, k: nat)
    requires Newly(start) && OneRecorder(doings) && doings != [] && 0 < k
    requires !Reads(doings, start.tail.seen, |doings| - 1)
    requires Emitted(Run(start, doings[..|doings| - 1]), |start.tail.out|, k) <==> Due(start, doings[..|doings| - 1], k)
    ensures Emitted(Run(start, doings), |start.tail.out|, k) <==> Due(start, doings, k)
  {
    var n, c := |doings| - 1, start.tail.seen;
    LifeIsOk(start, doings[..n]);
    NextTail(start, doings);
    SamePolls(doings, c);
    CaughtNext(start.limit, doings, c, k);
  }

  /** Delivery: in the life of a recorder an event comes out if and only if it was still among the last limit events at the
      first poll that read the log after its publication, and the console had noticed the new recorder or the event's
      number is above its cursor. */
  lemma {:induction false} DeliveredExactly(start: Feed, doings: seq<Doing>, k: nat)
    requires Newly(start) && OneRecorder(doings) && 0 < k
    ensures Emitted(Run(start, doings), |start.tail.out|, k) <==> Due(start, doings, k)
    decreases |doings|
  {
    if doings != [] {
      DeliveredExactly(start, doings[..|doings| - 1], k);
      if Reads(doings, start.tail.seen, |doings| - 1) {
        NextRead(start, doings, k);
      } else {
        NextOther(start, doings, k);
      }
    }
  }

  /** What comes out in the life of a recorder belongs to its log and is in strictly increasing order, so each event comes
      out at most once; what came out before stays. */
  lemma {:induction false} TailIsInOrder(start: Feed, doings: seq<Doing>, i: nat, j: nat)
    requires Newly(start) && OneRecorder(doings)
    requires |start.tail.out| <= i < j < |Run(start, doings).tail.out|
    ensures var feed := Run(start, doings);
            && feed.tail.out[i].num < feed.tail.out[j].num && start.tail.out <= feed.tail.out
            && feed.tail.out[i] in Logged(feed.texts) && feed.tail.out[j] in Logged(feed.texts)
  {
    LifeIsOk(start, doings);
    var o, feed := |start.tail.out|, Run(start, doings);
    var out := feed.tail.out[o..];
    assert out[i - o] == feed.tail.out[i] && out[j - o] == feed.tail.out[j];
  }

  /** The cursor starts over exactly when the first answer from a new recorder finds its log shorter than the cursor. */
  lemma {:induction false} StartsOverExactly(start: Feed, doings: seq<Doing>, meanwhile: seq<string>)
    requires Newly(start) && OneRecorder(doings)
    ensures var feed, c := Run(start, doings), start.tail.seen;
            && (Answer(feed.texts, meanwhile, feed.limit, feed.tail.seen).latest < feed.tail.seen <==>
                  Unanswered(doings) && Count(doings) < c)
            && (Unanswered(doings) && Count(doings) < c ==>
                  Do(feed, Poll(meanwhile, true)).tail == Tail(0, start.tail.out))
  {
    LifeIsOk(start, doings);
  }

  /** Once the cursor has started over, the next answered poll emits exactly what the new recorder still holds. */
  lemma {:induction false} StartsFromTheBeginning(feed: Feed, meanwhile: seq<string>, more: seq<string>)
    requires feed.limit > 0 && |feed.texts| < feed.tail.seen
    ensures var feed' := Do(Do(feed, Poll(meanwhile, true)), Poll(more, true));
            && feed'.texts == feed.texts + meanwhile + more && feed.tail.out <= feed'.tail.out
            && forall e :: e in feed'.tail.out[|feed.tail.out|..] <==>
                             e in Logged(feed'.texts) && e.num + feed.limit > |feed'.texts|
  {
    var feed1 := Do(feed, Poll(meanwhile, true));
    AnsweredPoll(feed1, more);
    AppendBehind(feed1.tail.out, Recent(Logged(feed1.texts + more), feed.limit, 0), |feed.tail.out|);
    forall e {
      RecentExactly(feed1.texts + more, feed.limit, 0, e);
    }
  }

  /** Delivery over a run with any number of recorders: after a replacement and whatever happened before it, the events of
      the new recorder come out as DeliveredExactly says, and those of the recorders before it stay. */
  lemma {:induction false} DeliveredByEach(start: Feed, earlier: seq<Doing>, size: int, life: seq<Doing>, k: nat)
    requires OneRecorder(life) && 0 < k
    ensures var made, feed := Run(start, earlier + [Replaced(size)]), Run(start, earlier + [Replaced(size)] + life);
            && made.tail == Run(start, earlier).tail && made.tail.out <= feed.tail.out
            && |feed.texts| == Count(life)
            && (Emitted(feed, |made.tail.out|, k) <==> Due(made, life, k))
  {
    var p := earlier + [Replaced(size)];
    assert p[..|p| - 1] == earlier;
    RunThrough(start, p, life);
    LifeIsOk(Run(start, p), life);
    DeliveredExactly(Run(start, p), life, k);
  }

  // ---- the console's tailer ----

  datatype NodeLog = NodeLog(node: int, entry: Entry)

  /** What has been emitted of one node. */
  function OfNode(logs: seq<NodeLog>, id: int): seq<Entry> {
    if logs == [] then []
    else
      var fewer, last := OfNode(logs[..|logs| - 1], id), logs[|logs| - 1];
      if last.node == id then fewer + [last.entry] else fewer
  }

  lemma {:induction false} OneMoreOfNode(logs: seq<NodeLog>, log: NodeLog, id: int)
    ensures OfNode(logs + [log], id) == OfNode(logs, id) + (if log.node == id then [log.entry] else [])
  {
    assert (logs + [log])[..|logs|] == logs;
  }

  class Tailer {
    var seen: map<int, nat>
    var emitted: seq<NodeLog>

    ghost function View(id: int): Tail
      reads this
    {
      Tail(if id in seen then seen[id] else 0, OfNode(emitted, id))
    }

    constructor ()
      ensures forall id :: View(id) == Tail(0, [])
    {
      seen, emitted := map[], [];
    }

    /** One round of the loop that follows a node, with the answer its poll got. */
    method Poll(id: int, batch: Option<Batch>)
      modifies this
      ensures View(id) == Polled(old(View(id)), batch)
      ensures batch.None? ==> View(id) == old(View(id))
      ensures batch.Some? && batch.value.latest < old(View(id)).seen ==> View(id) == Tail(0, old(View(id)).out)
      ensures batch.Some? && batch.value.latest >= old(View(id)).seen ==> View(id).out == old(View(id)).out + batch.value.events
      ensures forall other | other != id :: View(other) == old(View(other))
    {
      var since := if id in seen then seen[id] else 0;
      if batch.None? {
        return;
      }
      if batch.value.latest < since {
        seen := seen[id := 0];
        return;
      }
      var events := batch.value.events;
      var highest := 0;
      ghost var before := old(emitted);
      var i := 0;
      while i < |events|
        invariant 0 <= i <= |events| && highest == Top(events[..i]) && seen == old(seen)
        invariant OfNode(emitted, id) == OfNode(before, id) + events[..i]
        invariant forall other | other != id :: OfNode(emitted, other) == OfNode(before, other)
      {
        var e := events[i];
        if e.num > highest {
          highest := e.num;
        }
        forall other ensures OfNode(emitted + [NodeLog(id, e)], other)
                          == OfNode(emitted, other) + (if other == id then [e] else []) {
          OneMoreOfNode(emitted, NodeLog(id, e), other);
        }
        emitted := emitted + [NodeLog(id, e)];
        assert events[..i + 1] == events[..i] + [e] && events[..i + 1][..i] == events[..i];
        i := i + 1;
      }
      assert events[..i] == events;
      if highest > 0 {
        seen := seen[id := highest];
      }
    }

    /** Follows a node through whatever is published on it, however its polls are answered and whenever it is started
        anew. */
    method Follow(id: int, recorder: Recorder, doings: seq<Doing>) returns (present: Recorder)
      requires recorder.Valid()
      modifies this, recorder, recorder.ring
      ensures present.Valid() && fresh({present, present.ring} - {recorder, recorder.ring})
      ensures Known(id, present) == Run(old(Known(id, recorder)), doings)
      ensures forall other | other != id :: View(other) == old(View(other))
    {
      present := recorder;
      var i := 0;
      while i < |doings|
        invariant 0 <= i <= |doings| && present.Valid() && fresh({present, present.ring} - {recorder, recorder.ring})
        invariant Known(id, present) == Run(old(Known(id, recorder)), doings[..i])
        invariant forall other | other != id :: View(other) == old(View(other))
      {
        assert doings[..i + 1][..i] == doings[..i] && doings[..i + 1][i] == doings[i];
        present := Happen(id, present, doings[i]);
        i := i + 1;
      }
      assert doings[..i] == doings;
    }

    /** The node's recorder and what is known of the node. */
    ghost function Known(id: int, recorder: Recorder): Feed
      reads this, recorder
    {
      Feed(recorder.limit, recorder.texts, View(id))
    }

    method Happen(id: int, recorder: Recorder, doing: Doing) returns (present: Recorder)
      requires recorder.Valid()
      modifies this, recorder, recorder.ring
      ensures present.Valid() && fresh({present, present.ring} - {recorder, recorder.ring})
      ensures Known(id, present) == Do(old(Known(id, recorder)), doing)
      ensures forall other | other != id :: View(other) == old(View(other))
    {
      present := recorder;
      match doing {
        case Published(text) =>
          recorder.Publish(text);
        case Poll(meanwhile, answered) =>
          PollNode(id, recorder, meanwhile, answered);
        case Replaced(limit) =>
          present := new Recorder(limit);
      }
    }

    /** One tick: the node is asked for what comes after the cursor, and the answer, if there is one, is taken in. */
    method PollNode(id: int, recorder: Recorder, meanwhile: seq<string>, answered: bool)
      requires recorder.Valid()
      modifies this, recorder, recorder.ring
      ensures recorder.Valid()
      ensures Known(id, recorder) == Do(old(Known(id, recorder)), Doing.Poll(meanwhile, answered))
      ensures forall other | other != id :: View(other) == old(View(other))
    {
      var since := if id in seen then seen[id] else 0;
      var batch := EventsSince(recorder, meanwhile, since);
      Poll(id, if answered then Some(batch) else None);
    }
  }

  /** Answers a poll: the latest number first, then the events, with others publishing in between. */
  method EventsSince(recorder: Recorder, meanwhile: seq<string>, since: nat) returns (batch: Batch)
    requires recorder.Valid()
    modifies recorder, recorder.ring
    ensures recorder.Valid() && recorder.texts == old(recorder.texts) + meanwhile
    ensures batch == Answer(old(recorder.texts), meanwhile, recorder.limit, since)
  {
    var latest := recorder.Latest();
    var i := 0;
    while i < |meanwhile|
      invariant 0 <= i <= |meanwhile| && recorder.Valid()
      invariant recorder.texts == old(recorder.texts) + meanwhile[..i]
    {
      recorder.Publish(meanwhile[i]);
      i := i + 1;
    }
    assert meanwhile[..i] == meanwhile;
    var events := recorder.Since(since);
    batch := Batch(latest, events);
  }
}
