/** Crash transparency: an acceptor that crashes, restarts and loses saves answers like one that never stops
    (pkg/paxos/acceptor.go:36-188, pkg/paxostest/harness.go:243-271). */
module Durability {
  import opened Wrappers
  import opened Acceptors

  /** The life of one node: requests reach it, it crashes, it is restarted over its store. */
  datatype Moment = Arrive(req: Request, save: SaveOutcome) | Fall | Rise

  function Live(id: int, m: Machine, moment: Moment): (Machine, Option<Reply>) {
    match moment
    case Arrive(req, save) => Handle(id, m, req, save)
    case Fall => (Crash(m), None)
    case Rise => (Restart(m), None)
  }

  /** The replies a machine gives over its life, in order. */
  function Replies(id: int, m: Machine, life: seq<Moment>): seq<Reply>
    decreases |life|
  {
    if life == [] then []
    else
      var (m', reply) := Live(id, m, life[0]);
      (if reply.Some? then [reply.value] else []) + Replies(id, m', life[1..])
  }

  /** A request given to the acceptor that never stops, and whether its reply is to be heard. */
  datatype Feed = Feed(req: Request, heard: bool)

  /** An acceptor with no disk and no crashes. */
  function Serve(st: AcceptorState, req: Request): AcceptorState {
    if Admits(st, req.ballot) then Next(st, req) else st
  }

  /** Its replies that are to be heard. */
  function Heard(id: int, st: AcceptorState, feeds: seq<Feed>): seq<Reply>
    decreases |feeds|
  {
    if feeds == [] then []
    else (if feeds[0].heard then [Answer(id, st, feeds[0].req)] else []) + Heard(id, Serve(st, feeds[0].req), feeds[1..])
  }

  /** The life seen from outside the node's memory: whether the node is up, and the request whose write was reported as
      failed but sits on the disk. */
  datatype Outside = Outside(up: bool, pending: Option<Request>)

  /** The requests that count: those answered, whose save succeeded or was not needed, and at a restart the pending one,
      unheard, as if it arrived at that moment. st is the state of the acceptor fed with them. */
  function Fed(st: AcceptorState, o: Outside, life: seq<Moment>): seq<Feed>
    decreases |life|
  {
    if life == [] then []
    else
      var rest := life[1..];
      match life[0]
      case Arrive(req, save) =>
        if !o.up then Fed(st, o, rest)
        else if !Admits(st, req.ballot) then [Feed(req, true)] + Fed(st, o, rest)
        else (match save
              case Saved => [Feed(req, true)] + Fed(Next(st, req), Outside(true, None), rest)
              case Refused => Fed(st, o, rest)
              case Ambiguous => Fed(st, Outside(true, Some(req)), rest))
      case Fall => Fed(st, o.(up := false), rest)
      case Rise =>
        if o.pending.None? then Fed(st, Outside(true, None), rest)
        else [Feed(o.pending.value, false)] + Fed(Next(st, o.pending.value), Outside(true, None), rest)
  }

  /** The machine is the never-stopping acceptor in state st, but for a pending write. */
  ghost predicate Mirrors(m: Machine, st: AcceptorState, o: Outside) {
    && (if o.up then m.mem == Some(st) else m.mem.None?)
    && (match o.pending
        case None => m.disk == st
        case Some(req) => Admits(st, req.ballot) && m.disk == Next(st, req))
  }

  lemma {:induction false} MirrorsAnswerAlike(id: int, m: Machine, st: AcceptorState, o: Outside, life: seq<Moment>)
    requires Mirrors(m, st, o)
    ensures Replies(id, m, life) == Heard(id, st, Fed(st, o, life))
    decreases |life|
  {
    if life != [] {
      var rest := life[1..];
      var (m', reply) := Live(id, m, life[0]);
      match life[0]
      case Arrive(req, save) =>
        if !o.up || (Admits(st, req.ballot) && save.Refused?) {
          MirrorsAnswerAlike(id, m', st, o, rest);
        } else if !Admits(st, req.ballot) {
          MirrorsAnswerAlike(id, m', st, o, rest);
          FeedFirst(id, st, Feed(req, true), Fed(st, o, rest));
        } else if save.Saved? {
          MirrorsAnswerAlike(id, m', Next(st, req), Outside(true, None), rest);
          FeedFirst(id, st, Feed(req, true), Fed(Next(st, req), Outside(true, None), rest));
        } else {
          MirrorsAnswerAlike(id, m', st, Outside(true, Some(req)), rest);
        }
      case Fall => MirrorsAnswerAlike(id, m', st, o.(up := false), rest);
      case Rise =>
        if o.pending.None? {
          MirrorsAnswerAlike(id, m', st, Outside(true, None), rest);
        } else {
          var req := o.pending.value;
          MirrorsAnswerAlike(id, m', Next(st, req), Outside(true, None), rest);
          FeedFirst(id, st, Feed(req, false), Fed(Next(st, req), Outside(true, None), rest));
        }
    }
  }

  lemma {:induction false} FeedFirst(id: int, st: AcceptorState, feed: Feed, rest: seq<Feed>)
    ensures Heard(id, st, [feed] + rest)
         == (if feed.heard then [Answer(id, st, feed.req)] else []) + Heard(id, Serve(st, feed.req), rest)
  {
    assert ([feed] + rest)[1..] == rest;
  }

  /** Whatever crashes, restarts and failed saves a node goes through, its replies are those of an acceptor that never
      stops and is fed the requests that count. */
  lemma {:induction false} CrashTransparency(id: int, life: seq<Moment>)
    ensures Replies(id, FRESH, life) == Heard(id, EMPTY, Fed(EMPTY, Outside(true, None), life))
  {
    MirrorsAnswerAlike(id, FRESH, EMPTY, Outside(true, None), life);
  }

  // ---- when save errors are truthful ----

  predicate Truthful(life: seq<Moment>) {
    forall moment | moment in life && moment.Arrive? :: !moment.save.Ambiguous?
  }

  /** The requests that reach the node while it is up, less those it admitted but could not save. */
  function Effective(st: AcceptorState, up: bool, life: seq<Moment>): seq<Request>
    decreases |life|
  {
    if life == [] then []
    else
      match life[0]
      case Arrive(req, save) =>
        if up && (!Admits(st, req.ballot) || save.Saved?) then [req] + Effective(Serve(st, req), up, life[1..])
        else Effective(st, up, life[1..])
      case Fall => Effective(st, false, life[1..])
      case Rise => Effective(st, true, life[1..])
  }

  function Heed(reqs: seq<Request>): (feeds: seq<Feed>)
    ensures |feeds| == |reqs|
  {
    seq(|reqs|, i requires 0 <= i < |reqs| => Feed(reqs[i], true))
  }

  lemma {:induction false} TruthfulFeeds(st: AcceptorState, up: bool, life: seq<Moment>)
    requires Truthful(life)
    ensures Fed(st, Outside(up, None), life) == Heed(Effective(st, up, life))
    decreases |life|
  {
    if life != [] {
      assert life[0] in life;
      match life[0]
      case Arrive(req, save) =>
        TruthfulFeeds(if up then Serve(st, req) else st, up, life[1..]);
        TruthfulFeeds(st, up, life[1..]);
      case Fall => TruthfulFeeds(st, false, life[1..]);
      case Rise => TruthfulFeeds(st, true, life[1..]);
    }
  }

  /** With truthful save errors every reply of the never-stopping acceptor is heard, and it is fed exactly the requests
      whose save succeeded or was not needed. */
  lemma {:induction false} TruthfulTransparency(id: int, life: seq<Moment>)
    requires Truthful(life)
    ensures Replies(id, FRESH, life) == Heard(id, EMPTY, Heed(Effective(EMPTY, true, life)))
  {
    CrashTransparency(id, life);
    TruthfulFeeds(EMPTY, true, life);
  }
}
