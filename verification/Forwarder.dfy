/** core/mcp/forwarder.go: the upstream session of a gateway, with one re-initialise and one retry
    after a stale session. */
module Forwarder {
  import opened Wrappers
  import S = Sse

  datatype Request = Request(id: string, call: string, params: string)

  const INITIALIZE := "initialize"
  const HANDSHAKE :=
    "{\"protocolVersion\":\"2025-03-26\",\"capabilities\":{}," +
    "\"clientInfo\":{\"name\":\"gateway\",\"version\":\"1.0.0\"}}"

  /** What comes of one attempt to post: it never leaves, the transport fails, or there is a reply,
      whose body may break off. */
  datatype Reply =
    | Unsent
    | NetError
    | Http(status: int, session: string, eventStream: bool, body: string, complete: bool)

  datatype Error = NotSent | Transport | Status(code: int) | Decode

  /** Nothing is the nil response with the nil error. */
  datatype Result = Answer(response: string) | Failure(error: Error) | Nothing

  datatype Attempt = Attempt(request: Request, session: string, reply: Reply)

  type Json = string -> Option<string>

  predicate Initializes(r: Request) {
    r.call == INITIALIZE
  }

  predicate Rejected(reply: Reply) {
    reply.Http? && (reply.status == 404 || reply.status == 400)
  }

  /** A request that carried a session and was turned away. */
  predicate Stale(a: Attempt) {
    a.session != "" && !Initializes(a.request) && Rejected(a.reply)
  }

  function Decoded(json: Json, reply: Reply): Option<string>
    requires reply.Http?
  {
    var text :=
      if reply.eventStream then S.FirstData(S.SplitLines(reply.body))
      else if reply.complete then Some(reply.body)
      else None;
    if text.None? then None else json(text.value)
  }

  function ResultOf(json: Json, a: Attempt): Result {
    if Stale(a) then Nothing
    else
      match a.reply
      case Unsent => Failure(NotSent)
      case NetError => Failure(Transport)
      case Http(status, _, _, _, _) =>
        if status != 200 then Failure(Status(status))
        else
          var text := Decoded(json, a.reply);
          if text.None? then Failure(Decode) else Answer(text.value)
  }

  /** A response and an error as Go returns them. */
  function Returned(response: Option<string>, error: Option<Error>): Result {
    if error.Some? then Failure(error.value) else if response.Some? then Answer(response.value) else Nothing
  }

  /** The cached session after an attempt: an initialize reply's own session is kept whatever its
      status, and a stale rejection empties the cache whatever it holds by then. */
  function CacheAfter(cached: string, a: Attempt): string {
    if Initializes(a.request) && a.reply.Http? && a.reply.session != "" then a.reply.session
    else if Stale(a) then ""
    else cached
  }

  function Reinitialize(r: Request): Request {
    Request(r.id, INITIALIZE, HANDSHAKE)
  }

  // ---------- one call ----------

  datatype Turn = Send(request: Request) | Done(result: Result)

  /** What a call does next, given its attempts so far. */
  function Next(json: Json, req: Request, log: seq<Attempt>): Turn {
    if |log| == 0 then Send(req)
    else if |log| == 1 then if Stale(log[0]) then Send(Reinitialize(req)) else Done(ResultOf(json, log[0]))
    else if |log| == 2 then if ResultOf(json, log[1]).Failure? then Done(ResultOf(json, log[1])) else Send(req)
    else Done(ResultOf(json, log[2]))
  }

  /** The attempts of one call, each the one that was due. */
  predicate Legal(json: Json, req: Request, log: seq<Attempt>) {
    log == [] || (Legal(json, req, log[..|log| - 1])
        && Next(json, req, log[..|log| - 1]) == Send(log[|log| - 1].request))
  }

  /** The shapes a call's attempts can have. */
  lemma {:induction false} LegalShape(json: Json, req: Request, log: seq<Attempt>)
    requires Legal(json, req, log)
    ensures |log| <= 3
    ensures |log| >= 1 ==> log[0].request == req
    ensures |log| >= 2 ==> Stale(log[0]) && log[1].request == Reinitialize(req)
    ensures |log| == 3 ==> !ResultOf(json, log[1]).Failure? && log[2].request == req
    ensures |log| >= 2 ==> !Initializes(req)
  {
    if log != [] {
      LegalShape(json, req, log[..|log| - 1]);
    }
  }

  /** The posts that may have been carried out upstream: those with an answer other than 404 or 400,
      and those whose answer was lost. */
  predicate MaybeCarriedOut(a: Attempt) {
    a.reply.NetError? || (a.reply.Http? && a.reply.status !in {400, 404})
  }

  /** The text of a reply: the whole body of a plain reply, which must be complete, or the first line of a
      stream that starts with "data:"; and the JSON reader must take it. */
  lemma DecodedIs(json: Json, reply: Reply, k: nat)
    requires reply.Http?
    ensures !reply.eventStream ==> Decoded(json, reply) == if reply.complete then json(reply.body) else None
    ensures var lines := S.SplitLines(reply.body);
            reply.eventStream && k <= |lines| && (forall i | 0 <= i < k :: !("data:" <= lines[i]))
            && (k < |lines| ==> "data:" <= lines[k]) ==>
              Decoded(json, reply) == if k < |lines| then json(S.Trim(lines[k][5..], S.GoSpace)) else None
  {
    var lines := S.SplitLines(reply.body);
    if k <= |lines| && (forall i | 0 <= i < k :: !("data:" <= lines[i])) && (k < |lines| ==> "data:" <= lines[k]) {
      S.FirstDataIs(lines, k);
    }
  }

  /** A call returns what its last reply comes to. */
  lemma LastReplyDecides(json: Json, req: Request, log: seq<Attempt>)
    requires Legal(json, req, log) && Next(json, req, log).Done?
    ensures log != []
    ensures var a, r := log[|log| - 1], Next(json, req, log).result;
            var turned := a.reply.Http? && a.reply.status in {400, 404} && a.session != ""
              && a.request.call != "initialize";
            && (a.reply == Unsent ==> r == Failure(NotSent))
            && (a.reply == NetError ==> r == Failure(Transport))
            && (a.reply.Http? && a.reply.status != 200 ==>
              r == if turned then Nothing else Failure(Status(a.reply.status)))
            && (a.reply.Http? && a.reply.status == 200 ==>
                  match Decoded(json, a.reply)
                  case None => r == Failure(Decode)
                  case Some(text) => r == Answer(text) && a.request == req)
  {
    LegalShape(json, req, log);
  }

  /** What the first reply leads to: a 404 or 400 under a session, to anything but an initialize, leads to
      an initialize with the same ID; every other reply ends the call, with the status when it is not 200. */
  lemma FirstReplyDecides(json: Json, req: Request, a: Attempt)
    requires a.request == req && a.reply.Http?
    ensures var turned := a.reply.status in {400, 404} && a.session != "" && req.call != "initialize";
            && (Next(json, req, [a]).Send? <==> turned)
            && (turned ==> Next(json, req, [a]).request == Request(req.id, "initialize",
                  "{\"protocolVersion\":\"2025-03-26\",\"capabilities\":{}," +
                  "\"clientInfo\":{\"name\":\"gateway\",\"version\":\"1.0.0\"}}"))
            && (!turned && a.reply.status != 200 ==> Next(json, req, [a]) == Done(Failure(Status(a.reply.status))))
            && (!turned && a.reply.status == 200 ==>
                  match Decoded(json, a.reply)
                  case None => Next(json, req, [a]) == Done(Failure(Decode))
                  case Some(text) => Next(json, req, [a]) == Done(Answer(text)))
  {
  }

  /** The cache keeps the session of an initialize reply whatever its status, is emptied by a 404 or 400 to
      any other request that carried a session, and stays as it is otherwise. */
  lemma CacheAfterIs(cached: string, a: Attempt)
    ensures a.request.call == "initialize" && a.reply.Http? && a.reply.session != "" ==>
              CacheAfter(cached, a) == a.reply.session
    ensures a.request.call != "initialize" && a.reply.Http? && a.reply.status in {400, 404} && a.session != "" ==>
              CacheAfter(cached, a) == ""
    ensures !a.reply.Http? ==> CacheAfter(cached, a) == cached
    ensures a.request.call == "initialize" && a.reply.Http? && a.reply.session == "" ==> CacheAfter(cached, a) == cached
    ensures a.request.call != "initialize" && a.reply.Http? && (a.reply.status !in {400, 404} || a.session == "") ==>
              CacheAfter(cached, a) == cached
  {
  }

  /** Delivery is at most once: of two posts of the original request the first was turned away, and
      at most one may have been carried out. A call never makes more than three posts. */
  lemma AtMostOnce(json: Json, req: Request, log: seq<Attempt>, i: nat, j: nat)
    requires Legal(json, req, log) && i < j < |log|
    requires log[i].request == req && log[j].request == req
    ensures |log| <= 3 && i == 0 && j == 2
    ensures log[0].reply.Http? && log[0].reply.status in {400, 404} && log[0].session != ""
    ensures req.call != "initialize" && !MaybeCarriedOut(log[i])
    ensures log[1].reply.Http? && log[1].reply.status == 200
  {
    LegalShape(json, req, log);
    assert log[1].request != req;
  }

  /** A lost answer or a failed transport is never retried. */
  lemma TransportFailureIsFinal(json: Json, req: Request, log: seq<Attempt>, i: nat)
    requires Legal(json, req, log) && i < |log|
    requires log[i].reply == NetError || log[i].reply == Unsent
    ensures i == |log| - 1
    ensures Next(json, req, log) == Done(Failure(if log[i].reply == NetError then Transport else NotSent))
  {
    LegalShape(json, req, log);
  }

  /** A call retries exactly when its first attempt was stale and the initialize that followed gave a
      readable 200 reply. */
  lemma RetriesIff(json: Json, req: Request, log: seq<Attempt>)
    requires Legal(json, req, log) && Next(json, req, log).Done?
    ensures |log| == 1 <==> !Stale(log[0])
    ensures |log| == 3 <==> Stale(log[0]) && |log| > 1 && log[1].reply.Http? && log[1].reply.status == 200
                            && Decoded(json, log[1].reply).Some?
  {
    LegalShape(json, req, log);
  }

  /** Neither a response nor an error: exactly when the retry is turned away as well. */
  lemma NothingIffStaleTwice(json: Json, req: Request, log: seq<Attempt>)
    requires Legal(json, req, log) && Next(json, req, log).Done?
    ensures Next(json, req, log).result == Nothing <==> |log| == 3 && Stale(log[2])
  {
    LegalShape(json, req, log);
  }

  // ---------- the cache along a call ----------

  /** The session in the cache when the next attempt reads it: other calls may have replaced it. */
  function Seen(meddled: nat -> Option<string>, at: nat, cached: string): string {
    if meddled(at).Some? then meddled(at).value else cached
  }

  function CacheRun(meddled: nat -> Option<string>, base: nat, cached: string, log: seq<Attempt>): string {
    if log == [] then cached
    else
      var n := |log| - 1;
      CacheAfter(Seen(meddled, base + n, CacheRun(meddled, base, cached, log[..n])), log[n])
  }

  /** Every attempt carries the session the cache held when it was read. */
  predicate HeadersFollow(meddled: nat -> Option<string>, base: nat, cached: string, log: seq<Attempt>) {
    log == [] ||
    var n := |log| - 1;
    && HeadersFollow(meddled, base, cached, log[..n])
    && log[n].session == Seen(meddled, base + n, CacheRun(meddled, base, cached, log[..n]))
  }

  lemma NoneYet(json: Json, req: Request, meddled: nat -> Option<string>, base: nat, cached: string)
    ensures Legal(json, req, []) && HeadersFollow(meddled, base, cached, [])
      && CacheRun(meddled, base, cached, []) == cached
  {
  }

  lemma OneMore(json: Json, req: Request, meddled: nat -> Option<string>, base: nat, cached: string,
      log: seq<Attempt>, a: Attempt)
    requires Legal(json, req, log) && HeadersFollow(meddled, base, cached, log)
    requires Next(json, req, log) == Send(a.request)
    requires a.session == Seen(meddled, base + |log|, CacheRun(meddled, base, cached, log))
    ensures Legal(json, req, log + [a]) && HeadersFollow(meddled, base, cached, log + [a])
    ensures CacheRun(meddled, base, cached, log + [a]) == CacheAfter(a.session, a)
  {
    assert (log + [a])[..|log|] == log;
  }

  /** Without other callers the initialize carries no session, the retry carries the one it was just
      given, and a retry can only be turned away as stale when it was given one. */
  lemma AloneTheRetryUsesTheNewSession(json: Json, req: Request, meddled: nat -> Option<string>, base: nat,
      cached: string, log: seq<Attempt>)
    requires Legal(json, req, log) && HeadersFollow(meddled, base, cached, log)
    requires forall i | base <= i < base + |log| :: meddled(i).None?
    requires |log| == 3
    ensures log[0].session == cached && log[1].session == "" && log[2].session == log[1].reply.session
    ensures Next(json, req, log) == Done(Nothing) <==> log[1].reply.session != "" && Rejected(log[2].reply)
    ensures Next(json, req, log) == Done(Nothing) ==> CacheRun(meddled, base, cached, log) == ""
  {
    LegalShape(json, req, log);
    var a, b := log[..2], log[..1];
    assert a[..1] == b && b[..0] == [] && a[1] == log[1] && b[0] == log[0];
    assert HeadersFollow(meddled, base, cached, a) && HeadersFollow(meddled, base, cached, b);
    assert CacheRun(meddled, base, cached, []) == cached;
    assert CacheRun(meddled, base, cached, b) == "";
    assert CacheRun(meddled, base, cached, a) == log[1].reply.session;
  }

  /** A reply printed as an event decodes like the complete plain reply with the same text, also when
      the stream breaks off anywhere after that event. */
  lemma EventStreamReplyDecodesAlike(json: Json, status: int, session: string, name: string, data: string, more: string,
                                     complete: bool)
    requires '\n' !in name && '\n' !in data && S.Tight(data, S.GoSpace)
    ensures Decoded(json, Http(status, session, true, S.Printed(S.Event(name, data)) + more, complete))
            == Decoded(json, Http(status, session, false, data, true))
  {
    S.FirstDataOfPrinted(S.Event(name, data), more);
  }

  // ---------- the forwarder ----------

  class UpstreamForwarder {
    const json: Json
    const replies: nat -> Reply
    const meddled: nat -> Option<string>
    var upstreamSessionID: string
    var attempts: seq<Attempt>

    constructor (json: Json, replies: nat -> Reply, meddled: nat -> Option<string>)
      ensures this.json == json && this.replies == replies && this.meddled == meddled
      ensures upstreamSessionID == "" && attempts == []
    {
      this.json, this.replies, this.meddled := json, replies, meddled;
      upstreamSessionID, attempts := "", [];
    }

    method DecodeUpstreamResponse(reply: Reply) returns (text: Option<string>)
      requires reply.Http?
      ensures text == Decoded(json, reply)
    {
      if reply.eventStream {
        var data := S.ReadFirstSSEData(reply.body);
        if data.None? {
          return None;
        }
        return json(data.value);
      }
      if !reply.complete {
        return None;
      }
      return json(reply.body);
    }

    method DoRequest(req: Request) returns (response: Option<string>, stale: bool, error: Option<Error>)
      modifies this
      ensures var cached := Seen(meddled, |old(attempts)|, old(upstreamSessionID));
              var a := Attempt(req, cached, replies(|old(attempts)|));
              && attempts == old(attempts) + [a]
              && upstreamSessionID == CacheAfter(cached, a)
              && (stale <==> Stale(a)) && (stale ==> error.None?)
              && ResultOf(json, a) == Returned(response, error)
    {
      var at := |attempts|;
      if meddled(at).Some? {
        upstreamSessionID := meddled(at).value;
      }
      var sessionID, reply := upstreamSessionID, replies(at);
      attempts := attempts + [Attempt(req, sessionID, reply)];
      if reply.Unsent? {
        return None, false, Some(NotSent);
      }
      if reply.NetError? {
        return None, false, Some(Transport);
      }
      if req.call == INITIALIZE {
        if reply.session != "" {
          upstreamSessionID := reply.session;
        }
      }
      if sessionID != "" && req.call != INITIALIZE && (reply.status == 404 || reply.status == 400) {
        upstreamSessionID := "";
        return None, true, None;
      }
      if reply.status != 200 {
        return None, false, Some(Status(reply.status));
      }
      var text := DecodeUpstreamResponse(reply);
      if text.None? {
        return None, false, Some(Decode);
      }
      return text, false, None;
    }

    method RevalidateSession(original: Request) returns (error: Option<Error>)
      modifies this
      ensures var cached := Seen(meddled, |old(attempts)|, old(upstreamSessionID));
              var a := Attempt(Reinitialize(original), cached, replies(|old(attempts)|));
              && attempts == old(attempts) + [a]
              && upstreamSessionID == CacheAfter(cached, a)
              && (error.Some? <==> ResultOf(json, a).Failure?)
              && (error.Some? ==> ResultOf(json, a).error == error.value)
    {
      var _, _, e := DoRequest(Request(original.id, INITIALIZE, HANDSHAKE));
      return e;
    }

    /** A call makes exactly the attempts that are due, each under the session cached at the time,
        and returns what they come to. */
    method Handle(req: Request) returns (response: Option<string>, error: Option<Error>, ghost log: seq<Attempt>)
      modifies this
      ensures attempts == old(attempts) + log
      ensures Legal(json, req, log) && HeadersFollow(meddled, |old(attempts)|, old(upstreamSessionID), log)
      ensures upstreamSessionID == CacheRun(meddled, |old(attempts)|, old(upstreamSessionID), log)
      ensures Next(json, req, log) == Done(Returned(response, error))
    {
      hide Legal, HeadersFollow, CacheRun, CacheAfter, Seen, Stale, ResultOf;
      var stale;
      ghost var base, cached := |attempts|, upstreamSessionID;
      log := [];
      NoneYet(json, req, meddled, base, cached);
      response, stale, error := DoRequest(req);
      OneMore(json, req, meddled, base, cached, log, attempts[base]);
      log := log + [attempts[base]];
      if error.Some? {
        return None, error, log;
      }
      if stale {
        error := RevalidateSession(req);
        OneMore(json, req, meddled, base, cached, log, attempts[base + 1]);
        log := log + [attempts[base + 1]];
        if error.Some? {
          return None, error, log;
        }
        response, stale, error := DoRequest(req);
        OneMore(json, req, meddled, base, cached, log, attempts[base + 2]);
        log := log + [attempts[base + 2]];
      }
    }
  }
}
