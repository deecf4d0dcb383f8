/**
 The application as a whole: the authentication gate runs first, then the
 request reaches one of the three routes. `Serve` is one request; `Replay`
 runs a sequence of requests, each with the outcome of its outbound call,
 from a starting token store.
 */
module App {
  import opened Common
  import opened TokenStore
  import RedisBackend
  import HmacGate
  import opened Broker

  /**
   An inbound request, reduced to what the handlers read: the HTTP method and
   path, the `X-Tfc-Task-Signature` header, the raw body (for the gate), the
   body as the intake handler parses it, and the `run_id` query argument.
   */
  datatype Request = Request(
    verb: string,
    path: string,
    signature: Option<string>,
    body: seq<byte>,
    payload: Payload,
    runIdArg: Option<string>)

  /**
   Where a request is dispatched. `ByFramework` requests never reach a view
   function: Flask answers them itself (404 for an unknown path, 405 for a
   method the route does not allow, 200 for the automatic OPTIONS reply).
   */
  datatype Route = ToIntake | ToResolve(d: Decision) | ByFramework(code: int)

  /**
   Flask's dispatch for the three routes. Werkzeug adds HEAD to every rule
   that allows GET, so HEAD on `/approve` and `/reject` runs the view function
   (and so PATCHes and consumes the run) just as GET does; OPTIONS on any of
   the routes gets the automatic 200.
   */
  function RouteOf(verb: string, path: string): (rt: Route)
    ensures rt == ToIntake <==> verb == "POST" && path == HmacGate.GuardedPath
    ensures rt == ToResolve(Approve) <==> (verb == "GET" || verb == "HEAD") && path == PathOf(Approve)
    ensures rt == ToResolve(Reject) <==> (verb == "GET" || verb == "HEAD") && path == PathOf(Reject)
    ensures rt == ByFramework(404) <==> path !in {HmacGate.GuardedPath, PathOf(Approve), PathOf(Reject)}
    ensures rt == ByFramework(200) <==> verb == "OPTIONS" && path in {HmacGate.GuardedPath, PathOf(Approve), PathOf(Reject)}
    ensures rt.ByFramework? ==> rt.code in {200, 404, 405}
  {
    var known := path in {HmacGate.GuardedPath, PathOf(Approve), PathOf(Reject)};
    if !known then ByFramework(404)
    else if verb == "OPTIONS" then ByFramework(200)
    else if path == HmacGate.GuardedPath then (if verb == "POST" then ToIntake else ByFramework(405))
    else if verb != "GET" && verb != "HEAD" then ByFramework(405)
    else if path == PathOf(Approve) then ToResolve(Approve)
    else ToResolve(Reject)
  }

  /** The one run identifier a request may add, change or remove in the store. */
  function Target(req: Request): Option<string> {
    match RouteOf(req.verb, req.path)
    case ToIntake => if req.payload.Fields? then Some(RunIdOf(req.payload)) else None
    case ToResolve(_) => req.runIdArg
    case ByFramework(_) => None
  }

  /** Serve one request; `outboundOk` is the outcome of the chat post or callback PATCH it makes. */
  function Serve(cfg: Config, mac: HmacGate.Mac, s: Store, req: Request, outboundOk: bool): (rep: Reply)
    // a request the gate refuses gets 403 and the store is untouched
    ensures HmacGate.Check(cfg.hmacKey, mac, req.verb, req.path, req.signature, req.body).Deny? ==>
      rep == Reply(403, s, None)
    // a gate crash (non-ASCII signature) answers 500 and the store is untouched
    ensures HmacGate.Check(cfg.hmacKey, mac, req.verb, req.path, req.signature, req.body) == HmacGate.Crash ==>
      rep == Reply(500, s, None)
    // only the guarded intake request is ever refused
    ensures rep.code == 403 ==> HmacGate.Guarded(req.verb, req.path)
    // an intake the gate lets through reaches the broker unchanged
    ensures
      && HmacGate.Check(cfg.hmacKey, mac, req.verb, req.path, req.signature, req.body) == HmacGate.Continue
      && RouteOf(req.verb, req.path) == ToIntake
      ==> rep == Intake(cfg, s, req.payload, outboundOk)
    // the approve and reject routes are never gated
    ensures RouteOf(req.verb, req.path).ToResolve? ==>
      rep == Resolve(s, req.runIdArg, RouteOf(req.verb, req.path).d, outboundOk)
    // requests the framework answers itself change nothing and send nothing
    ensures
      && HmacGate.Check(cfg.hmacKey, mac, req.verb, req.path, req.signature, req.body) == HmacGate.Continue
      && RouteOf(req.verb, req.path).ByFramework?
      ==> rep == Reply(RouteOf(req.verb, req.path).code, s, None)
    // at most the request's own run identifier changes
    ensures forall k :: Some(k) != Target(req) ==> Get(rep.store, k) == Get(s, k)
  {
    var verdict := HmacGate.Check(cfg.hmacKey, mac, req.verb, req.path, req.signature, req.body);
    match verdict
    case Deny(_) => Reply(403, s, None)
    case Crash => Reply(500, s, None)
    case Continue =>
      match RouteOf(req.verb, req.path)
      case ToIntake => Intake(cfg, s, req.payload, outboundOk)
      case ToResolve(d) => Resolve(s, req.runIdArg, d, outboundOk)
      case ByFramework(code) => Reply(code, s, None)
  }

  /** One request together with the outcome of the outbound call it makes. */
  datatype Exchange = Exchange(req: Request, outboundOk: bool)

  /** The replies to a sequence of exchanges and the token store they leave behind. */
  datatype Run = Run(replies: seq<Reply>, store: Store)

  function Replay(cfg: Config, mac: HmacGate.Mac, s: Store, xs: seq<Exchange>): (run: Run)
    ensures |run.replies| == |xs|
    ensures |xs| > 0 ==> run.replies[0] == Serve(cfg, mac, s, xs[0].req, xs[0].outboundOk)
    ensures forall i :: 0 < i < |xs| ==>
      run.replies[i] == Serve(cfg, mac, run.replies[i - 1].store, xs[i].req, xs[i].outboundOk)
    ensures |xs| == 0 ==> run.store == s
    ensures |xs| > 0 ==> run.store == run.replies[|xs| - 1].store
    decreases |xs|
  {
    if |xs| == 0 then Run([], s)
    else
      var first := Serve(cfg, mac, s, xs[0].req, xs[0].outboundOk);
      var rest := Replay(cfg, mac, first.store, xs[1..]);
      Run([first] + rest.replies, rest.store)
  }

  /** The request follows an approve or reject link for run `r`. */
  predicate Resolves(req: Request, r: string) {
    RouteOf(req.verb, req.path).ToResolve? && req.runIdArg == Some(r)
  }

  /**
   Absent runs stay absent: from a store without `r`, requests that never name
   `r` as their target leave `r` out, and every approve or reject of `r` among
   them is answered without any callback and without success.
   */
  lemma {:induction false} AbsentStaysAbsent(cfg: Config, mac: HmacGate.Mac, s: Store, xs: seq<Exchange>, r: string)
    requires r !in s
    requires forall i :: 0 <= i < |xs| && xs[i].req.payload.Fields? ==>
      !(RouteOf(xs[i].req.verb, xs[i].req.path) == ToIntake && RunIdOf(xs[i].req.payload) == r)
    ensures r !in Replay(cfg, mac, s, xs).store
    ensures forall i :: 0 <= i < |xs| && Resolves(xs[i].req, r) ==>
      Replay(cfg, mac, s, xs).replies[i].code in {400, 404} && Replay(cfg, mac, s, xs).replies[i].call == None
    decreases |xs|
  {
    if |xs| > 0 {
      var first := Serve(cfg, mac, s, xs[0].req, xs[0].outboundOk);
      if Resolves(xs[0].req, r) {
        assert first == Resolve(s, Some(r), RouteOf(xs[0].req.verb, xs[0].req.path).d, xs[0].outboundOk);
      } else {
        assert Target(xs[0].req) != Some(r);
      }
      assert r !in first.store;
      AbsentStaysAbsent(cfg, mac, first.store, xs[1..], r);
      var run := Replay(cfg, mac, s, xs);
      var rest := Replay(cfg, mac, first.store, xs[1..]);
      forall i | 0 <= i < |xs| && Resolves(xs[i].req, r)
        ensures run.replies[i].code in {400, 404} && run.replies[i].call == None
      {
        if i > 0 {
          assert run.replies[i] == rest.replies[i - 1];
          assert xs[1..][i - 1] == xs[i];
        }
      }
    }
  }

  /**
   Single use: once an approve or reject of `r` has succeeded, no later request
   can consume `r` again or trigger another callback for it, unless a new
   intake for `r` comes first.
   */
  lemma SingleUse(cfg: Config, mac: HmacGate.Mac, s: Store, x: Exchange, xs: seq<Exchange>, r: string)
    requires Resolves(x.req, r)
    requires Serve(cfg, mac, s, x.req, x.outboundOk).code == 200
    requires forall i :: 0 <= i < |xs| && xs[i].req.payload.Fields? ==>
      !(RouteOf(xs[i].req.verb, xs[i].req.path) == ToIntake && RunIdOf(xs[i].req.payload) == r)
    ensures forall i :: 0 <= i < |xs| && Resolves(xs[i].req, r) ==>
      Replay(cfg, mac, Serve(cfg, mac, s, x.req, x.outboundOk).store, xs).replies[i].call == None
  {
    AbsentStaysAbsent(cfg, mac, Serve(cfg, mac, s, x.req, x.outboundOk).store, xs, r);
  }

  /**
   With the Redis backend, a run nobody resolved until more than 600 seconds after its
   intake is answered exactly like one that never existed: 404, no callback.
   */
  lemma ExpiredRunNotFound(db: RedisBackend.Redis, r: string, data: Pending, t: int, u: int, d: Decision, ok: bool)
    requires r != "" && t + RedisBackend.Ttl < u
    ensures var live := RedisBackend.View(RedisBackend.SetEx(db, r, data, t), u);
            Resolve(live, Some(r), d, ok) == Reply(404, live, None)
  {
  }

  /**
   A HEAD request on an approve link is served by the approve view: with the
   run pending and the PATCH not raising, it answers 200 and consumes the run.
   */
  lemma HeadConsumes(cfg: Config, mac: HmacGate.Mac, s: Store, req: Request, r: string)
    requires req.verb == "HEAD" && req.path == PathOf(Approve) && req.runIdArg == Some(r)
    requires r != "" && r in s
    ensures Serve(cfg, mac, s, req, true) == Reply(200, Remove(s, r), Some(CallbackPatch(s[r].callbackUrl, s[r].accessToken, "passed", Notice(Approve, r))))
  {
  }
}
