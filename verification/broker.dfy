/**
 The approval broker: the bodies of the three routes, as transitions from a
 token store, a request and the outcome of the one outbound HTTP call each of
 them may make, to a response status, the new token store and the call that
 went out.

 - `run_task_check` (intake) validates the payload, stores the run's record,
   builds the approve/reject links and posts them to the chat webhook.
 - `approve` / `reject` (resolve) look the run up, PATCH its callback address
   with status "passed" / "failed", and forget the run only if that PATCH
   succeeded.
 */
module Broker {
  import opened Common
  import opened Text
  import opened TokenStore

  /** The one outbound HTTP call a handler may make, with the arguments it carries. */
  datatype Call =
    | ChatPost(webhook: string, approveLink: string, rejectLink: string)
    | CallbackPatch(url: string, bearer: string, status: string, message: string)

  /** A handler's outcome: HTTP status, the token store afterwards, and the outbound call, if any. */
  datatype Reply = Reply(code: int, store: Store, call: Option<Call>)

  /**
   The intake body as the handler sees it. `Unreadable` stands for a body that
   makes `request.get_json()` raise, or JSON that is truthy but not an object
   (so `.get` raises); a falsy JSON document becomes the empty object, i.e.
   `Fields(None, None, None)`.
   */
  datatype Payload =
    | Unreadable
    | Fields(accessToken: Option<string>, callbackUrl: Option<string>, runId: Option<string>)

  const DefaultRunId := "unknown-run-id"

  /** The key intake files a payload under: its `run_id`, even an empty one, else the sentinel. */
  function RunIdOf(p: Payload): (r: string)
    requires p.Fields?
    ensures p.runId.Some? ==> r == p.runId.value
    ensures p.runId.None? ==> r == DefaultRunId
  {
    p.runId.GetOr(DefaultRunId)
  }

  /** Intake accepts the payload: both the token and the callback address are non-empty. */
  predicate Valid(p: Payload) {
    p.Fields? && Truthy(p.accessToken) && Truthy(p.callbackUrl)
  }

  /** Which link was followed. */
  datatype Decision = Approve | Reject

  /** The route each decision's link points at. */
  function PathOf(d: Decision): string {
    match d
    case Approve => "/approve"
    case Reject => "/reject"
  }

  const RunIdQuery := "?run_id="

  /**
   The run identifier a link carries, read back as plain text: what follows
   `{BASE_PUBLIC_URL}{path}?run_id=` when the link starts that way.
   */
  function LinkedRunId(cfg: Config, d: Decision, link: string): Option<string> {
    var prefix := cfg.basePublicUrl + PathOf(d) + RunIdQuery;
    if |prefix| <= |link| && link[..|prefix|] == prefix then Some(link[|prefix|..]) else None
  }

  /**
   `f"{BASE_PUBLIC_URL}/approve?run_id={run_id}"` and its reject twin, with the
   identifier inserted as is. The link names the run it was built for, and the
   link for one decision is never read as a link for the other.
   */
  function Link(cfg: Config, d: Decision, runId: string): (link: string)
    ensures LinkedRunId(cfg, d, link) == Some(runId)
    ensures forall other :: other != d ==> LinkedRunId(cfg, other, link) == None
  {
    var prefix := cfg.basePublicUrl + PathOf(d) + RunIdQuery;
    var link := prefix + runId;
    assert link[..|prefix|] == prefix;
    var b := |cfg.basePublicUrl|;
    assert link[b + 1] == PathOf(d)[1];
    link
  }

  /**
   `run_task_check`. The store is written before the chat post, so a failed
   post answers 500 and still leaves the run pending and reachable through
   its links.
   */
  function Intake(cfg: Config, s: Store, p: Payload, chatOk: bool): (rep: Reply)
    // an unreadable body fails inside the broad `except`: 500, nothing stored, nothing sent
    ensures p.Unreadable? ==> rep == Reply(500, s, None)
    // validation: 400 exactly when a required field is missing or empty, and then nothing changes
    ensures rep.code == 400 <==> p.Fields? && !Valid(p)
    ensures rep.code == 400 ==> rep.store == s && rep.call == None
    // an accepted payload is filed under its run identifier, and only there
    ensures Valid(p) ==>
      && Get(rep.store, RunIdOf(p)) == Some(Pending(p.accessToken.value, p.callbackUrl.value))
      && (forall k :: k != RunIdOf(p) ==> Get(rep.store, k) == Get(s, k))
    // the chat post carries the two links, and decides between 200 and 500
    ensures Valid(p) ==>
      rep.call == Some(ChatPost(cfg.teamsWebhookUrl, Link(cfg, Approve, RunIdOf(p)), Link(cfg, Reject, RunIdOf(p))))
    ensures Valid(p) ==> rep.code == (if chatOk then 200 else 500)
    ensures rep.code in {200, 400, 500}
  {
    match p
    case Unreadable => Reply(500, s, None)
    case Fields(token, url, _) =>
      if !Truthy(token) || !Truthy(url) then
        Reply(400, s, None)
      else
        var runId := RunIdOf(p);
        var s' := Put(s, runId, Pending(token.value, url.value));
        var post := ChatPost(cfg.teamsWebhookUrl, Link(cfg, Approve, runId), Link(cfg, Reject, runId));
        Reply(if chatOk then 200 else 500, s', Some(post))
  }

  /** The task-result status reported back for a decision. */
  function StatusOf(d: Decision): (status: string)
    ensures status == "passed" <==> d == Approve
    ensures status == "failed" <==> d == Reject
  {
    match d
    case Approve => "passed"
    case Reject => "failed"
  }

  /** The PATCH body's message: `Run {run_id} approved via Teams link.` or `… rejected …`. */
  function Notice(d: Decision, runId: string): (message: string)
    ensures Mentions(message, runId)
  {
    var verdict := match d case Approve => " approved" case Reject => " rejected";
    var message := "Run " + runId + verdict + " via Teams link.";
    assert message[4..4 + |runId|] == runId;
    message
  }

  /**
   `approve` / `reject`, given the `run_id` query argument. The callback goes to
   the stored address with the stored token, and the run is forgotten only
   when the PATCH succeeds; a failed PATCH answers 500 and keeps the run.
   `callbackOk` says the PATCH did not raise: it was delivered and
   `raise_for_status` accepted its status (anything below 400).
   */
  function Resolve(s: Store, runId: Option<string>, d: Decision, callbackOk: bool): (rep: Reply)
    // a missing or empty run_id: 400, nothing read, nothing sent
    ensures !Truthy(runId) ==> rep == Reply(400, s, None)
    // an unknown (never stored, already consumed or expired) run: 404, nothing sent
    ensures Truthy(runId) && runId.value !in s ==> rep == Reply(404, s, None)
    // a pending run: one PATCH to its stored address with its stored token
    ensures Truthy(runId) && runId.value in s ==>
      && rep.call.Some?
      && rep.call.value.CallbackPatch?
      && rep.call.value.url == s[runId.value].callbackUrl
      && rep.call.value.bearer == s[runId.value].accessToken
      && rep.call.value.status == StatusOf(d)
      && Mentions(rep.call.value.message, runId.value)
    // consumed exactly when the callback succeeded
    ensures Truthy(runId) && runId.value in s ==>
      if callbackOk then rep.code == 200 && rep.store == Remove(s, runId.value)
      else rep.code == 500 && rep.store == s
    ensures rep.call.Some? <==> Truthy(runId) && runId.value in s
    ensures rep.store != s ==> rep.code == 200
  {
    if !Truthy(runId) then
      Reply(400, s, None)
    else
      match Get(s, runId.value)
      case None => Reply(404, s, None)
      case Some(data) =>
        var patch := CallbackPatch(data.callbackUrl, data.accessToken, StatusOf(d), Notice(d, runId.value));
        if callbackOk then Reply(200, Remove(s, runId.value), Some(patch))
        else Reply(500, s, Some(patch))
  }

  /**
   Every handler touches at most the one run identifier it names: all other
   entries of the store read the same afterwards.
   */
  lemma IntakeFrame(cfg: Config, s: Store, p: Payload, chatOk: bool, k: string)
    requires !(p.Fields? && RunIdOf(p) == k)
    ensures Get(Intake(cfg, s, p, chatOk).store, k) == Get(s, k)
  {
  }

  lemma ResolveFrame(s: Store, runId: Option<string>, d: Decision, ok: bool, k: string)
    requires runId != Some(k)
    ensures Get(Resolve(s, runId, d, ok).store, k) == Get(s, k)
  {
  }

  /**
   Round trip of a run through the broker: after a valid intake for `r`, either
   decision PATCHes the callback address and token from that intake with the
   decision's status and a message naming `r`; on success `r` is gone and every
   other run is as it was before the intake.
   */
  lemma IntakeThenResolve(cfg: Config, s: Store, p: Payload, chatOk: bool, d: Decision, ok: bool)
    requires Valid(p) && RunIdOf(p) != ""
    ensures var r := RunIdOf(p);
            var rep := Resolve(Intake(cfg, s, p, chatOk).store, Some(r), d, ok);
            && rep.call.Some?
            && rep.call.value == CallbackPatch(p.callbackUrl.value, p.accessToken.value, StatusOf(d), Notice(d, r))
            && (ok ==> rep.code == 200 && rep.store == Remove(s, r))
            && (!ok ==> rep.code == 500 && Get(rep.store, r).Some?)
  {
    var r := RunIdOf(p);
    var s1 := Intake(cfg, s, p, chatOk).store;
    assert s1 == Put(s, r, Pending(p.accessToken.value, p.callbackUrl.value));
    RemoveUndoesPut(s, r, Pending(p.accessToken.value, p.callbackUrl.value));
  }

  /**
   A run is consumed at most once: once a resolve has succeeded, any further
   resolve of the same run, approve or reject, answers 404 and sends nothing
   (the approve-then-reject scenario of tests/test_app.py).
   */
  lemma ConsumedOnce(s: Store, r: string, first: Decision, second: Decision, ok: bool)
    requires Resolve(s, Some(r), first, true).code == 200
    ensures Resolve(Resolve(s, Some(r), first, true).store, Some(r), second, ok) == Reply(404, Remove(s, r), None)
  {
  }

  /** A failed callback leaves the run pending, and a retry sends the very same PATCH. */
  lemma FailedCallbackRetries(s: Store, r: string, d: Decision, again: Decision, ok: bool)
    requires Truthy(Some(r)) && r in s
    ensures var failed := Resolve(s, Some(r), d, false);
            && failed.code == 500
            && Resolve(failed.store, Some(r), again, ok).call
               == Some(CallbackPatch(s[r].callbackUrl, s[r].accessToken, StatusOf(again), Notice(again, r)))
  {
  }

  /**
   The run identifier survives the framework's query-string decoding as is:
   no `&` (argument separator), `#` (fragment, never sent by a browser), `+`
   (decoded as a space) or `%` (start of an escape). The links insert the
   identifier without URL encoding, so only such identifiers read back intact.
   */
  predicate QuerySafe(runId: string) {
    forall k :: 0 <= k < |runId| ==> runId[k] !in "&#+%"
  }

  /**
   For a query-safe run identifier, the links posted to chat lead back to the
   stored run, whether or not the post itself succeeded: a failed post answers
   500 but leaves the run pending, and following either link PATCHes the run's
   callback.
   */
  lemma PostedLinksReachRun(cfg: Config, s: Store, p: Payload, chatOk: bool, d: Decision, ok: bool)
    requires Valid(p) && RunIdOf(p) != "" && QuerySafe(RunIdOf(p))
    ensures var rep := Intake(cfg, s, p, chatOk);
            var link := match d case Approve => rep.call.value.approveLink case Reject => rep.call.value.rejectLink;
            && rep.call.Some? && rep.call.value.ChatPost?
            && LinkedRunId(cfg, d, link) == Some(RunIdOf(p))
            && Resolve(rep.store, LinkedRunId(cfg, d, link), d, ok).call.Some?
  {
  }

  /**
   A payload whose `run_id` is the empty string is stored under "", but no link
   can consume it: resolving "" is refused with 400 before the store is read.
   */
  lemma EmptyRunIdUnreachable(cfg: Config, s: Store, token: string, url: string, d: Decision, chatOk: bool, ok: bool)
    requires token != "" && url != ""
    ensures var stored := Intake(cfg, s, Fields(Some(token), Some(url), Some("")), chatOk).store;
            && "" in stored
            && Resolve(stored, Some(""), d, ok) == Reply(400, stored, None)
  {
  }
}
