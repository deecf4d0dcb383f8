# Run-approval token broker — Dafny model

This project models the core of a small webhook relay that sits between an
infrastructure-automation run task and a chat channel. When a run needs human
approval, the automation service POSTs the run's bearer token and callback
address to `/run-task-check`; the relay keeps them in an ephemeral token store
keyed by `run_id`, posts approve/reject links to the chat webhook, and, when a
human follows a link (`GET /approve` or `GET /reject`), PATCHes the run's
callback address with status `passed` or `failed` and forgets the run. An
HMAC-SHA-512 gate with a four-case policy guards the intake endpoint.

The model is functional: the token store is an immutable `map<string, Pending>`,
each handler is a pure function from (store, request, outcome of its one
outbound HTTP call) to (status code, new store, the call it made), and the
HMAC is a function parameter. Modules:

- `Common` — `Option`, `Truthy` (Python truthiness of an absent-or-string value), `byte`, the configuration record (webhook URL, public base URL, HMAC key).
- `Text` — Python's `str.strip()` (with the exact `str.isspace()` character set), ASCII-ness, "mentions".
- `TokenStore` — `store_token` / `get_token` / `remove_token` over the in-memory map.
- `RedisBackend` — the Redis backend (`SETEX` with a 600-second TTL, `GET`, `DEL`) at an explicit time `now`, proved to behave as the in-memory map at every instant, with expiry only ever removing entries.
- `HmacGate` — `verify_hmac`.
- `Broker` — `run_task_check`, `approve`, `reject`.
- `App` — the gate followed by routing (`Serve`), a replay of request sequences, and the single-use property over whole sequences.

Behaviour worth knowing, as the code has it:

- The run is not deleted before the callback: resolve removes it from the
  store only after the callback PATCH did not raise (app.py lines 275-284 and
  323-332); a failed PATCH answers 500 and the run stays pending and can be
  retried.
- There is no bypass / auto-approve path, no `/teams-approval` endpoint and no
  test-stage shortcut in `app.py`; they appear only in the test file and are
  not modelled.
- A signature header of whitespace only counts as present, and is stripped
  before comparison: with a key configured it is refused as a bad signature,
  without one as an unexpected signature.
- `hmac.compare_digest` raises `TypeError` when handed a string with non-ASCII
  characters; raised from the before-request hook this becomes a 500, not a 403
  (`HmacGate.Verdict.Crash`).

## Model

| member | source | states |
|---|---|---|
| Text.LeadingSpace | build/python/app.py:116 | the count is the length of the longest whitespace prefix: all characters before it are whitespace and the next one is not |
| Text.TrailingSpace | build/python/app.py:116 | the count is the length of the longest whitespace suffix |
| Text.Strip | build/python/app.py:116 | `strip()` yields a slice of the header with only whitespace cut from either end and none left at either end of the result |
| Text.StripAtCanonical | build/python/app.py:116 | every admissible cut yields the same slice as `Strip` |
| Text.StripUnique | build/python/app.py:116 | the stripped form is unique, so the characterisation of `Strip` is complete |
| Text.StripIdempotent | build/python/app.py:116 | stripping twice equals stripping once |
| Text.StripBlank | build/python/app.py:112-116 | a whitespace-only header strips to the empty string |
| TokenStore.Get | build/python/app.py:58-70 | `get_token` returns the kept record exactly when the run is present, else `None` |
| TokenStore.Put | build/python/app.py:47-56 | after `store_token(r, d)`, `get_token(r) == d`; every other run reads the same; the key set grows by `r` only |
| TokenStore.Remove | build/python/app.py:72-80 | after `remove_token(r)`, `get_token(r)` is `None`; every other run reads the same |
| TokenStore.PutOverwrites | build/python/app.py:47-56 | a later store under the same run replaces the earlier one |
| TokenStore.RemoveAbsent | build/python/app.py:79-80 | removing an absent run is a no-op |
| TokenStore.RemoveIdempotent | build/python/app.py:72-80 | removing twice equals removing once |
| TokenStore.RemoveUndoesPut | build/python/app.py:47-80 | storing then removing a run leaves the store as removing alone would |
| TokenStore.DistinctKeysCommute | build/python/app.py:47-80 | operations on different runs commute |
| RedisBackend.View | build/python/app.py:63-68 | the live contents at `now` are exactly the unexpired keys, with their records |
| RedisBackend.SetEx | build/python/app.py:52-54 | `SETEX` makes the run live now with the given record and leaves other keys as they were |
| RedisBackend.GetAt | build/python/app.py:63-68 | `GET` returns the record exactly when the key is present and unexpired |
| RedisBackend.Del | build/python/app.py:76-77 | `DEL` drops the key and leaves other keys as they were |
| RedisBackend.GetAtIsGet | build/python/app.py:58-70 | reading Redis equals `get_token` on the in-memory view |
| RedisBackend.SetExIsPut | build/python/app.py:47-56 | `SETEX` changes the live view exactly as the in-memory `store_token` does |
| RedisBackend.DelIsRemove | build/python/app.py:72-80 | `DEL` changes the live view exactly as the in-memory `remove_token` does |
| RedisBackend.ExpiryOnlyRemoves | build/python/app.py:54 | the passage of time only removes runs, never adds or alters one |
| RedisBackend.StoredRecordLifetime | build/python/app.py:47-54 | a run stored at instant t is readable at every instant u with t <= u <= t + 600 and at none later, when nothing rewrites its key (Redis expires a key only once the clock is past its expiry instant) |
| HmacGate.Check | build/python/app.py:100-143 | other paths and methods pass; on POST /run-task-check a request passes iff key configured ⇔ signature present and, when both, the digest equals the stripped signature; each of the three refusals (bad, unexpected, missing signature) and the non-ASCII 500 happens exactly in its case |
| HmacGate.DigestHasNoSpace | build/python/app.py:118-122 | a hex digest contains no whitespace |
| HmacGate.StripKeepsDigest | build/python/app.py:116-124 | a digest padded with whitespace strips back to the digest |
| HmacGate.AcceptedMeansAuthentic | build/python/app.py:115-129 | under a configured key, an accepted request's stripped signature is a 128-digit hex string equal to the body's digest |
| HmacGate.BlankSignatureRefused | build/python/app.py:111-138 | a whitespace-only header counts as a signature and is refused: bad signature with a key, unexpected signature without |
| HmacGate.MatchingSignatureAccepted | build/python/app.py:115-129 | a non-empty header that strips to the digest is accepted |
| HmacGate.GoodSignatureAccepted | build/python/app.py:115-129 | the correct digest, bare or padded, is accepted |
| Broker.RunIdOf | build/python/app.py:174 | the run id is the payload's `run_id` when present (even empty), else `unknown-run-id` |
| Broker.Link | build/python/app.py:196-197 | the approve/reject link read back after `{BASE_PUBLIC_URL}{path}?run_id=` yields the run id, and a link for one decision never reads as one for the other |
| Broker.Intake | build/python/app.py:168-236 | unreadable body: 500, nothing changes; 400 exactly when token or callback URL is missing or empty, store unchanged; otherwise the run maps to exactly {token, callback URL}, other runs unchanged, one chat post carrying both links, 200 iff the post succeeded else 500 with the run still stored |
| Broker.StatusOf | build/python/app.py:265-313 | approve reports `passed`, reject reports `failed`, and no other way round |
| Broker.Notice | build/python/app.py:266-314 | the callback message mentions the run id |
| Broker.Resolve | build/python/app.py:249-332 | missing or empty `run_id`: 400; unknown run: 404; both without a call or a store change; a pending run: one PATCH to its stored URL with its stored token, the decision's status and a message naming the run; the run is removed and 200 answered iff the PATCH did not raise (`raise_for_status` accepts any status below 400), otherwise 500 and the store is unchanged |
| Broker.IntakeFrame | build/python/app.py:189-193 | intake changes no run but its own |
| Broker.ResolveFrame | build/python/app.py:275-280 | resolve changes no run but the one named in the query |
| Broker.IntakeThenResolve | build/python/app.py:189-284 | intake then resolve sends the intake's token and URL with the decision's status; on success the run is gone and every other run is as before the intake |
| Broker.ConsumedOnce | build/python/tests/test_app.py:176-191 | after a successful approve (or reject), any second resolve of the run answers 404 and sends nothing |
| Broker.FailedCallbackRetries | build/python/app.py:275-284 | a failed PATCH answers 500, keeps the run, and a retry sends the same PATCH |
| Broker.PostedLinksReachRun | build/python/app.py:189-233 | for a run id with no `&`, `#`, `+` or `%`, the posted approve/reject links read back to the run id, and following one PATCHes the run's callback, even after a failed chat post (500) |
| Broker.EmptyRunIdUnreachable | build/python/app.py:174-177 | a payload with `run_id` "" is stored under "" yet resolving "" answers 400 without touching it |
| App.RouteOf | build/python/app.py:145-288 | POST /run-task-check reaches intake; GET or HEAD on /approve and /reject reach resolve; OPTIONS on a known route gets 200, an unknown path 404, any other method 405, all without reaching a view |
| App.Serve | build/python/app.py:100-109 | a gate refusal answers 403 and a gate crash 500, both with the store untouched and no call; only the guarded intake can be refused; an admitted intake and every approve/reject reach the broker; framework-answered requests change nothing; only the request's own run can change |
| App.Replay | build/python/app.py:100-109 | requests are served one after another: the first is served on the starting store, each later one on the store its predecessor left, and the final store is the last reply's store |
| App.HeadConsumes | build/python/app.py:249-284 | HEAD on an approve link runs the approve view: with the PATCH not raising it answers 200 and consumes the run |
| App.AbsentStaysAbsent | build/python/app.py:253-256 | from a store without `r`, requests that never file an intake under `r` keep `r` absent, and every resolve of `r` among them gets 400/404 with no callback |
| App.ExpiredRunNotFound | build/python/app.py:47-54 | with the Redis backend, a run resolved more than 600 seconds after its intake answers 404 with no callback, like one never stored |
| App.SingleUse | build/python/app.py:275-284 | after a successful resolve of `r`, no later request triggers another callback for `r` until a new intake for `r` |

## Left out

- Flask request parsing and response bodies: a request is a plain record; only status codes are modelled, not response text. Routing is modelled only for the three routes, including HEAD (which runs the resolve views) and the automatic OPTIONS reply.
- The relation between the raw body the gate hashes and the parsed payload the intake reads: JSON parsing is not modelled, so they are independent fields of the request.
- Non-string JSON values for `access_token`, `task_result_callback_url` and `run_id` (numbers, `null`, lists): the fields are modelled as absent-or-string. An explicit `"run_id": null` is therefore not modelled.
- The chat POST and the callback PATCH are network calls: each becomes a recorded call with its arguments and a boolean outcome supplied by the caller.
- HMAC-SHA-512 (RFC 2104 over FIPS 180-4) and the constant-time comparison: the digest is a function parameter whose results are 128 lower-case hex digits; the comparison is string equality plus the non-ASCII `TypeError`.
- Redis connection set-up, the `ping` fallback, connection failures and the JSON encoding of the record (assumed to round-trip); a Redis error inside a handler is not modelled.
- The Markdown text of the chat message apart from the two links (lines 200-227); it is presentation only.
- Environment-variable configuration loading and `print` logging: configuration is an explicit `Config` value.
- Concurrent approve/reject of the same run: each request is one atomic step.
- URL encoding: the link is built and read back as plain text; the query-string decoding done by the framework is not modelled.
- Broker.PostedLinksReachRun: promises nothing for run ids containing `&`, `#`, `+` or `%`. The links insert the run id without URL encoding, so the framework reads such a link's `run_id` as a different string (for `a&run_id=b` it reads `a`), which may be another pending run or none. Query-string decoding is not modelled, so the model cannot state what happens then.
