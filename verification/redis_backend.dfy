/**
 The Redis backend of the token store. `store_token` uses `SETEX` with a
 time-to-live of 600 seconds, `get_token` uses `GET` and `remove_token` uses
 `DEL`. Redis is modelled as a map from key to record and expiry instant, read
 at an explicit current time `now` (in seconds). The JSON encoding of the
 record is assumed to round-trip.

 The lemmas show that, at any instant, the live part of the Redis map behaves
 exactly like the in-memory store of module TokenStore, and that the passing
 of time can only make entries vanish.
 */
module RedisBackend {
  import opened Common
  import opened TokenStore

  /** The `ttl_seconds` default of `store_token`. */
  const Ttl: nat := 600

  /** A Redis value: the serialised record and its expiry instant; Redis drops the key only once the clock is past that instant. */
  datatype Entry = Entry(data: Pending, expiresAt: int)

  type Redis = map<string, Entry>

  /** Whether the key `runId` holds a value that has not expired at `now` (Redis expires a key when `now > when`). */
  predicate Live(db: Redis, runId: string, now: int) {
    runId in db && now <= db[runId].expiresAt
  }

  /** The in-memory store the Redis contents amount to at instant `now`. */
  function View(db: Redis, now: int): (s: Store)
    ensures forall k :: k in s <==> Live(db, k, now)
    ensures forall k :: k in s ==> k in db && s[k] == db[k].data
  {
    map k | k in db && now <= db[k].expiresAt :: db[k].data
  }

  /** `SETEX runId 600 json(data)` issued at `now`. */
  function SetEx(db: Redis, runId: string, data: Pending, now: int): (db': Redis)
    ensures Live(db', runId, now) && db'[runId].data == data
    ensures forall k :: k != runId ==> (k in db' <==> k in db)
    ensures forall k :: k != runId && k in db ==> db'[k] == db[k]
  {
    db[runId := Entry(data, now + Ttl)]
  }

  /** `GET runId` at `now`: an expired key reads as missing. */
  function GetAt(db: Redis, runId: string, now: int): (o: Option<Pending>)
    ensures o.Some? <==> Live(db, runId, now)
    ensures o.Some? ==> o.value == db[runId].data
  {
    if Live(db, runId, now) then Some(db[runId].data) else None
  }

  /** `DEL runId`: a missing key is ignored. */
  function Del(db: Redis, runId: string): (db': Redis)
    ensures runId !in db'
    ensures forall k :: k != runId ==> (k in db' <==> k in db)
    ensures forall k :: k != runId && k in db ==> db'[k] == db[k]
  {
    db - {runId}
  }

  /** Reading from Redis is reading from the store it amounts to. */
  lemma GetAtIsGet(db: Redis, runId: string, now: int)
    ensures GetAt(db, runId, now) == Get(View(db, now), runId)
  {
  }

  /** `SETEX` acts on the live contents as `store_token` does on the in-memory map. */
  lemma SetExIsPut(db: Redis, runId: string, data: Pending, now: int)
    ensures View(SetEx(db, runId, data, now), now) == Put(View(db, now), runId, data)
  {
    var lhs := View(SetEx(db, runId, data, now), now);
    var rhs := Put(View(db, now), runId, data);
    assert forall k :: k in lhs <==> k in rhs;
    assert forall k :: k in lhs ==> lhs[k] == rhs[k];
  }

  /** `DEL` acts on the live contents as `remove_token` does on the in-memory map. */
  lemma DelIsRemove(db: Redis, runId: string, now: int)
    ensures View(Del(db, runId), now) == Remove(View(db, now), runId)
  {
    var lhs := View(Del(db, runId), now);
    var rhs := Remove(View(db, now), runId);
    assert forall k :: k in lhs <==> k in rhs;
    assert forall k :: k in lhs ==> lhs[k] == rhs[k];
  }

  /**
   Time only takes entries away: every run live at a later instant was live
   earlier, with the same record. This is the "entry may vanish" step that the
   in-memory backend never takes.
   */
  lemma ExpiryOnlyRemoves(db: Redis, now: int, later: int)
    requires now <= later
    ensures View(db, later).Keys <= View(db, now).Keys
    ensures forall k :: k in View(db, later) ==> View(db, later)[k] == View(db, now)[k]
  {
  }

  /**
   A record stored at instant `t`, with nothing written to its key since, is
   readable up to and including the instant 600 seconds later, and not after.
   */
  lemma StoredRecordLifetime(db: Redis, runId: string, data: Pending, t: int, u: int)
    requires t <= u
    ensures GetAt(SetEx(db, runId, data, t), runId, u) == (if u <= t + Ttl then Some(data) else None)
  {
  }
}
