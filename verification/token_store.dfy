/**
 The ephemeral token store: for each run identifier, the bearer credential
 and callback address the run's approval will need. This is the in-memory
 backend (a dictionary); the Redis backend is shown to behave the same in
 module RedisBackend.
 */
module TokenStore {
  import opened Common

  /** What `store_token` keeps for a run: `{"access_token": …, "callback_url": …}`. */
  datatype Pending = Pending(accessToken: string, callbackUrl: string)

  type Store = map<string, Pending>

  /** `get_token`: the record kept for `runId`, or `None`. */
  function Get(s: Store, runId: string): (o: Option<Pending>)
    ensures o.Some? <==> runId in s
    ensures o.Some? ==> o.value == s[runId]
  {
    if runId in s then Some(s[runId]) else None
  }

  /** `store_token`: keep `data` under `runId`, replacing whatever was there. */
  function Put(s: Store, runId: string, data: Pending): (s': Store)
    ensures Get(s', runId) == Some(data)
    ensures forall k :: k != runId ==> Get(s', k) == Get(s, k)
    ensures s'.Keys == s.Keys + {runId}
  {
    s[runId := data]
  }

  /** `remove_token`: forget `runId`; nothing happens when it is absent. */
  function Remove(s: Store, runId: string): (s': Store)
    ensures Get(s', runId) == None
    ensures forall k :: k != runId ==> Get(s', k) == Get(s, k)
    ensures s'.Keys == s.Keys - {runId}
  {
    s - {runId}
  }

  /** A second store under the same run identifier overwrites the first. */
  lemma PutOverwrites(s: Store, runId: string, first: Pending, second: Pending)
    ensures Put(Put(s, runId, first), runId, second) == Put(s, runId, second)
  {
  }

  /** Removing an absent run identifier leaves the store as it was. */
  lemma RemoveAbsent(s: Store, runId: string)
    requires Get(s, runId) == None
    ensures Remove(s, runId) == s
  {
  }

  /** Removing twice is removing once. */
  lemma RemoveIdempotent(s: Store, runId: string)
    ensures Remove(Remove(s, runId), runId) == Remove(s, runId)
  {
  }

  /** Storing and then removing a run leaves no trace of the stored record. */
  lemma RemoveUndoesPut(s: Store, runId: string, data: Pending)
    ensures Remove(Put(s, runId, data), runId) == Remove(s, runId)
  {
  }

  /** Operations on different run identifiers commute. */
  lemma DistinctKeysCommute(s: Store, a: string, b: string, data: Pending)
    requires a != b
    ensures Remove(Put(s, a, data), b) == Put(Remove(s, b), a, data)
  {
  }
}
