/**
 The Redis adapter: job snapshots and cached analyses share one key space, told apart by a prefix.
 Entries may expire at any time.
 */
module StateCache {
  import opened Prelude
  import opened Schema
  import opened Stores

  const JOB_PREFIX := "research:job:"
  const AI_PREFIX := "research:ai:"

  /** A JSON payload; which of the two it is depends on who wrote it. */
  datatype Payload = StatePayload(snapshot: Snapshot) | AiPayload(insights: Insights)

  datatype RedisKey = RedisKey(text: string)

  function StateKey(jobId: JobId): RedisKey {
    RedisKey(JOB_PREFIX + jobId.text)
  }

  function AiCacheKey(cacheKey: AiKey): RedisKey {
    RedisKey(AI_PREFIX + cacheKey.text)
  }

  /** Two ways of making keys under which no two entries are ever mixed up. */
  ghost predicate Separate<K(!new), L(!new), T>(f: K -> T, g: L -> T) {
    && (forall a, b :: f(a) == f(b) ==> a == b)
    && (forall a, b :: g(a) == g(b) ==> a == b)
    && (forall a, b :: f(a) != g(b))
  }

  lemma KeysDoNotClash(a: JobId, b: JobId, c: AiKey, d: AiKey)
    ensures StateKey(a) == StateKey(b) ==> a == b
    ensures AiCacheKey(c) == AiCacheKey(d) ==> c == d
    ensures StateKey(a) != AiCacheKey(c)
  {
    assert StateKey(a).text[|JOB_PREFIX|..] == a.text && StateKey(b).text[|JOB_PREFIX|..] == b.text;
    assert AiCacheKey(c).text[|AI_PREFIX|..] == c.text && AiCacheKey(d).text[|AI_PREFIX|..] == d.text;
    assert StateKey(a).text[9] == 'j' && AiCacheKey(c).text[9] == 'a';
  }

  /** Whatever the job ids and cache keys are, the prefixes keep their entries apart. */
  lemma KeysSeparate()
    ensures Separate(StateKey, AiCacheKey)
  {
    forall a, b ensures StateKey(a) == StateKey(b) ==> a == b {
      KeysDoNotClash(a, b, AiKey(""), AiKey(""));
    }
    forall c, d ensures AiCacheKey(c) == AiCacheKey(d) ==> c == d {
      KeysDoNotClash(JobId(""), JobId(""), c, d);
    }
    forall a, c ensures StateKey(a) != AiCacheKey(c) {
      KeysDoNotClash(a, a, c, c);
    }
  }

  /** A key space, and what it holds for each of the two uses. */
  datatype Space<K, L, T> = Space(entries: map<T, Payload>, snapshots: map<K, Snapshot>, insights: map<L, Insights>)

  /** Every snapshot and every analysis lies under its own key, and nothing else does. */
  ghost predicate Holds<K(!new), L(!new), T>(space: Space<K, L, T>, f: K -> T, g: L -> T) {
    match space
    case Space(entries, snapshots, insights) =>
      && (forall job {:trigger f(job)} :: job in snapshots <==> f(job) in entries)
      && (forall job {:trigger f(job)} :: job in snapshots ==> entries[f(job)] == StatePayload(snapshots[job]))
      && (forall key {:trigger g(key)} :: key in insights <==> g(key) in entries)
      && (forall key {:trigger g(key)} :: key in insights ==> entries[g(key)] == AiPayload(insights[key]))
  }

  lemma HoldsStatePut<K(!new), L(!new), T>(s: Space<K, L, T>, f: K -> T, g: L -> T, job: K, snapshot: Snapshot)
    requires Separate(f, g) && Holds(s, f, g)
    ensures Holds(Space(s.entries[f(job) := StatePayload(snapshot)], s.snapshots[job := snapshot], s.insights), f, g)
  {
  }

  lemma HoldsStateDrop<K(!new), L(!new), T>(s: Space<K, L, T>, f: K -> T, g: L -> T, job: K)
    requires Separate(f, g) && Holds(s, f, g)
    ensures Holds(Space(s.entries - {f(job)}, s.snapshots - {job}, s.insights), f, g)
  {
  }

  lemma HoldsAiPut<K(!new), L(!new), T>(s: Space<K, L, T>, f: K -> T, g: L -> T, key: L, result: Insights)
    requires Separate(f, g) && Holds(s, f, g)
    ensures Holds(Space(s.entries[g(key) := AiPayload(result)], s.snapshots, s.insights[key := result]), f, g)
  {
  }

  type RedisSpace = Space<JobId, AiKey, RedisKey>

  ghost predicate Kept(s: RedisSpace) {
    Holds(s, StateKey, AiCacheKey)
  }

  lemma StatePut(s: RedisSpace, job: JobId, snapshot: Snapshot)
    requires Kept(s)
    ensures Kept(Space(s.entries[StateKey(job) := StatePayload(snapshot)], s.snapshots[job := snapshot], s.insights))
  {
    KeysSeparate();
    HoldsStatePut(s, StateKey, AiCacheKey, job, snapshot);
  }

  lemma StateDrop(s: RedisSpace, job: JobId)
    requires Kept(s)
    ensures Kept(Space(s.entries - {StateKey(job)}, s.snapshots - {job}, s.insights))
  {
    KeysSeparate();
    HoldsStateDrop(s, StateKey, AiCacheKey, job);
  }

  lemma AiPut(s: RedisSpace, key: AiKey, result: Insights)
    requires Kept(s)
    ensures Kept(Space(s.entries[AiCacheKey(key) := AiPayload(result)], s.snapshots, s.insights[key := result]))
  {
    KeysSeparate();
    HoldsAiPut(s, StateKey, AiCacheKey, key, result);
  }

  class StateCache {
    var entries: map<RedisKey, Payload>
    ghost var snapshots: map<JobId, Snapshot>
    ghost var insights: map<AiKey, Insights>

    ghost predicate Valid()
      reads this
    {
      Kept(Space(entries, snapshots, insights))
    }

    constructor ()
      ensures Valid() && snapshots == map[] && insights == map[]
    {
      entries, snapshots, insights := map[], map[], map[];
    }

    method SetState(jobId: JobId, snapshot: Snapshot)
      requires Valid()
      modifies `entries, `snapshots
      ensures Valid() && snapshots == old(snapshots)[jobId := snapshot]
    {
      StatePut(Space(entries, snapshots, insights), jobId, snapshot);
      entries, snapshots := entries[StateKey(jobId) := StatePayload(snapshot)], snapshots[jobId := snapshot];
    }

    method GetState(jobId: JobId) returns (snapshot: Option<Snapshot>)
      requires Valid()
      ensures snapshot == if jobId in snapshots then Some(snapshots[jobId]) else None
    {
      if StateKey(jobId) !in entries {
        return None;
      }
      return Some(entries[StateKey(jobId)].snapshot);
    }

    method DeleteState(jobId: JobId)
      requires Valid()
      modifies `entries, `snapshots
      ensures Valid() && snapshots == old(snapshots) - {jobId}
    {
      StateDrop(Space(entries, snapshots, insights), jobId);
      entries, snapshots := entries - {StateKey(jobId)}, snapshots - {jobId};
    }

    method SetCachedAiResult(cacheKey: AiKey, result: Insights)
      requires Valid()
      modifies `entries, `insights
      ensures Valid() && insights == old(insights)[cacheKey := result]
    {
      AiPut(Space(entries, snapshots, insights), cacheKey, result);
      entries, insights := entries[AiCacheKey(cacheKey) := AiPayload(result)], insights[cacheKey := result];
    }

    method GetCachedAiResult(cacheKey: AiKey) returns (result: Option<Insights>)
      requires Valid()
      ensures result == if cacheKey in insights then Some(insights[cacheKey]) else None
    {
      if AiCacheKey(cacheKey) !in entries {
        return None;
      }
      return Some(entries[AiCacheKey(cacheKey)].insights);
    }
  }
}
