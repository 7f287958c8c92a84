/**
 * The per-video analysis cache of the background service worker: the object
 * store "analyses" of the "YTruthDB" database, keyed by `id`, whose records are
 * `{id, data, timestamp}`. The store is a map; the clock reading that the source
 * takes with `Date.now()` is a parameter.
 */
module Cache {
  import opened Wrappers
  import opened Model

  /** Seven days in milliseconds, the age at which a record stops being served. */
  const WeekMillis: int := 7 * 24 * 60 * 60 * 1000

  /** One record of the object store. */
  datatype StoredAnalysis = StoredAnalysis(id: string, data: Analysis, timestamp: int)

  type Entries = map<string, StoredAnalysis>

  /** The object store's key path is `id`: every record sits under its own id. */
  ghost predicate KeyedById(entries: Entries) {
    forall k :: k in entries ==> entries[k].id == k
  }

  /**
   * What a read at time `now` yields: the stored data while the record is younger
   * than seven days, nothing otherwise. A record exactly seven days old is absent,
   * and an expired record reads the same as one never written.
   */
  function Lookup(entries: Entries, id: string, now: int): (r: Option<Analysis>)
    ensures r.Some? <==> id in entries && now - entries[id].timestamp < WeekMillis
    ensures r.Some? ==> r.value == entries[id].data
  {
    if id in entries && now - entries[id].timestamp < WeekMillis then Some(entries[id].data) else None
  }

  /** The store after `put({id, data, timestamp: now})`: the record for `id` is replaced, every other one kept. */
  function Put(entries: Entries, id: string, data: Analysis, now: int): (r: Entries)
    ensures r.Keys == entries.Keys + {id}
    ensures r[id] == StoredAnalysis(id, data, now)
    ensures forall k :: k in entries && k != id ==> r[k] == entries[k]
  {
    entries[id := StoredAnalysis(id, data, now)]
  }

  /** A put keeps every record under its own id. */
  lemma PutKeepsKeyedById(entries: Entries, id: string, data: Analysis, now: int)
    requires KeyedById(entries)
    ensures KeyedById(Put(entries, id, data, now))
  {
  }

  /**
   * Reading after a put: the id just written is served for exactly seven days
   * from the write, and every other id reads as before.
   */
  lemma LookupAfterPut(entries: Entries, id: string, data: Analysis, savedAt: int, other: string, now: int)
    ensures Lookup(Put(entries, id, data, savedAt), other, now)
         == if other == id then (if now - savedAt < WeekMillis then Some(data) else None)
            else Lookup(entries, other, now)
  {
  }

  /** The freshness boundary: served one millisecond before seven days, absent at seven days and after. */
  lemma ExpiryBoundary(entries: Entries, id: string, data: Analysis, savedAt: int, age: int)
    requires age >= 0
    ensures Lookup(Put(entries, id, data, savedAt), id, savedAt + age) == if age < WeekMillis then Some(data) else None
    ensures Lookup(Put(entries, id, data, savedAt), id, savedAt + WeekMillis - 1) == Some(data)
    ensures Lookup(Put(entries, id, data, savedAt), id, savedAt + WeekMillis) == None
  {
  }

  /** The object store, updated in place by `getAnalysisFromDB` and `saveAnalysisToDB`. */
  class AnalysisStore {
    var entries: Entries

    ghost predicate Valid()
      reads this
    {
      KeyedById(entries)
    }

    constructor ()
      ensures Valid() && entries == map[]
    {
      entries := map[];
    }

    /** `getAnalysisFromDB(videoId)` at time `now`. */
    method Get(videoId: string, now: int) returns (r: Option<Analysis>)
      ensures r == Lookup(entries, videoId, now)
    {
      if videoId in entries {
        var result := entries[videoId];
        if now - result.timestamp < WeekMillis {
          return Some(result.data);
        }
      }
      return None;
    }

    /** `saveAnalysisToDB(videoId, analysis)` at time `now`. */
    method Save(videoId: string, analysis: Analysis, now: int)
      requires Valid()
      modifies this
      ensures Valid()
      ensures entries == Put(old(entries), videoId, analysis, now)
    {
      entries := entries[videoId := StoredAnalysis(videoId, analysis, now)];
    }
  }
}
