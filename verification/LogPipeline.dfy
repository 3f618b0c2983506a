/** The three places a log entry can be written to: Lance, the local `cached_logs` table, and
    back into the memory buffer; and the drain that moves cached entries on to Lance. */
module LogPipeline {
  import opened Wrappers
  import opened Sql
  import opened LogBuffering

  datatype Entry = Entry(id: string, text: string, created: Option<int>)

  // ── The fallback table ───────────────────────────────────────────────────

  /** The table after inserting or replacing the entries one after the other. */
  function CachedWith(cached: map<string, Entry>, entries: seq<Entry>): map<string, Entry> {
    if entries == [] then cached
    else
      var last := entries[|entries| - 1];
      CachedWith(cached, entries[..|entries| - 1])[last.id := last]
  }

  function WithoutIds(cached: map<string, Entry>, ids: seq<string>): map<string, Entry> {
    map id | id in cached && id !in ids :: cached[id]
  }

  function IdsOf(entries: seq<Entry>): seq<string> {
    seq(|entries|, i requires 0 <= i < |entries| => entries[i].id)
  }

  /** Rows without a creation time sort last. */
  predicate NotLater(a: Entry, b: Entry) {
    b.created.None? || (a.created.Some? && a.created.value <= b.created.value)
  }

  class CachedLogs {
    var cached: map<string, Entry>

    constructor ()
      ensures cached == map[]
    {
      cached := map[];
    }

    ghost predicate Valid()
      reads this
    {
      forall id | id in cached :: cached[id].id == id
    }

    /** One transaction: all entries or none. */
    method InsertLogs(entries: seq<Entry>, works: bool) returns (ok: bool)
      requires Valid()
      modifies this
      ensures Valid()
      ensures ok == (entries == [] || works)
      ensures cached == if ok then CachedWith(old(cached), entries) else old(cached)
    {
      if |entries| == 0 {
        return true;
      }
      if !works {
        return false;
      }
      var rows := cached;
      for i := 0 to |entries|
        invariant cached == old(cached)
        invariant rows == CachedWith(cached, entries[..i])
        invariant forall id | id in rows :: rows[id].id == id
      {
        assert entries[..i + 1][..i] == entries[..i];
        rows := rows[entries[i].id := entries[i]];
      }
      assert entries[..|entries|] == entries;
      cached := rows;
      return true;
    }

    /** The oldest rows, at most `batchSize` of them, oldest first. */
    method DrainLogs(batchSize: nat) returns (entries: seq<Entry>)
      requires Valid()
      ensures |entries| == if |cached| < batchSize then |cached| else batchSize
      ensures forall e | e in entries :: e.id in cached && cached[e.id] == e
      ensures forall i, j | 0 <= i < j < |entries| :: entries[i].id != entries[j].id && NotLater(entries[i], entries[j])
      ensures forall i, id | 0 <= i < |entries| && id in cached && cached[id] !in entries :: NotLater(entries[i], cached[id])
      ensures forall i, id | 0 <= i < |entries| && id in cached && cached[id] !in entries && cached[id].created.Some? ::
        entries[i].created.Some? && entries[i].created.value <= cached[id].created.value
      ensures forall i, j | 0 <= i < j < |entries| && entries[j].created.Some? ::
        entries[i].created.Some? && entries[i].created.value <= entries[j].created.value
    {
      entries := [];
      var left := cached.Keys;
      while left != {} && |entries| < batchSize
        invariant left <= cached.Keys && |entries| + |left| == |cached| && |entries| <= batchSize
        invariant forall e | e in entries :: e.id in cached && cached[e.id] == e && e.id !in left
        invariant forall id | id in cached && id !in left :: cached[id] in entries
        invariant forall i, j | 0 <= i < j < |entries| ::
          entries[i].id != entries[j].id && NotLater(entries[i], entries[j])
        invariant forall i, id | 0 <= i < |entries| && id in left :: NotLater(entries[i], cached[id])
      {
        var id := Oldest(left);
        assert cached[id].id == id;
        entries := entries + [cached[id]];
        left := left - {id};
      }
    }

    method Oldest(ids: set<string>) returns (oldest: string)
      requires ids != {} && ids <= cached.Keys
      ensures oldest in ids
      ensures forall id | id in ids :: NotLater(cached[oldest], cached[id])
    {
      oldest :| oldest in ids;
      var left := ids - {oldest};
      while left != {}
        invariant left <= ids && oldest in ids
        invariant forall id | id in ids - left :: NotLater(cached[oldest], cached[id])
      {
        var id :| id in left;
        if !NotLater(cached[oldest], cached[id]) {
          oldest := id;
        }
        left := left - {id};
      }
    }

    /** Deletes by id; the id list in the statement denotes exactly the given ids. */
    method DeleteLogs(ids: seq<string>, works: bool) returns (ok: bool)
      requires Valid()
      modifies this
      ensures Valid()
      ensures ok == (ids == [] || works)
      ensures cached == if ok then WithoutIds(old(cached), ids) else old(cached)
    {
      if |ids| == 0 {
        return true;
      }
      if !works {
        return false;
      }
      var list := QuotedList(ids);
      cached := WithoutIds(cached, ReadList(list).value);
      return true;
    }
  }

  // ── The write path ───────────────────────────────────────────────────────

  datatype Tier = ToLance | ToCache | ToMemory

  class LogStore {
    const cache: CachedLogs
    const buffer: LogBuffer<Entry>
    var lance: seq<Entry>
    var tableExists: bool

    constructor (cache: CachedLogs, buffer: LogBuffer<Entry>, tableExists: bool)
      ensures this.cache == cache && this.buffer == buffer && lance == [] && this.tableExists == tableExists
    {
      this.cache := cache;
      this.buffer := buffer;
      this.lance := [];
      this.tableExists := tableExists;
    }

    /** Reports success without writing when the table does not exist. */
    method InsertLogs(entries: seq<Entry>, works: bool) returns (ok: bool)
      modifies this`lance
      ensures ok == (!tableExists || entries == [] || works)
      ensures lance == if ok && tableExists then old(lance) + entries else old(lance)
    {
      if !tableExists || |entries| == 0 {
        return true;
      }
      if works {
        lance := lance + entries;
      }
      return works;
    }

    /** Tries Lance, then the fallback table; when both fail the caller keeps the entries. */
    method FlushLogs3Tier(entries: seq<Entry>, lanceWorks: bool, cacheWorks: bool) returns (ok: bool, tier: Tier)
      requires cache.Valid()
      modifies this`lance, cache
      ensures cache.Valid()
      ensures tier == if entries == [] || lanceWorks || !tableExists then ToLance else if cacheWorks then ToCache else ToMemory
      ensures ok == (tier != ToMemory)
      ensures lance == if tier == ToLance && tableExists then old(lance) + entries else old(lance)
      ensures cache.cached == if tier == ToCache then CachedWith(old(cache.cached), entries) else old(cache.cached)
    {
      ok := InsertLogs(entries, lanceWorks);
      if ok {
        return true, ToLance;
      }
      ok := cache.InsertLogs(entries, cacheWorks);
      if ok {
        return true, ToCache;
      }
      return false, ToMemory;
    }

    /** A whole flush with nothing running beside it. */
    method Flush(lanceWorks: bool, cacheWorks: bool) returns (ok: bool, tier: Tier)
      requires cache.Valid() && buffer.Valid()
      modifies this`lance, cache, buffer
      ensures cache.Valid()
      ensures old(buffer.entries) == [] ==> ok && lance == old(lance) && cache.cached == old(cache.cached)
      ensures old(buffer.entries) != [] ==>
        && tier == (if lanceWorks || !tableExists then ToLance else if cacheWorks then ToCache else ToMemory)
        && ok == (tier != ToMemory)
        && lance == (if tier == ToLance && tableExists then old(lance) + old(buffer.entries) else old(lance))
        && cache.cached == (if tier == ToCache then CachedWith(old(cache.cached), old(buffer.entries)) else old(cache.cached))
      ensures buffer.entries == if ok then [] else Newest(old(buffer.entries), buffer.cfg.memoryCap)
    {
      var batch := buffer.TakeBatch();
      if |batch| == 0 {
        return true, ToLance;
      }
      ok, tier := FlushLogs3Tier(batch, lanceWorks, cacheWorks);
      if !ok {
        buffer.PutBack(batch);
        assert batch + [] == batch;
      }
    }

    /** Moves the oldest cached entries to Lance; they leave the cache only when Lance has them. */
    method DrainCachedLogs(batchSize: nat, lanceWorks: bool, deleteWorks: bool) returns (drained: seq<Entry>)
      requires cache.Valid()
      modifies this`lance, cache
      ensures cache.Valid()
      ensures forall e | e in drained :: e.id in old(cache.cached) && old(cache.cached)[e.id] == e
      ensures |drained| <= batchSize
      ensures lance == if tableExists && lanceWorks then old(lance) + drained else old(lance)
      ensures cache.cached ==
        if drained == [] || (tableExists && !lanceWorks) || !deleteWorks then old(cache.cached)
        else WithoutIds(old(cache.cached), IdsOf(drained))
    {
      if |cache.cached| == 0 {
        return [];
      }
      drained := cache.DrainLogs(batchSize);
      if |drained| == 0 {
        return;
      }
      var ok := InsertLogs(drained, lanceWorks);
      if !ok {
        return;
      }
      var ids: seq<string> := [];
      for i := 0 to |drained|
        invariant ids == IdsOf(drained)[..i]
      {
        ids := ids + [drained[i].id];
      }
      assert ids == IdsOf(drained);
      ok := cache.DeleteLogs(ids, deleteWorks);
    }
  }
}
