/** The store behind the API: the in-memory overlay, the cache file and the Lance writer. */
module ArticleStore {
  import opened Wrappers
  import opened LanceTables
  import opened LanceWriting
  import opened Writers
  import opened PendingLog
  import opened OfflineCaching
  import opened ServerState

  /** The overlay of pending article states. */
  class WriteCache {
    var pending: map<string, Override>

    constructor ()
      ensures pending == map[]
    {
      pending := map[];
    }

    method SetRead(article: string, isRead: bool)
      modifies this
      ensures pending == old(pending)[article := OverrideOf(old(pending), article).(read := Some(isRead))]
    {
      var ov := NO_OVERRIDE;
      if article in pending {
        ov := pending[article];
      }
      pending := pending[article := ov.(read := Some(isRead))];
    }

    method SetStarred(article: string, isStarred: bool)
      modifies this
      ensures pending == old(pending)[article := OverrideOf(old(pending), article).(star := Some(isStarred))]
    {
      var ov := NO_OVERRIDE;
      if article in pending {
        ov := pending[article];
      }
      pending := pending[article := ov.(star := Some(isStarred))];
    }

    method Clear()
      modifies this
      ensures pending == map[]
    {
      pending := map[];
    }
  }

  class Store {
    const cache: WriteCache
    const offCache: OfflineCache
    const writer: Writer
    ghost var taken: Option<map<string, string>>
    ghost var page: map<string, Row>

    constructor (cache: WriteCache, offCache: OfflineCache, writer: Writer)
      ensures this.cache == cache && this.offCache == offCache && this.writer == writer && taken == None && page == map[]
    {
      this.cache := cache;
      this.offCache := offCache;
      this.writer := writer;
      taken := None;
      page := map[];
    }

    ghost function Abs(): Server
      reads this, cache, offCache, writer.lance
    {
      Server(writer.lance.Contents(), cache.pending, offCache.pending, offCache.nextId, offCache.cached,
             offCache.settingsCache, offCache.isOffline, taken, page)
    }

    method SetArticleRead(article: string, isRead: bool)
      requires offCache.Valid()
      modifies cache, offCache
      ensures offCache.Valid()
      ensures Abs() == Step(old(Abs()), Write(SetRead(article, isRead), true))
    {
      hide Logged;
      cache.SetRead(article, isRead);
      offCache.AddPendingChange(SetRead(article, isRead));
      offCache.UpdateCachedArticle(article, Some(isRead), None);
      assert offCache.cached == Apply(Tables(old(offCache.cached), map[]), SetRead(article, isRead)).articles;
    }

    method SetArticleStarred(article: string, isStarred: bool)
      requires offCache.Valid()
      modifies cache, offCache
      ensures offCache.Valid()
      ensures Abs() == Step(old(Abs()), Write(SetStar(article, isStarred), true))
    {
      hide Logged;
      cache.SetStarred(article, isStarred);
      offCache.AddPendingChange(SetStar(article, isStarred));
      offCache.UpdateCachedArticle(article, None, Some(isStarred));
      assert offCache.cached == Apply(Tables(old(offCache.cached), map[]), SetStar(article, isStarred)).articles;
    }

    /** The query sees Lance without the overlay; when it fails the overlay is left alone. */
    method MarkAllRead(feed: string, queryOk: bool)
      requires offCache.Valid()
      modifies cache, offCache
      ensures offCache.Valid()
      ensures Abs() == Step(old(Abs()), Write(PendingLog.MarkAllRead(feed), queryOk))
    {
      hide Logged, Apply;
      if queryOk {
        var ids := UnreadIn(writer.lance.Contents(), feed);
        var todo := ids;
        assert MarkedOverlay(cache.pending, {}) == cache.pending;
        while todo != {}
          invariant todo <= ids
          invariant unchanged(offCache)
          invariant cache.pending == MarkedOverlay(old(cache.pending), ids - todo)
        {
          var id :| id in todo;
          cache.SetRead(id, true);
          todo := todo - {id};
        }
        assert ids - todo == ids;
      }
      offCache.AddPendingChange(PendingLog.MarkAllRead(feed));
      offCache.MarkAllReadCached(feed);
    }

    method PutSetting(key: string, value: string)
      requires offCache.Valid()
      modifies offCache
      ensures offCache.Valid()
      ensures Abs() == Step(old(Abs()), Write(PendingLog.PutSetting(key, value), true))
    {
      offCache.UpdateCachedSetting(key, value);
      offCache.AddPendingSettingChange(key, value);
      assert old(offCache.cached) == Apply(Tables(old(offCache.cached), map[]), PendingLog.PutSetting(key, value)).articles;
    }

    /** One article, as the reader sees it; a failing query switches to offline mode. */
    method GetArticle(article: string, reachable: bool) returns (row: Option<Row>)
      modifies offCache`isOffline
      ensures offCache.isOffline == (old(offCache.isOffline) || !reachable)
      ensures row == if article in Shown(Abs()) then Some(Shown(Abs())[article]) else None
      ensures offCache.isOffline ==> row == if article in offCache.cached then Some(offCache.cached[article]) else None
      ensures !offCache.isOffline ==>
        && (row.Some? <==> article in writer.lance.articles)
        && (row.Some? ==>
              var stored := writer.lance.articles[article];
              var ov := if article in cache.pending then cache.pending[article] else NO_OVERRIDE;
              && row.value.feed == stored.feed
              && row.value.read == (if ov.read.Some? then ov.read.value else stored.read)
              && row.value.star == (if ov.star.Some? then ov.star.value else stored.star))
    {
      if !offCache.isOffline && !reachable {
        offCache.isOffline := true;
      }
      if offCache.isOffline {
        return if article in offCache.cached then Some(offCache.cached[article]) else None;
      }
      if article !in writer.lance.articles {
        return None;
      }
      var r := writer.lance.articles[article];
      if article in cache.pending {
        var ov := cache.pending[article];
        r := Row(r.feed, ov.read.GetOr(r.read), ov.star.GetOr(r.star));
      }
      return Some(r);
    }

    method GetSettings(reachable: bool) returns (settings: map<string, string>)
      modifies offCache`isOffline
      ensures offCache.isOffline == (old(offCache.isOffline) || !reachable)
      ensures settings == ShownSettings(old(Abs()), reachable)
      ensures old(offCache.isOffline) || !reachable ==> settings == offCache.settingsCache
      ensures !old(offCache.isOffline) && reachable ==>
        && (forall k :: k in settings <==> k in offCache.settingsCache || k in writer.lance.settings)
        && (forall k | k in settings ::
              settings[k] == if k in offCache.settingsCache then offCache.settingsCache[k] else writer.lance.settings[k])
    {
      if offCache.isOffline {
        return offCache.settingsCache;
      }
      if !reachable {
        offCache.isOffline := true;
        return offCache.settingsCache;
      }
      settings := writer.lance.settings;
      var pendingKeys := offCache.settingsCache.Keys;
      while pendingKeys != {}
        invariant unchanged(offCache)
        invariant pendingKeys <= offCache.settingsCache.Keys
        invariant settings.Keys == writer.lance.settings.Keys + (offCache.settingsCache.Keys - pendingKeys)
        invariant forall k | k in settings ::
          settings[k] == if k in offCache.settingsCache.Keys - pendingKeys then offCache.settingsCache[k]
                         else writer.lance.settings[k]
      {
        var k :| k in pendingKeys;
        settings := settings[k := offCache.settingsCache[k]];
        pendingKeys := pendingKeys - {k};
      }
    }

    /** A setting that is in memory is returned without asking Lance. */
    method GetSetting(key: string, reachable: bool) returns (value: Option<string>)
      modifies offCache`isOffline
      ensures value == if key in ShownSettings(old(Abs()), reachable) then Some(ShownSettings(old(Abs()), reachable)[key]) else None
      ensures value ==
        if key in offCache.settingsCache then Some(offCache.settingsCache[key])
        else if !old(offCache.isOffline) && reachable && key in writer.lance.settings then Some(writer.lance.settings[key])
        else None
      ensures offCache.isOffline == (old(offCache.isOffline) || (key !in offCache.settingsCache && !reachable))
    {
      if offCache.isOffline {
        return if key in offCache.settingsCache then Some(offCache.settingsCache[key]) else None;
      }
      if key in offCache.settingsCache {
        return Some(offCache.settingsCache[key]);
      }
      if !reachable {
        offCache.isOffline := true;
        return None;
      }
      return if key in writer.lance.settings then Some(writer.lance.settings[key]) else None;
    }

    /** One undisturbed snapshot: the articles of the window, then feeds and categories, then the
        settings; it stops at the first part that cannot be read or written. */
    method Snapshot(window: set<string>, articlesOk: bool, listsOk: bool, settingsOk: bool) returns (ok: bool)
      requires taken == None && page == map[]
      modifies this, offCache
      ensures ok == (articlesOk && listsOk && settingsOk)
      ensures var read := Step(Step(old(Abs()), ArticlesRead(window)), ArticlesWrite);
        Abs() == if !articlesOk then old(Abs()) else if !ok then read else Step(Step(read, SettingsRead), SettingsWrite)
      ensures articlesOk ==>
        forall a :: a in offCache.cached <==> a in old(offCache.cached) || (a in window && a in Shown(old(Abs())))
      ensures articlesOk ==> forall a | a in offCache.cached ::
        offCache.cached[a] == if a in window && a in Shown(old(Abs())) then Shown(old(Abs()))[a] else old(offCache.cached)[a]
    {
      if !articlesOk {
        return false;
      }
      var shown := if offCache.isOffline then offCache.cached else View(writer.lance.Contents(), cache.pending);
      offCache.SnapshotArticles(Window(shown, window));
      assert map[] + Window(shown, window) == Window(shown, window);
      if !listsOk {
        return false;
      }
      if !settingsOk {
        return false;
      }
      var settings := GetSettings(true);
      offCache.SnapshotSettings(settings);
      return true;
    }

    method FlushPendingChanges(clears: bool, evicts: bool) returns (ghost end: FlushEnd)
      requires offCache.Valid() && writer.Valid()
      modifies cache, offCache, writer.lance, writer.client`alive, writer`calls
      ensures offCache.Valid()
      ensures Feasible(old(Abs()), end) && Abs() == Flushed(old(Abs()), end)
      ensures end.Completes? || !clears || writer.lance.FailedSince(old(writer.lance.step)) || writer.UnansweredSince(old(writer.calls))
    {
      ghost var before := Abs();
      var count, ok;
      ghost var at;
      count, ok, at := offCache.Replay(writer, clears, evicts);
      end := if ok then Completes(evicts) else StopsAt(at);
      if !ok {
        return;
      }
      if count > 0 {
        cache.Clear();
      } else {
        NothingToReplay(before.lance);
      }
    }

    /** Goes back online whatever became of the flush. */
    method HandleReconnect(clears: bool, evicts: bool) returns (ghost end: FlushEnd)
      requires offCache.Valid() && writer.Valid() && offCache.isOffline
      modifies cache, offCache, writer.lance, writer.client`alive, writer`calls
      ensures offCache.Valid()
      ensures Feasible(old(Abs()), end) && Abs() == Step(old(Abs()), Reconnect(end))
      ensures end.Completes? || !clears || writer.lance.FailedSince(old(writer.lance.step)) || writer.UnansweredSince(old(writer.calls))
    {
      end := FlushPendingChanges(clears, evicts);
      offCache.isOffline := false;
    }

    method GoOffline()
      modifies offCache`isOffline
      ensures Abs() == Step(old(Abs()), ServerState.GoOffline)
    {
      if !offCache.isOffline {
        offCache.isOffline := true;
      }
    }
  }

  lemma NothingToReplay(t: Tables)
    ensures Replayed(t, Ops([])) == t
  {
    assert Replayed(t, []).articles == t.articles && Replayed(t, []).settings == t.settings;
  }
}
