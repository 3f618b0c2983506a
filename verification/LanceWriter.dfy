/** Bulk writes to Lance: overrides and settings are grouped so that one update is sent per
    distinct payload.  Groups are visited in any order, and any update may fail; a bulk write fails only
    when one of its updates has failed. */
module LanceWriting {
  import opened Wrappers
  import opened Sql
  import opened LanceTables

  // ── What a bulk write means ──────────────────────────────────────────────

  /** Every override of the given articles applied on its own. */
  function Overridden(articles: map<string, Row>, overrides: map<string, Override>, ids: set<string>): map<string, Row> {
    map a | a in articles ::
      if a in ids && a in overrides then Merged(articles[a], overrides[a]) else articles[a]
  }

  /** Every existing one of the given keys set to its value. */
  function WithSettings(settings: map<string, string>, values: map<string, string>, keys: set<string>): map<string, string> {
    map k | k in settings :: if k in keys && k in values then values[k] else settings[k]
  }

  /** `groups` lists, under each payload, exactly those of `ids` that have it. */
  ghost predicate GroupedBy<T>(payload: map<string, T>, ids: set<string>, groups: map<T, seq<string>>) {
    && ids <= payload.Keys
    && (forall id | id in ids :: payload[id] in groups && id in groups[payload[id]])
    && (forall p, id | p in groups && id in groups[p] :: id in ids && payload[id] == p)
    && (forall p | p in groups :: |groups[p]| > 0)
  }

  /** The members of the groups outside `left`. */
  ghost function Members<T>(payload: map<string, T>, groups: map<T, seq<string>>, left: set<T>): set<string> {
    set id | id in payload && payload[id] in groups.Keys - left
  }

  lemma GroupUpdate(articles: map<string, Row>, overrides: map<string, Override>,
                    groups: map<Override, seq<string>>, left: set<Override>, p: Override)
    requires GroupedBy(overrides, overrides.Keys, groups)
    requires left <= groups.Keys && p in left
    ensures UpdatedArticles(Overridden(articles, overrides, Members(overrides, groups, left)),
                            ColumnIn("article_id", groups[p]), p)
         == Overridden(articles, overrides, Members(overrides, groups, left - {p}))
  {
    var now := Overridden(articles, overrides, Members(overrides, groups, left));
    var next := Overridden(articles, overrides, Members(overrides, groups, left - {p}));
    forall a | a in articles
      ensures UpdatedArticles(now, ColumnIn("article_id", groups[p]), p)[a] == next[a]
    {
      if a in overrides {
        assert a in groups[p] <==> overrides[a] == p;
      }
    }
  }

  lemma SkippedGroup(articles: map<string, Row>, overrides: map<string, Override>,
                     groups: map<Override, seq<string>>, left: set<Override>)
    requires GroupedBy(overrides, overrides.Keys, groups)
    requires left <= groups.Keys && NO_OVERRIDE in left
    ensures Overridden(articles, overrides, Members(overrides, groups, left))
         == Overridden(articles, overrides, Members(overrides, groups, left - {NO_OVERRIDE}))
  {
  }

  lemma SettingGroupUpdate(settings: map<string, string>, values: map<string, string>,
                           groups: map<string, seq<string>>, left: set<string>, v: string)
    requires GroupedBy(values, values.Keys, groups)
    requires left <= groups.Keys && v in left
    ensures UpdatedSettings(WithSettings(settings, values, Members(values, groups, left)), ColumnIn("key", groups[v]), v)
         == WithSettings(settings, values, Members(values, groups, left - {v}))
  {
    forall k | k in settings && k in values
      ensures k in groups[v] <==> values[k] == v
    {
    }
  }

  // ── The writer ───────────────────────────────────────────────────────────

  class LanceWriter {
    const lance: Lance

    constructor (lance: Lance)
      ensures this.lance == lance
    {
      this.lance := lance;
    }

    method MarkAllRead(feed: string) returns (ok: bool)
      modifies lance
      ensures lance.step > old(lance.step) && ok == !lance.FailedSince(old(lance.step))
      ensures lance.settings == old(lance.settings)
      ensures lance.articles ==
        if ok then UpdatedArticles(old(lance.articles), UnreadInFeed(feed), SET_READ) else old(lance.articles)
    {
      var filter := UnreadFilter(feed);
      ok := lance.UpdateArticles(filter, SET_READ);
    }

    /** Applies the overrides group by group.  `done` are the articles reached: all of them
        unless an update failed, and always whole groups. */
    method FlushOverrides(overrides: map<string, Override>) returns (ok: bool, ghost done: set<string>)
      modifies lance
      ensures lance.step >= old(lance.step) && (ok || lance.FailedSince(old(lance.step)))
      ensures lance.settings == old(lance.settings)
      ensures lance.articles == Overridden(old(lance.articles), overrides, done)
      ensures ok ==> done == overrides.Keys
      ensures done <= overrides.Keys
      ensures forall a, b | a in overrides && b in overrides && overrides[a] == overrides[b] :: a in done <==> b in done
    {
      var groups: map<Override, seq<string>> := map[];
      var todo := overrides.Keys;
      while todo != {}
        invariant todo <= overrides.Keys
        invariant GroupedBy(overrides, overrides.Keys - todo, groups)
      {
        var id :| id in todo;
        var p := overrides[id];
        groups := groups[p := (if p in groups then groups[p] else []) + [id]];
        todo := todo - {id};
      }

      var left := groups.Keys;
      assert GroupedBy(overrides, overrides.Keys, groups);
      assert Members(overrides, groups, left) == {};
      assert Overridden(lance.articles, overrides, {}) == lance.articles;
      while left != {}
        invariant left <= groups.Keys && lance.step >= old(lance.step)
        invariant lance.settings == old(lance.settings)
        invariant lance.articles == Overridden(old(lance.articles), overrides, Members(overrides, groups, left))
      {
        var p :| p in left;
        if p == NO_OVERRIDE {
          SkippedGroup(old(lance.articles), overrides, groups, left);
        } else {
          var filter := MembershipFilter("article_id", groups[p]);
          var updated := lance.UpdateArticles(filter, p);
          if !updated {
            return false, Members(overrides, groups, left);
          }
          GroupUpdate(old(lance.articles), overrides, groups, left, p);
        }
        left := left - {p};
      }
      return true, Members(overrides, groups, {});
    }

    /** Writes the values group by group; a key without a row stays absent. */
    method PutSettingsBatch(values: map<string, string>) returns (ok: bool, ghost done: set<string>)
      modifies lance
      ensures lance.step >= old(lance.step) && (ok || lance.FailedSince(old(lance.step)))
      ensures lance.articles == old(lance.articles)
      ensures lance.settings == WithSettings(old(lance.settings), values, done)
      ensures ok ==> done == values.Keys
      ensures done <= values.Keys
      ensures forall j, k | j in values && k in values && values[j] == values[k] :: j in done <==> k in done
    {
      var groups: map<string, seq<string>> := map[];
      var todo := values.Keys;
      while todo != {}
        invariant todo <= values.Keys
        invariant GroupedBy(values, values.Keys - todo, groups)
      {
        var k :| k in todo;
        var v := values[k];
        groups := groups[v := (if v in groups then groups[v] else []) + [k]];
        todo := todo - {k};
      }

      var left := groups.Keys;
      assert GroupedBy(values, values.Keys, groups);
      assert Members(values, groups, left) == {};
      assert WithSettings(lance.settings, values, {}) == lance.settings;
      while left != {}
        invariant left <= groups.Keys && lance.step >= old(lance.step)
        invariant lance.articles == old(lance.articles)
        invariant lance.settings == WithSettings(old(lance.settings), values, Members(values, groups, left))
      {
        var v :| v in left;
        var filter := MembershipFilter("key", groups[v]);
        var updated := lance.UpdateSettings(filter, v);
        if !updated {
          return false, Members(values, groups, left);
        }
        SettingGroupUpdate(old(lance.settings), values, groups, left, v);
        left := left - {v};
      }
      return true, Members(values, groups, {});
    }
  }
}
