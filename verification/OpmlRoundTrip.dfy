/** Exporting and importing a subscription list: the walk over the exported outlines lists every
    category and every feed exactly once, and writing them to an empty database rebuilds the
    forest and the place of every feed. */
module OpmlRoundTrip {
  import opened Wrappers
  import opened CategoryGraph
  import opened OpmlImport
  import opened OpmlExport
  import opened OpmlVisits

  /** A forest with distinct, non-empty, trimmed names, and feeds with distinct, non-empty,
      trimmed addresses. */
  ghost predicate WellFormed(cats: seq<Category>, feeds: seq<Feed>) {
    && Forest(cats)
    && (forall c, d | c in cats && d in cats && c.name == d.name :: c == d)
    && (forall c | c in cats :: c.name != "" && Strip(c.name) == c.name)
    && DistinctUrls(feeds)
    && (forall f | f in feeds :: f.url != "" && Strip(f.url) == f.url)
  }

  ghost predicate DistinctUrls(feeds: seq<Feed>) {
    forall i, j | 0 <= i < j < |feeds| :: feeds[i].url != feeds[j].url
  }

  function NameOf(t: Table, id: string): Option<string> {
    if id in t then Some(t[id].name) else None
  }

  /** The name of a category's parent. */
  function ParentOf(t: Table, id: string): Option<string> {
    if id in t then NameOf(t, t[id].parentId) else None
  }

  /** A feed as the import reads it. */
  function AsRow(f: Feed, category: Option<string>): FeedRow {
    FeedRow(Strip(f.url), Strip(Or(f.title, f.url)), Strip(f.siteUrl), category)
  }

  function FeedItemsOf(fs: seq<Feed>, category: Option<string>): (r: seq<Item>)
    ensures |r| == |fs|
  {
    seq(|fs|, i requires 0 <= i < |fs| => FeedItem(AsRow(fs[i], category)))
  }

  lemma {:induction false} FeedOutlinesYield(fs: seq<Feed>, parent: Option<string>)
    requires forall i | 0 <= i < |fs| :: fs[i].url != ""
    ensures IterOutlines(FeedOutlines(fs), parent) == FeedItemsOf(fs, parent)
  {
    if fs != [] {
      FeedOutlinesYield(fs[1..], parent);
      assert FeedItemsOf(fs, parent) == [FeedItem(AsRow(fs[0], parent))] + FeedItemsOf(fs[1..], parent);
      var outlines := FeedOutlines(fs);
      assert outlines[1..] == FeedOutlines(fs[1..]);
      assert ItemsOf(outlines[0], parent) == [FeedItem(AsRow(fs[0], parent))];
    }
  }

  // ── The feeds of a category ──────────────────────────────────────────────

  lemma {:induction false} FeedsInAre(t: Table, feeds: seq<Feed>, cid: string)
    requires DistinctUrls(feeds)
    ensures forall f :: multiset(FeedsIn(t, feeds, cid))[f] == if f in feeds && Placed(t, f) == cid then 1 else 0
  {
    hide Placed;
    if feeds != [] {
      var before, f := feeds[..|feeds| - 1], feeds[|feeds| - 1];
      FeedsInAre(t, before, cid);
      assert f !in before;
      assert feeds == before + [f];
    }
  }

  lemma SortedFeedsAre(t: Table, feeds: seq<Feed>, cid: string)
    requires DistinctUrls(feeds)
    ensures forall f :: f in SortedFeeds(t, feeds, cid) <==> f in feeds && Placed(t, f) == cid
    ensures NoDuplicates(SortedFeeds(t, feeds, cid))
  {
    var fs := SortedFeeds(t, feeds, cid);
    FeedsInAre(t, feeds, cid);
    forall f ensures f in fs <==> f in feeds && Placed(t, f) == cid {
      assert f in fs <==> multiset(fs)[f] > 0;
    }
    forall i, j | 0 <= i < j < |fs| ensures fs[i] != fs[j] {
      if fs[i] == fs[j] {
        TwiceCounted(fs, i, j);
      }
    }
  }

  lemma SameFeed(feeds: seq<Feed>, f: Feed, g: Feed)
    requires DistinctUrls(feeds)
    requires f in feeds && g in feeds && f.url == g.url
    ensures f == g
  {
    var i :| 0 <= i < |feeds| && feeds[i] == f;
    var j :| 0 <= j < |feeds| && feeds[j] == g;
  }

  lemma {:induction false} ItemCount(s: seq<Item>, it: Item)
    requires NoDuplicates(s)
    ensures multiset(s)[it] == if it in s then 1 else 0
  {
    if s != [] {
      var n := |s| - 1;
      ItemCount(s[..n], it);
      assert s == s[..n] + [s[n]];
      assert s[n] !in s[..n];
    }
  }

  // ── What belongs to a category ───────────────────────────────────────────

  /** The item is the category itself, or one of its feeds. */
  ghost predicate Owned(cats: seq<Category>, feeds: seq<Feed>, it: Item, id: string) {
    var t := ById(cats);
    id in t && (it == FolderItem(t[id].name, ParentOf(t, id)) ||
                exists f | f in feeds :: f.categoryId == id && it == FeedItem(AsRow(f, Some(t[id].name))))
  }

  function OwnItems(t: Table, feeds: seq<Feed>, id: string): seq<Item>
    requires id in t
  {
    [FolderItem(t[id].name, ParentOf(t, id))] + FeedItemsOf(SortedFeeds(t, feeds, id), Some(t[id].name))
  }

  /** The feed items of one place: each of its feeds once. */
  lemma PlacedItems(cats: seq<Category>, feeds: seq<Feed>, id: string, name: Option<string>)
    requires WellFormed(cats, feeds)
    ensures var items := FeedItemsOf(SortedFeeds(ById(cats), feeds, id), name);
            && NoDuplicates(items)
            && forall it :: it in items <==> exists f | f in feeds :: Placed(ById(cats), f) == id && it == FeedItem(AsRow(f, name))
  {
    hide SortedFeeds, Placed, ById, Or;
    var fs := SortedFeeds(ById(cats), feeds, id);
    var items := FeedItemsOf(fs, name);
    SortedFeedsAre(ById(cats), feeds, id);
    forall i, j | 0 <= i < j < |items| ensures items[i] != items[j] {
      assert fs[i] in fs && fs[j] in fs;
      if fs[i].url == fs[j].url {
        SameFeed(feeds, fs[i], fs[j]);
      }
    }
    forall it ensures it in items <==> exists f | f in feeds :: Placed(ById(cats), f) == id && it == FeedItem(AsRow(f, name)) {
      if it in items {
        var i :| 0 <= i < |items| && items[i] == it;
        assert fs[i] in fs;
      }
      if f :| f in feeds && Placed(ById(cats), f) == id && it == FeedItem(AsRow(f, name)) {
        var i :| 0 <= i < |fs| && fs[i] == f;
        assert items[i] == it;
      }
    }
  }

  lemma OwnItemsDistinct(cats: seq<Category>, feeds: seq<Feed>, id: string)
    requires WellFormed(cats, feeds) && id in ById(cats)
    ensures NoDuplicates(OwnItems(ById(cats), feeds, id))
    ensures forall it :: it in OwnItems(ById(cats), feeds, id) <==> Owned(cats, feeds, it, id)
  {
    hide SortedFeeds, ById, Strip, Or;
    var t := ById(cats);
    IdNotEmpty(cats, id);
    PlacedItems(cats, feeds, id, Some(t[id].name));
    assert forall f | f in feeds :: Placed(t, f) == id <==> f.categoryId == id;
  }

  /** An item belongs to one category only. */
  lemma OneOwner(cats: seq<Category>, feeds: seq<Feed>, it: Item, x: string, y: string)
    requires WellFormed(cats, feeds) && Owned(cats, feeds, it, x) && Owned(cats, feeds, it, y)
    ensures x == y
  {
    var t := ById(cats);
    ByIdIs(cats);
    match it
    case FolderItem(_, _) => {
      assert t[x] == t[y];
    }
    case FeedItem(row) => {
      var f :| f in feeds && f.categoryId == x && it == FeedItem(AsRow(f, Some(t[x].name)));
      var g :| g in feeds && g.categoryId == y && it == FeedItem(AsRow(g, Some(t[y].name)));
      assert Strip(f.url) == f.url && Strip(g.url) == g.url;
      SameFeed(feeds, f, g);
    }
  }

  lemma OwnCount(cats: seq<Category>, feeds: seq<Feed>, id: string, x: string, it: Item)
    requires WellFormed(cats, feeds) && id in ById(cats) && Owned(cats, feeds, it, x)
    ensures multiset(OwnItems(ById(cats), feeds, id))[it] == if id == x then 1 else 0
  {
    OwnItemsDistinct(cats, feeds, id);
    ItemCount(OwnItems(ById(cats), feeds, id), it);
    if it in OwnItems(ById(cats), feeds, id) {
      OneOwner(cats, feeds, it, id, x);
    }
  }

  // ── Counting the items of a folder ───────────────────────────────────────

  /** What a folder yields: itself, what its child folders yield, and its feeds. */
  lemma FolderYields(cats: seq<Category>, feeds: seq<Feed>, cid: string, d: nat)
    requires WellFormed(cats, feeds) && DepthIs(ById(cats), cid, d)
    ensures d + 1 <= |cats|
    ensures forall i | 0 <= i < |Children(cats, cid)| :: DepthIs(ById(cats), Children(cats, cid)[i], d + 1)
    ensures var t := ById(cats);
            var inside := IterOutlines(Folders(cats, feeds, Children(cats, cid), d + 1), Some(t[cid].name));
            ItemsOf(FolderOf(cats, feeds, cid, d), ParentOf(t, cid))
            == [FolderItem(t[cid].name, ParentOf(t, cid))] + (inside + FeedItemsOf(SortedFeeds(t, feeds, cid), Some(t[cid].name)))
  {
    hide Children, SortedFeeds, Owned;
    var t := ById(cats);
    DepthBound(t, cid, d);
    ByIdIs(cats);
    ChildrenBelow(cats, cid, d);
    var name := t[cid].name;
    assert t[cid] in cats;
    assert Or(name, name) == name;
    var fs := SortedFeeds(t, feeds, cid);
    SortedFeedsAre(t, feeds, cid);
    forall i | 0 <= i < |fs| ensures fs[i].url != "" {
      assert fs[i] in fs;
    }
    FeedOutlinesYield(fs, Some(name));
    IterConcat(Folders(cats, feeds, Children(cats, cid), d + 1), FeedOutlines(fs), Some(name));
  }

  /** An item of category `x` occurs in the folder of `cid` once if `cid` is `x` or one of its
      ancestors, and otherwise not at all. */
  lemma {:induction false} FolderCount(cats: seq<Category>, feeds: seq<Feed>, cid: string, d: nat, x: string, dx: nat, it: Item)
    requires WellFormed(cats, feeds) && DepthIs(ById(cats), cid, d)
    requires DepthIs(ById(cats), x, dx) && Owned(cats, feeds, it, x)
    ensures multiset(ItemsOf(FolderOf(cats, feeds, cid, d), ParentOf(ById(cats), cid)))[it]
         == if dx >= d && Ancestor(ById(cats), x, dx, dx - d) == cid then 1 else 0
    decreases |cats| - d, 0
  {
    hide FolderOf, Folders, Children, SortedFeeds, ItemsOf, IterOutlines, Owned, Strip;
    var t := ById(cats);
    FolderYields(cats, feeds, cid, d);
    var children, name := Children(cats, cid), Some(t[cid].name);
    ChildrenAre(cats, cid);
    IdNotEmpty(cats, cid);
    forall i | 0 <= i < |children| ensures ParentOf(t, children[i]) == name {
      assert children[i] in children;
    }
    FoldersCount(cats, feeds, children, d + 1, name, x, dx, it);
    OwnCount(cats, feeds, cid, x, it);
    AncestorIsChild(cats, cid, d, x, dx);
  }

  lemma {:induction false} FoldersCount(cats: seq<Category>, feeds: seq<Feed>, ids: seq<string>, d: nat,
                                        parent: Option<string>, x: string, dx: nat, it: Item)
    requires WellFormed(cats, feeds) && d <= |cats| && NoDuplicates(ids)
    requires forall i | 0 <= i < |ids| :: DepthIs(ById(cats), ids[i], d)
    requires forall i | 0 <= i < |ids| :: ParentOf(ById(cats), ids[i]) == parent
    requires DepthIs(ById(cats), x, dx) && Owned(cats, feeds, it, x)
    ensures multiset(IterOutlines(Folders(cats, feeds, ids, d), parent))[it]
         == if dx >= d && Ancestor(ById(cats), x, dx, dx - d) in ids then 1 else 0
    decreases |cats| - d, |ids| + 1
  {
    hide FolderOf, Children, SortedFeeds, ItemsOf, Owned, Strip;
    if ids != [] {
      FolderCount(cats, feeds, ids[0], d, x, dx, it);
      FoldersCount(cats, feeds, ids[1..], d, parent, x, dx, it);
      FirstFolderYields(cats, feeds, ids, d, parent);
      if dx >= d {
        FirstOrRest(ids, Ancestor(ById(cats), x, dx, dx - d));
      }
    }
  }

  lemma FirstFolderYields(cats: seq<Category>, feeds: seq<Feed>, ids: seq<string>, d: nat, parent: Option<string>)
    requires UniqueIds(cats) && d <= |cats| && ids != []
    requires forall i | 0 <= i < |ids| :: DepthIs(ById(cats), ids[i], d)
    ensures IterOutlines(Folders(cats, feeds, ids, d), parent)
         == ItemsOf(FolderOf(cats, feeds, ids[0], d), parent) + IterOutlines(Folders(cats, feeds, ids[1..], d), parent)
  {
    var folders := Folders(cats, feeds, ids, d);
    assert folders[1..] == Folders(cats, feeds, ids[1..], d);
  }

  lemma FirstOrRest(ids: seq<string>, a: string)
    requires NoDuplicates(ids) && ids != []
    ensures a in ids <==> a == ids[0] || a in ids[1..]
    ensures !(a == ids[0] && a in ids[1..])
  {
  }

  // ── Nothing else is exported ─────────────────────────────────────────────

  lemma {:induction false} FolderSound(cats: seq<Category>, feeds: seq<Feed>, cid: string, d: nat, it: Item)
    requires WellFormed(cats, feeds) && DepthIs(ById(cats), cid, d)
    requires it in ItemsOf(FolderOf(cats, feeds, cid, d), ParentOf(ById(cats), cid))
    ensures exists x | x in ById(cats) :: Owned(cats, feeds, it, x)
    decreases |cats| - d, 0
  {
    hide FolderOf, Folders, Children, SortedFeeds, ItemsOf, IterOutlines, Owned, Strip;
    var t := ById(cats);
    FolderYields(cats, feeds, cid, d);
    OwnItemsDistinct(cats, feeds, cid);
    var children, name := Children(cats, cid), Some(t[cid].name);
    ChildrenAre(cats, cid);
    IdNotEmpty(cats, cid);
    forall i | 0 <= i < |children| ensures ParentOf(t, children[i]) == name {
      assert children[i] in children;
    }
    if it in OwnItems(t, feeds, cid) {
      assert Owned(cats, feeds, it, cid);
    } else {
      FoldersSound(cats, feeds, children, d + 1, name, it);
    }
  }

  lemma {:induction false} FoldersSound(cats: seq<Category>, feeds: seq<Feed>, ids: seq<string>, d: nat,
                                        parent: Option<string>, it: Item)
    requires WellFormed(cats, feeds) && d <= |cats|
    requires forall i | 0 <= i < |ids| :: DepthIs(ById(cats), ids[i], d)
    requires forall i | 0 <= i < |ids| :: ParentOf(ById(cats), ids[i]) == parent
    requires it in IterOutlines(Folders(cats, feeds, ids, d), parent)
    ensures exists x | x in ById(cats) :: Owned(cats, feeds, it, x)
    decreases |cats| - d, |ids| + 1
  {
    hide FolderOf, Children, SortedFeeds, ItemsOf, Owned, Strip;
    if ids != [] {
      var folders := Folders(cats, feeds, ids, d);
      assert folders[1..] == Folders(cats, feeds, ids[1..], d);
      if it in ItemsOf(folders[0], parent) {
        FolderSound(cats, feeds, ids[0], d, it);
      } else {
        FoldersSound(cats, feeds, ids[1..], d, parent, it);
      }
    }
  }

  // ── Theorem: the exported list ───────────────────────────────────────────

  /** A feed of no known category. */
  ghost predicate Loose(cats: seq<Category>, feeds: seq<Feed>, it: Item) {
    exists f | f in feeds :: f.categoryId !in ById(cats) && it == FeedItem(AsRow(f, None))
  }

  ghost predicate Listed(cats: seq<Category>, feeds: seq<Feed>, it: Item) {
    (exists x | x in ById(cats) :: Owned(cats, feeds, it, x)) || Loose(cats, feeds, it)
  }

  lemma LooseItems(cats: seq<Category>, feeds: seq<Feed>)
    requires WellFormed(cats, feeds)
    ensures var items := FeedItemsOf(SortedFeeds(ById(cats), feeds, ""), None);
            NoDuplicates(items) && forall it :: it in items <==> Loose(cats, feeds, it)
  {
    PlacedItems(cats, feeds, "", None);
    if "" in ById(cats) {
      IdNotEmpty(cats, "");
    }
    assert forall f | f in feeds :: Placed(ById(cats), f) == "" <==> f.categoryId !in ById(cats);
  }

  /** What the root folders yield, and what the feeds beside them yield. */
  lemma ExportYields(cats: seq<Category>, feeds: seq<Feed>)
    requires WellFormed(cats, feeds)
    ensures var roots := Children(cats, "");
            && NoDuplicates(roots)
            && (forall i | 0 <= i < |roots| :: DepthIs(ById(cats), roots[i], 0))
            && (forall i | 0 <= i < |roots| :: ParentOf(ById(cats), roots[i]) == None)
            && IterOutlines(Export(cats, feeds), None)
               == IterOutlines(Folders(cats, feeds, roots, 0), None) + FeedItemsOf(SortedFeeds(ById(cats), feeds, ""), None)
  {
    var t := ById(cats);
    var roots, fs := Children(cats, ""), SortedFeeds(t, feeds, "");
    RootsAtTop(cats);
    ChildrenAre(cats, "");
    SortedFeedsAre(t, feeds, "");
    forall i | 0 <= i < |fs| ensures fs[i].url != "" {
      assert fs[i] in fs;
    }
    if "" in t {
      IdNotEmpty(cats, "");
    }
    forall i | 0 <= i < |roots| ensures ParentOf(t, roots[i]) == None {
      assert roots[i] in roots;
    }
    FeedOutlinesYield(fs, None);
    IterConcat(Folders(cats, feeds, roots, 0), FeedOutlines(fs), None);
  }

  lemma RootCount(cats: seq<Category>, feeds: seq<Feed>, x: string, it: Item)
    requires WellFormed(cats, feeds) && Owned(cats, feeds, it, x)
    requires forall i | 0 <= i < |Children(cats, "")| :: DepthIs(ById(cats), Children(cats, "")[i], 0)
    ensures multiset(IterOutlines(Folders(cats, feeds, Children(cats, ""), 0), None))[it] == 1
  {
    hide FolderOf, Folders, Children, SortedFeeds, ItemsOf, IterOutlines, Strip, Export;
    var t := ById(cats);
    ExportYields(cats, feeds);
    ChildrenAre(cats, "");
    var dx: nat :| DepthIs(t, x, dx);
    FoldersCount(cats, feeds, Children(cats, ""), 0, None, x, dx, it);
    AncestorDepth(t, x, dx, dx);
    assert Ancestor(t, x, dx, dx) in Children(cats, "");
  }

  /** Walking the exported outlines yields every category under its parent's name and every feed
      under its category's name, each exactly once, and nothing else. */
  lemma ExportListsOnce(cats: seq<Category>, feeds: seq<Feed>, it: Item)
    requires WellFormed(cats, feeds)
    ensures multiset(IterOutlines(Export(cats, feeds), None))[it] == if Listed(cats, feeds, it) then 1 else 0
  {
    hide FolderOf, Folders, Children, SortedFeeds, ItemsOf, IterOutlines, Strip, Export;
    ExportYields(cats, feeds);
    LooseItems(cats, feeds);
    var roots := Children(cats, "");
    var inside := IterOutlines(Folders(cats, feeds, roots, 0), None);
    var loose := FeedItemsOf(SortedFeeds(ById(cats), feeds, ""), None);
    assert multiset(inside + loose)[it] == multiset(inside)[it] + multiset(loose)[it];
    ItemCount(loose, it);
    if x :| x in ById(cats) && Owned(cats, feeds, it, x) {
      RootCount(cats, feeds, x, it);
      assert !Loose(cats, feeds, it);
    } else {
      if it in inside {
        FoldersSound(cats, feeds, roots, 0, None, it);
      }
      assert it in inside <==> multiset(inside)[it] > 0;
    }
  }

  lemma ExportLists(cats: seq<Category>, feeds: seq<Feed>, it: Item)
    requires WellFormed(cats, feeds)
    ensures it in IterOutlines(Export(cats, feeds), None) <==> Listed(cats, feeds, it)
  {
    ExportListsOnce(cats, feeds, it);
    var items := IterOutlines(Export(cats, feeds), None);
    assert it in items <==> multiset(items)[it] > 0;
  }

  // ── Theorem: the round trip ──────────────────────────────────────────────

  /** The same forest and the same placement, up to ids, order and trimmed titles. */
  ghost predicate SameList(cats: seq<Category>, feeds: seq<Feed>, cats': seq<Category>, feeds': seq<Feed>) {
    && Forest(cats') && |cats'| == |cats| && |feeds'| == |feeds|
    && (forall c | c in cats :: SomeCategory(cats', c.name, ParentOf(ById(cats), c.id)))
    && (forall f | f in feeds :: SomeFeed(cats', feeds', AsRow(f, NameOf(ById(cats), f.categoryId))))
  }

  ghost predicate SomeCategory(cats: seq<Category>, name: string, parent: Option<string>) {
    exists c | c in cats :: c.name == name && ParentOf(ById(cats), c.id) == parent
  }

  ghost predicate SomeFeed(cats: seq<Category>, feeds: seq<Feed>, row: FeedRow) {
    exists f | f in feeds ::
      && f.url == row.url && f.title == Or(row.title, row.url) && f.siteUrl == row.siteUrl
      && NameOf(ById(cats), f.categoryId) == row.categoryName
  }

  /** Fresh ids: never empty and never the same. */
  ghost predicate Fresh(uuid: nat -> string) {
    (forall i :: uuid(i) != "") && (forall i, j | uuid(i) == uuid(j) :: i == j)
  }

  lemma {:induction false} RowsFromItems(items: seq<Item>, uuid: nat -> string)
    requires Fresh(uuid)
    ensures var rows := FirstFolders(items, uuid);
            && FreshRows([], rows)
            && (forall i | 0 <= i < |rows| :: FolderItem(rows[i].name, rows[i].parentName) in items)
            && (forall i | 0 <= i < |rows| :: exists k | 0 <= k < |items| :: rows[i].lanceId == uuid(k))
  {
    if items != [] {
      var n := |items| - 1;
      RowsFromItems(items[..n], uuid);
      var before, rows := FirstFolders(items[..n], uuid), FirstFolders(items, uuid);
      forall i | 0 <= i < |rows|
        ensures FolderItem(rows[i].name, rows[i].parentName) in items
        ensures exists k | 0 <= k < |items| :: rows[i].lanceId == uuid(k)
      {
        if i < |before| {
          assert rows[i] == before[i];
          var k :| 0 <= k < n && before[i].lanceId == uuid(k);
        } else {
          assert items[n] == FolderItem(rows[i].name, rows[i].parentName);
        }
      }
    }
  }

  lemma {:induction false} FeedsOfAre(items: seq<Item>, row: FeedRow)
    ensures row in FeedsOf(items) <==> FeedItem(row) in items
  {
    if items != [] {
      var n := |items| - 1;
      FeedsOfAre(items[..n], row);
      assert items == items[..n] + [items[n]];
    }
  }

  /** One new feed for each address among the rows. */
  lemma {:induction false} BatchUrls(rows: seq<FeedRow>, ids: map<string, string>, uuid: nat -> string)
    ensures var batch := Batch({}, rows, ids, uuid);
            DistinctUrls(batch) && forall r | r in rows :: r.url in Urls(batch)
  {
    if rows != [] {
      var n := |rows| - 1;
      BatchUrls(rows[..n], ids, uuid);
      var before, batch := Batch({}, rows[..n], ids, uuid), Batch({}, rows, ids, uuid);
      assert rows == rows[..n] + [rows[n]];
      if batch != before {
        UrlsSnoc(before, batch[|before|]);
      }
    }
  }

  ghost predicate MadeFrom(f: Feed, rows: seq<FeedRow>, ids: map<string, string>) {
    exists r | r in rows :: f == NewFeed(r, ids, f.id)
  }

  ghost predicate AllMadeFrom(feeds: seq<Feed>, rows: seq<FeedRow>, ids: map<string, string>) {
    forall f | f in feeds :: MadeFrom(f, rows, ids)
  }

  /** Each new feed is made from one of the rows. */
  lemma {:induction false} BatchRows(rows: seq<FeedRow>, ids: map<string, string>, uuid: nat -> string)
    ensures AllMadeFrom(Batch({}, rows, ids, uuid), rows, ids)
  {
    if rows != [] {
      var n := |rows| - 1;
      BatchRows(rows[..n], ids, uuid);
      assert rows == rows[..n] + [rows[n]];
      MadeFromMore(Batch({}, rows[..n], ids, uuid), rows[..n], rows[n], ids, uuid(n));
    }
  }

  lemma MadeFromMore(feeds: seq<Feed>, rows: seq<FeedRow>, row: FeedRow, ids: map<string, string>, id: string)
    requires AllMadeFrom(feeds, rows, ids)
    ensures AllMadeFrom(feeds, rows + [row], ids) && AllMadeFrom(feeds + [NewFeed(row, ids, id)], rows + [row], ids)
  {
    var f := NewFeed(row, ids, id);
    assert row in rows + [row] && f == NewFeed(row, ids, f.id);
    forall g | g in feeds ensures MadeFrom(g, rows + [row], ids) {
      assert MadeFrom(g, rows, ids);
      var r :| r in rows && g == NewFeed(r, ids, g.id);
      assert r in rows + [row];
    }
  }

  // ── Counting by names and addresses ──────────────────────────────────────

  lemma {:induction false} SizeOfRowNames(rows: seq<CategoryRow>)
    requires DistinctNames(rows)
    ensures |RowNames(rows)| == |rows|
  {
    if rows != [] {
      var n := |rows| - 1;
      SizeOfRowNames(rows[..n]);
      assert rows == rows[..n] + [rows[n]];
      RowNamesSnoc(rows[..n], rows[n]);
    }
  }

  function CategoryNames(cats: seq<Category>): set<string> {
    set c | c in cats :: c.name
  }

  lemma {:induction false} SizeOfNames(cats: seq<Category>)
    requires forall i, j | 0 <= i < j < |cats| :: cats[i].name != cats[j].name
    ensures |CategoryNames(cats)| == |cats|
  {
    if cats != [] {
      var n := |cats| - 1;
      SizeOfNames(cats[..n]);
      assert cats == cats[..n] + [cats[n]];
      assert CategoryNames(cats) == CategoryNames(cats[..n]) + {cats[n].name};
      assert cats[n].name !in CategoryNames(cats[..n]);
    }
  }

  lemma {:induction false} SizeOfUrls(feeds: seq<Feed>)
    requires DistinctUrls(feeds)
    ensures |Urls(feeds)| == |feeds|
  {
    if feeds != [] {
      var n := |feeds| - 1;
      SizeOfUrls(feeds[..n]);
      assert feeds == feeds[..n] + [feeds[n]];
      UrlsSnoc(feeds[..n], feeds[n]);
    }
  }

  // ── Categories ───────────────────────────────────────────────────────────

  /** A folder item of the export names a category and its parent. */
  lemma FolderNamed(cats: seq<Category>, feeds: seq<Feed>, name: string, parent: Option<string>)
    requires WellFormed(cats, feeds)
    ensures FolderItem(name, parent) in IterOutlines(Export(cats, feeds), None) <==>
            exists c | c in cats :: c.name == name && ParentOf(ById(cats), c.id) == parent
  {
    hide Export, IterOutlines, Strip, Or;
    var it := FolderItem(name, parent);
    ExportLists(cats, feeds, it);
    ByIdIs(cats);
    if x :| x in ById(cats) && Owned(cats, feeds, it, x) {
      assert ById(cats)[x] in cats;
    }
    if c :| c in cats && c.name == name && ParentOf(ById(cats), c.id) == parent {
      assert Owned(cats, feeds, it, c.id);
    }
  }

  lemma NamesListed(cats: seq<Category>, feeds: seq<Feed>)
    requires WellFormed(cats, feeds)
    ensures var items := IterOutlines(Export(cats, feeds), None); NamesBefore(items, |items|) == CategoryNames(cats)
  {
    var items := IterOutlines(Export(cats, feeds), None);
    forall n ensures n in NamesBefore(items, |items|) <==> n in CategoryNames(cats) {
      if n in NamesBefore(items, |items|) {
        var j :| 0 <= j < |items| && items[j].FolderItem? && items[j].name == n;
        FolderNamed(cats, feeds, n, items[j].parent);
        assert items[j] in items;
      }
      if n in CategoryNames(cats) {
        var c :| c in cats && c.name == n;
        FolderNamed(cats, feeds, n, ParentOf(ById(cats), c.id));
        var j :| 0 <= j < |items| && items[j] == FolderItem(n, ParentOf(ById(cats), c.id));
      }
    }
  }

  /** The names of the imported parents are those of the rows. */
  lemma WrittenParent(w: Writing, rows: seq<CategoryRow>, i: nat)
    requires AllWritten(w, rows) && i < |rows| && Forest(w.cats) && IdsExist(w)
    ensures w.cats[i] in w.cats && w.cats[i].name == rows[i].name
    ensures ParentOf(ById(w.cats), w.cats[i].id) == rows[i].parentName
  {
    assert WrittenAs(w.ids, rows[i], w.cats[i]);
    ByIdIs(w.cats);
    if "" in ById(w.cats) {
      IdNotEmpty(w.cats, "");
    }
    assert w.cats[i] in w.cats;
  }

  /** Importing the categories of the export. */
  lemma CategoriesReturn(cats: seq<Category>, feeds: seq<Feed>, uuid: nat -> string)
    requires WellFormed(cats, feeds) && Fresh(uuid)
    ensures var w := WriteAll(Writing([], map[]), FirstFolders(IterOutlines(Export(cats, feeds), None), uuid));
            && Forest(w.cats) && IdsExist(w) && |w.cats| == |cats| && w.ids.Keys == CategoryNames(cats)
            && forall c | c in cats :: SomeCategory(w.cats, c.name, ParentOf(ById(cats), c.id))
  {
    hide Export, IterOutlines, FirstFolders, WriteAll, IdsExist, Fresh, ParentOf;
    var items := IterOutlines(Export(cats, feeds), None);
    var rows := FirstFolders(items, uuid);
    WalkListsParents(Export(cats, feeds), None);
    FoldersFirst(items, uuid);
    RowsFromItems(items, uuid);
    NamesListed(cats, feeds);
    forall i | 0 <= i < |rows| ensures rows[i].name != "" {
      FolderNamed(cats, feeds, rows[i].name, rows[i].parentName);
    }
    ParentsResolve(rows);
    LoadedKeepsForest([], rows);
    SizeOfRowNames(rows);
    DistinctCategoryNames(cats, feeds);
    SizeOfNames(cats);
    var w := WriteAll(Writing([], map[]), rows);
    forall c | c in cats ensures SomeCategory(w.cats, c.name, ParentOf(ById(cats), c.id)) {
      assert c.name in RowNames(rows);
      var i :| 0 <= i < |rows| && rows[i].name == c.name;
      FolderNamed(cats, feeds, rows[i].name, rows[i].parentName);
      WrittenParent(w, rows, i);
    }
  }

  lemma DistinctCategoryNames(cats: seq<Category>, feeds: seq<Feed>)
    requires WellFormed(cats, feeds)
    ensures forall i, j | 0 <= i < j < |cats| :: cats[i].name != cats[j].name
  {
    forall i, j | 0 <= i < j < |cats| ensures cats[i].name != cats[j].name {
      assert cats[i] in cats && cats[j] in cats;
    }
  }

  // ── Feeds ────────────────────────────────────────────────────────────────

  /** A feed item of the export is one of the feeds, under the name of its category. */
  lemma FeedNamed(cats: seq<Category>, feeds: seq<Feed>, row: FeedRow)
    requires WellFormed(cats, feeds)
    ensures FeedItem(row) in IterOutlines(Export(cats, feeds), None) <==>
            exists f | f in feeds :: row == AsRow(f, NameOf(ById(cats), f.categoryId))
  {
    hide Export, IterOutlines, Strip, Or;
    var it := FeedItem(row);
    ExportLists(cats, feeds, it);
    if f :| f in feeds && row == AsRow(f, NameOf(ById(cats), f.categoryId)) {
      if f.categoryId in ById(cats) {
        assert Owned(cats, feeds, it, f.categoryId);
      } else {
        assert Loose(cats, feeds, it);
      }
    }
  }

  lemma FeedReturns(cats: seq<Category>, feeds: seq<Feed>, w: Writing, uuid: nat -> string, f: Feed)
    requires WellFormed(cats, feeds) && f in feeds
    requires Forest(w.cats) && IdsExist(w) && w.ids.Keys == CategoryNames(cats)
    ensures SomeFeed(w.cats, Batch({}, FeedsOf(IterOutlines(Export(cats, feeds), None)), w.ids, uuid),
                     AsRow(f, NameOf(ById(cats), f.categoryId)))
  {
    hide Export, IterOutlines, Batch, FeedsOf, Or;
    var rows := FeedsOf(IterOutlines(Export(cats, feeds), None));
    var row := AsRow(f, NameOf(ById(cats), f.categoryId));
    var batch := Batch({}, rows, w.ids, uuid);
    FeedNamed(cats, feeds, row);
    FeedsOfAre(IterOutlines(Export(cats, feeds), None), row);
    BatchUrls(rows, w.ids, uuid);
    BatchRows(rows, w.ids, uuid);
    var i :| 0 <= i < |batch| && batch[i].url == row.url;
    assert MadeFrom(batch[i], rows, w.ids);
    var r :| r in rows && batch[i] == NewFeed(r, w.ids, batch[i].id);
    FeedsOfAre(IterOutlines(Export(cats, feeds), None), r);
    FeedNamed(cats, feeds, r);
    var g :| g in feeds && r == AsRow(g, NameOf(ById(cats), g.categoryId));
    SameFeed(feeds, f, g);
    PlacedByName(cats, feeds, w, row.categoryName, f);
    assert batch[i] in batch;
  }

  /** Looking a category name up in the import gives a category of that name. */
  lemma PlacedByName(cats: seq<Category>, feeds: seq<Feed>, w: Writing, name: Option<string>, f: Feed)
    requires WellFormed(cats, feeds) && name == NameOf(ById(cats), f.categoryId)
    requires Forest(w.cats) && IdsExist(w) && w.ids.Keys == CategoryNames(cats)
    ensures NameOf(ById(w.cats), IdOf(w.ids, name)) == name
  {
    ByIdIs(cats);
    if "" in ById(w.cats) {
      IdNotEmpty(w.cats, "");
    }
    match name
    case Some(n) => {
      assert ById(cats)[f.categoryId] in cats;
      assert n in w.ids;
    }
    case None => {
      assert "" !in CategoryNames(cats);
    }
  }

  lemma FeedsReturn(cats: seq<Category>, feeds: seq<Feed>, w: Writing, uuid: nat -> string)
    requires WellFormed(cats, feeds)
    ensures |Batch({}, FeedsOf(IterOutlines(Export(cats, feeds), None)), w.ids, uuid)| == |feeds|
  {
    hide Export, IterOutlines, Batch, FeedsOf, Or;
    var rows := FeedsOf(IterOutlines(Export(cats, feeds), None));
    var batch := Batch({}, rows, w.ids, uuid);
    BatchUrls(rows, w.ids, uuid);
    BatchRows(rows, w.ids, uuid);
    SizeOfUrls(batch);
    SizeOfUrls(feeds);
    forall u ensures u in Urls(batch) <==> u in Urls(feeds) {
      if u in Urls(batch) {
        var i :| 0 <= i < |batch| && batch[i].url == u;
        assert MadeFrom(batch[i], rows, w.ids);
            var r :| r in rows && batch[i] == NewFeed(r, w.ids, batch[i].id);
        FeedsOfAre(IterOutlines(Export(cats, feeds), None), r);
        FeedNamed(cats, feeds, r);
        var g :| g in feeds && r == AsRow(g, NameOf(ById(cats), g.categoryId));
        var j :| 0 <= j < |feeds| && feeds[j] == g;
      }
      if u in Urls(feeds) {
        var j :| 0 <= j < |feeds| && feeds[j].url == u;
        assert feeds[j] in feeds;
        var row := AsRow(feeds[j], NameOf(ById(cats), feeds[j].categoryId));
        FeedNamed(cats, feeds, row);
        FeedsOfAre(IterOutlines(Export(cats, feeds), None), row);
      }
    }
    assert Urls(batch) == Urls(feeds);
  }

  /** Exporting a well-formed list and importing it into an empty database rebuilds the forest and
      the place of every feed, each feed exactly once. */
  lemma RoundTrip(cats: seq<Category>, feeds: seq<Feed>, uuid: nat -> string, feedUuid: nat -> string)
    requires WellFormed(cats, feeds) && Fresh(uuid)
    ensures var items := IterOutlines(Export(cats, feeds), None);
            var w := WriteAll(Writing([], NameIds([])), FirstFolders(items, uuid));
            SameList(cats, feeds, w.cats, [] + Batch(Urls([]), FeedsOf(items), w.ids, feedUuid))
  {
    var items := IterOutlines(Export(cats, feeds), None);
    var w := WriteAll(Writing([], map[]), FirstFolders(items, uuid));
    CategoriesReturn(cats, feeds, uuid);
    FeedsReturn(cats, feeds, w, feedUuid);
    assert Urls([]) == {};
    var batch := Batch({}, FeedsOf(items), w.ids, feedUuid);
    assert [] + batch == batch;
    forall f | f in feeds ensures SomeFeed(w.cats, batch, AsRow(f, NameOf(ById(cats), f.categoryId))) {
      FeedReturns(cats, feeds, w, feedUuid, f);
    }
  }
}
