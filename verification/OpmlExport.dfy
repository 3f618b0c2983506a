/** Building the outline tree of a subscription list from the category and feed tables. */
module OpmlExport {
  import opened Wrappers
  import opened CategoryGraph
  import opened OpmlImport

  // ── Order ────────────────────────────────────────────────────────────────

  predicate TextLe(s: string, t: string) {
    s == "" || (t != "" && (s[0] < t[0] || (s[0] == t[0] && TextLe(s[1..], t[1..]))))
  }

  predicate CategoryLe(a: Category, b: Category) {
    a.sortOrder < b.sortOrder || (a.sortOrder == b.sortOrder && TextLe(a.name, b.name))
  }

  /** The stable sort of the library, by an order on the elements. */
  function Sorted<T(==)>(s: seq<T>, le: (T, T) -> bool): (r: seq<T>)
    ensures multiset(r) == multiset(s)
  {
    if s == [] then []
    else
      assert s == s[..|s| - 1] + [s[|s| - 1]];
      Inserted(Sorted(s[..|s| - 1], le), s[|s| - 1], le)
  }

  function Inserted<T(==)>(s: seq<T>, x: T, le: (T, T) -> bool): (r: seq<T>)
    ensures multiset(r) == multiset(s) + multiset{x}
  {
    if s == [] || le(s[|s| - 1], x) then s + [x]
    else
      assert s == s[..|s| - 1] + [s[|s| - 1]];
      Inserted(s[..|s| - 1], x, le) + [s[|s| - 1]]
  }

  function ByKey(t: Table): (string, string) -> bool {
    (a: string, b: string) => a in t && b in t && CategoryLe(t[a], t[b])
  }

  function ByTitle(): (Feed, Feed) -> bool {
    (a: Feed, b: Feed) => TextLe(a.title, b.title)
  }

  // ── What is exported ─────────────────────────────────────────────────────

  /** The ids of the rows with the given parent, in table order. */
  function ChildIds(cats: seq<Category>, pid: string): seq<string> {
    if cats == [] then []
    else
      var c := cats[|cats| - 1];
      ChildIds(cats[..|cats| - 1], pid) + if c.parentId == pid then [c.id] else []
  }

  function Children(cats: seq<Category>, pid: string): seq<string> {
    Sorted(ChildIds(cats, pid), ByKey(ById(cats)))
  }

  /** The feeds of one category; those of no known category are asked for with the empty id. */
  function Placed(t: Table, f: Feed): string {
    if f.categoryId in t then f.categoryId else ""
  }

  function FeedsIn(t: Table, feeds: seq<Feed>, cid: string): seq<Feed> {
    if feeds == [] then []
    else
      var f := feeds[|feeds| - 1];
      FeedsIn(t, feeds[..|feeds| - 1], cid) + if Placed(t, f) == cid then [f] else []
  }

  function FeedOutline(f: Feed): Outline {
    Outline(Or(f.title, f.url), Or(f.title, f.url), f.url, f.siteUrl, [])
  }

  function FeedOutlines(fs: seq<Feed>): seq<Outline> {
    if fs == [] then [] else [FeedOutline(fs[0])] + FeedOutlines(fs[1..])
  }

  function SortedFeeds(t: Table, feeds: seq<Feed>, cid: string): seq<Feed> {
    Sorted(FeedsIn(t, feeds, cid), ByTitle())
  }

  /** A category's folder: its child folders, then its feeds. */
  function FolderOf(cats: seq<Category>, feeds: seq<Feed>, cid: string, ghost d: nat): Outline
    requires UniqueIds(cats) && DepthIs(ById(cats), cid, d)
    decreases |cats| - d, 0
  {
    DepthBound(ById(cats), cid, d);
    ByIdIs(cats);
    ChildrenBelow(cats, cid, d);
    var name := ById(cats)[cid].name;
    Outline(name, name, "", "",
            Folders(cats, feeds, Children(cats, cid), d + 1) + FeedOutlines(SortedFeeds(ById(cats), feeds, cid)))
  }

  function Folders(cats: seq<Category>, feeds: seq<Feed>, ids: seq<string>, ghost d: nat): seq<Outline>
    requires UniqueIds(cats) && forall i | 0 <= i < |ids| :: DepthIs(ById(cats), ids[i], d)
    requires d <= |cats|
    decreases |cats| - d, |ids| + 1
  {
    if ids == [] then []
    else [FolderOf(cats, feeds, ids[0], d)] + Folders(cats, feeds, ids[1..], d)
  }

  /** The body of the exported file: the root folders, then the feeds of no category. */
  function Export(cats: seq<Category>, feeds: seq<Feed>): seq<Outline>
    requires UniqueIds(cats)
  {
    RootsAtTop(cats);
    Folders(cats, feeds, Children(cats, ""), 0) + FeedOutlines(SortedFeeds(ById(cats), feeds, ""))
  }

  // ── Children ─────────────────────────────────────────────────────────────

  lemma {:induction false} ChildIdsAre(cats: seq<Category>, pid: string)
    requires UniqueIds(cats)
    ensures forall id :: multiset(ChildIds(cats, pid))[id] ==
                         if id in ById(cats) && ById(cats)[id].parentId == pid then 1 else 0
  {
    if cats != [] {
      var before, c := cats[..|cats| - 1], cats[|cats| - 1];
      LastApart(cats);
      ChildIdsAre(before, pid);
      ByIdRows(before);
      assert c.id !in ById(before);
    }
  }

  /** The children of a category, each once. */
  lemma ChildrenAre(cats: seq<Category>, pid: string)
    requires UniqueIds(cats)
    ensures forall id :: id in Children(cats, pid) <==> id in ById(cats) && ById(cats)[id].parentId == pid
    ensures NoDuplicates(Children(cats, pid))
  {
    var ids := Children(cats, pid);
    ChildIdsAre(cats, pid);
    forall id ensures id in ids <==> id in ById(cats) && ById(cats)[id].parentId == pid {
      assert id in ids <==> multiset(ids)[id] > 0;
    }
    forall i, j | 0 <= i < j < |ids| ensures ids[i] != ids[j] {
      if ids[i] == ids[j] {
        TwiceCounted(ids, i, j);
      }
    }
  }

  ghost predicate NoDuplicates<T>(s: seq<T>) {
    forall i, j | 0 <= i < j < |s| :: s[i] != s[j]
  }

  lemma TwiceCounted<T>(s: seq<T>, i: nat, j: nat)
    requires i < j < |s| && s[i] == s[j]
    ensures multiset(s)[s[i]] >= 2
  {
    assert s == s[..j] + [s[j]] + s[j + 1..];
    assert s[..j][i] == s[i];
    assert multiset(s[..j])[s[i]] >= 1;
  }

  lemma ChildrenBelow(cats: seq<Category>, cid: string, d: nat)
    requires UniqueIds(cats) && DepthIs(ById(cats), cid, d)
    ensures var ids := Children(cats, cid); forall i | 0 <= i < |ids| :: DepthIs(ById(cats), ids[i], d + 1)
  {
    ChildrenAre(cats, cid);
    ByIdIs(cats);
    var ids := Children(cats, cid);
    forall i | 0 <= i < |ids| ensures DepthIs(ById(cats), ids[i], d + 1) {
      assert ids[i] in ids;
      IdNotEmpty(cats, cid);
    }
  }

  lemma IdNotEmpty(cats: seq<Category>, id: string)
    requires UniqueIds(cats) && id in ById(cats)
    ensures id != ""
  {
    ByIdIs(cats);
    var i :| 0 <= i < |cats| && cats[i] == ById(cats)[id];
    assert cats[i].id != "";
  }

  lemma RootsAtTop(cats: seq<Category>)
    requires UniqueIds(cats)
    ensures var ids := Children(cats, ""); forall i | 0 <= i < |ids| :: DepthIs(ById(cats), ids[i], 0)
  {
    ChildrenAre(cats, "");
    var ids := Children(cats, "");
    forall i | 0 <= i < |ids| ensures DepthIs(ById(cats), ids[i], 0) {
      assert ids[i] in ids;
    }
  }

  lemma FoldersStep(cats: seq<Category>, feeds: seq<Feed>, ids: seq<string>, i: nat, d: nat, done: seq<Outline>)
    requires UniqueIds(cats) && d <= |cats| && i < |ids|
    requires forall k | 0 <= k < |ids| :: DepthIs(ById(cats), ids[k], d)
    ensures done + Folders(cats, feeds, ids[i..], d)
         == done + [FolderOf(cats, feeds, ids[i], d)] + Folders(cats, feeds, ids[i + 1..], d)
  {
    assert ids[i..][1..] == ids[i + 1..];
  }

  lemma NoneToFold(cats: seq<Category>, feeds: seq<Feed>, ids: seq<string>, d: nat)
    requires UniqueIds(cats) && d <= |cats| && forall k | 0 <= k < |ids| :: DepthIs(ById(cats), ids[k], d)
    ensures ids[0..] == ids && ids[|ids|..] == [] && Folders(cats, feeds, [], d) == []
  {
  }

  // ── The exporter ─────────────────────────────────────────────────────────

  class Exporter {
    const cats: seq<Category>
    const feeds: seq<Feed>
    var catById: Table
    var childrenOf: map<string, seq<string>>
    var feedsByCat: map<string, seq<Feed>>

    constructor (cats: seq<Category>, feeds: seq<Feed>)
      ensures this.cats == cats && this.feeds == feeds
    {
      this.cats := cats;
      this.feeds := feeds;
      catById, childrenOf, feedsByCat := map[], map[], map[];
    }

    ghost predicate Indexed()
      reads this
    {
      && catById == ById(cats)
      && (forall pid | pid != "" :: (if pid in childrenOf then childrenOf[pid] else []) == ChildIds(cats, pid))
      && (forall cid | cid != "" :: (if cid in feedsByCat then feedsByCat[cid] else []) == FeedsIn(catById, feeds, cid))
    }

    method IndexCategories() returns (rootCats: seq<string>)
      modifies this
      ensures catById == ById(cats) && rootCats == ChildIds(cats, "")
      ensures forall pid | pid != "" :: (if pid in childrenOf then childrenOf[pid] else []) == ChildIds(cats, pid)
    {
      catById, childrenOf, rootCats := map[], map[], [];
      for i := 0 to |cats|
        invariant catById == ById(cats[..i]) && rootCats == ChildIds(cats[..i], "")
        invariant forall pid | pid != "" ::
          (if pid in childrenOf then childrenOf[pid] else []) == ChildIds(cats[..i], pid)
      {
        assert cats[..i + 1][..i] == cats[..i];
        var cat := cats[i];
        catById := catById[cat.id := cat];
        var pid := cat.parentId;
        if pid != "" {
          childrenOf := childrenOf[pid := (if pid in childrenOf then childrenOf[pid] else []) + [cat.id]];
        } else {
          rootCats := rootCats + [cat.id];
        }
      }
      assert cats[..|cats|] == cats;
    }

    method IndexFeeds() returns (uncategorised: seq<Feed>)
      requires UniqueIds(cats) && catById == ById(cats)
      modifies `feedsByCat
      ensures uncategorised == FeedsIn(catById, feeds, "")
      ensures forall cid | cid != "" :: (if cid in feedsByCat then feedsByCat[cid] else []) == FeedsIn(catById, feeds, cid)
    {
      feedsByCat, uncategorised := map[], [];
      for i := 0 to |feeds|
        invariant catById == ById(cats)
        invariant uncategorised == FeedsIn(catById, feeds[..i], "")
        invariant forall cid | cid != "" ::
          (if cid in feedsByCat then feedsByCat[cid] else []) == FeedsIn(catById, feeds[..i], cid)
      {
        assert feeds[..i + 1][..i] == feeds[..i];
        var feed := feeds[i];
        var cid := feed.categoryId;
        if cid in catById {
          IdNotEmpty(cats, cid);
        }
        if cid != "" && cid in catById {
          feedsByCat := feedsByCat[cid := (if cid in feedsByCat then feedsByCat[cid] else []) + [feed]];
        } else {
          uncategorised := uncategorised + [feed];
        }
      }
      assert feeds[..|feeds|] == feeds;
    }

    method AddFeeds(fs: seq<Feed>) returns (outlines: seq<Outline>)
      ensures outlines == FeedOutlines(Sorted(fs, ByTitle()))
    {
      outlines := [];
      var sorted := Sorted(fs, ByTitle());
      for i := 0 to |sorted|
        invariant outlines + FeedOutlines(sorted[i..]) == FeedOutlines(sorted)
      {
        assert sorted[i..][1..] == sorted[i + 1..];
        outlines := outlines + [FeedOutline(sorted[i])];
      }
    }

    /** The folder of one category; `d` is its depth, which bounds the recursion. */
    method AddCategory(cid: string, ghost d: nat) returns (folder: Outline)
      requires Indexed() && UniqueIds(cats) && DepthIs(ById(cats), cid, d)
      decreases |cats| - d, 0
      ensures folder == FolderOf(cats, feeds, cid, d)
    {
      hide Sorted, ChildIds, FeedsIn, FeedOutlines;
      DepthBound(ById(cats), cid, d);
      ByIdIs(cats);
      IdNotEmpty(cats, cid);
      ChildrenBelow(cats, cid, d);
      var childIds := Sorted(if cid in childrenOf then childrenOf[cid] else [], ByKey(catById));
      assert childIds == Children(cats, cid);
      var inside := AddCategories(childIds, d + 1);
      var outlines := AddFeeds(if cid in feedsByCat then feedsByCat[cid] else []);
      folder := Outline(catById[cid].name, catById[cid].name, "", "", inside + outlines);
    }

    method AddCategories(ids: seq<string>, ghost d: nat) returns (folders: seq<Outline>)
      requires Indexed() && UniqueIds(cats) && d <= |cats|
      requires forall i | 0 <= i < |ids| :: DepthIs(ById(cats), ids[i], d)
      decreases |cats| - d, 1
      ensures folders == Folders(cats, feeds, ids, d)
    {
      hide Folders, FolderOf, Children, SortedFeeds, ById, UniqueIds, DepthIs, Indexed;
      NoneToFold(cats, feeds, ids, d);
      folders := [];
      for i := 0 to |ids|
        invariant folders + Folders(cats, feeds, ids[i..], d) == Folders(cats, feeds, ids, d)
      {
        var folder := AddCategory(ids[i], d);
        FoldersStep(cats, feeds, ids, i, d, folders);
        folders := folders + [folder];
      }
      assert folders + [] == folders;
    }

    method BuildOpml() returns (body: seq<Outline>)
      requires UniqueIds(cats)
      modifies this
      ensures body == Export(cats, feeds)
    {
      hide Folders, FeedOutlines, ById, UniqueIds, DepthIs, ChildIds, Sorted, FeedsIn;
      var rootCats := IndexCategories();
      var uncategorised := IndexFeeds();
      var roots := Sorted(rootCats, ByKey(catById));
      assert roots == Children(cats, "");
      RootsAtTop(cats);
      body := AddCategories(roots, 0);
      var outlines := AddFeeds(uncategorised);
      body := body + outlines;
    }
  }
}
