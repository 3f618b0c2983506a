/** Which categories and feeds the export writes, for any table with unique ids: the recursion over
    the child lists visits the categories that lead to a root, each once, and no others. */
module OpmlVisits {
  import opened Wrappers
  import opened CategoryGraph
  import opened OpmlImport
  import opened OpmlExport

  // ── The categories visited ───────────────────────────────────────────────

  /** The categories in the order in which their folders are begun. */
  function Visits(cats: seq<Category>, ids: seq<string>, ghost d: nat): seq<string>
    requires UniqueIds(cats) && forall i | 0 <= i < |ids| :: DepthIs(ById(cats), ids[i], d)
    requires d <= |cats|
    decreases |cats| - d, |ids|
  {
    if ids == [] then []
    else
      DepthBound(ById(cats), ids[0], d);
      ByIdIs(cats);
      ChildrenBelow(cats, ids[0], d);
      [ids[0]] + Visits(cats, Children(cats, ids[0]), d + 1) + Visits(cats, ids[1..], d)
  }

  /** The categories that an export visits. */
  function Visited(cats: seq<Category>): seq<string>
    requires UniqueIds(cats)
  {
    RootsAtTop(cats);
    Visits(cats, Children(cats, ""), 0)
  }

  /** The first category, what is visited below it, and the rest. */
  lemma VisitsCons(cats: seq<Category>, ids: seq<string>, d: nat)
    requires UniqueIds(cats) && forall i | 0 <= i < |ids| :: DepthIs(ById(cats), ids[i], d)
    requires d <= |cats| && ids != []
    ensures d + 1 <= |cats| && NoDuplicates(Children(cats, ids[0])) && ids[0] in ById(cats)
    ensures forall i | 0 <= i < |Children(cats, ids[0])| :: DepthIs(ById(cats), Children(cats, ids[0])[i], d + 1)
    ensures Visits(cats, ids, d) == [ids[0]] + Visits(cats, Children(cats, ids[0]), d + 1) + Visits(cats, ids[1..], d)
  {
    hide Children, ById, UniqueIds;
    DepthBound(ById(cats), ids[0], d);
    ByIdIs(cats);
    ChildrenBelow(cats, ids[0], d);
    ChildrenAre(cats, ids[0]);
  }

  lemma CountParts<T>(x: T, a: seq<T>, b: seq<T>, y: T)
    ensures multiset([x] + a + b)[y] == (if x == y then 1 else 0) + multiset(a)[y] + multiset(b)[y]
  {
  }

  /** A category is visited from the given ones once if one of them is it or one of its ancestors,
      and otherwise not at all. */
  lemma {:induction false} VisitCount(cats: seq<Category>, ids: seq<string>, d: nat, x: string, dx: nat)
    requires UniqueIds(cats) && d <= |cats| && NoDuplicates(ids)
    requires forall i | 0 <= i < |ids| :: DepthIs(ById(cats), ids[i], d)
    requires DepthIs(ById(cats), x, dx)
    ensures multiset(Visits(cats, ids, d))[x] == if dx >= d && Ancestor(ById(cats), x, dx, dx - d) in ids then 1 else 0
    decreases |cats| - d, |ids|
  {
    hide Children, ById, UniqueIds, DepthIs, Ancestor, Visits;
    if ids == [] {
      NoVisits(cats, d);
    } else {
      var id := ids[0];
      VisitsCons(cats, ids, d);
      VisitCount(cats, Children(cats, id), d + 1, x, dx);
      VisitCount(cats, ids[1..], d, x, dx);
      CountParts(id, Visits(cats, Children(cats, id), d + 1), Visits(cats, ids[1..], d), x);
      AncestorIsChild(cats, id, d, x, dx);
      if dx >= d {
        FirstOfRest(ids, Ancestor(ById(cats), x, dx, dx - d));
      }
    }
  }

  lemma NoVisits(cats: seq<Category>, d: nat)
    requires UniqueIds(cats) && d <= |cats|
    ensures Visits(cats, [], d) == []
  {
  }

  lemma FirstOfRest(ids: seq<string>, a: string)
    requires NoDuplicates(ids) && ids != []
    ensures a in ids <==> a == ids[0] || a in ids[1..]
    ensures !(a == ids[0] && a in ids[1..])
  {
  }

  /** Below a category are itself and what is below its children. */
  lemma AncestorIsChild(cats: seq<Category>, id: string, d: nat, x: string, dx: nat)
    requires UniqueIds(cats) && DepthIs(ById(cats), id, d) && DepthIs(ById(cats), x, dx)
    ensures dx > d && Ancestor(ById(cats), x, dx, dx - d - 1) in Children(cats, id) <==>
            dx > d && Ancestor(ById(cats), x, dx, dx - d) == id
    ensures dx <= d ==> (dx == d && Ancestor(ById(cats), x, dx, 0) == id <==> x == id)
    ensures dx > d ==> x != id
  {
    var t := ById(cats);
    ChildrenAre(cats, id);
    IdNotEmpty(cats, id);
    if dx > d {
      AncestorDepth(t, x, dx, dx - d - 1);
    }
    if x == id {
      DepthUnique(t, x, d, dx);
    }
  }

  lemma {:induction false} VisitSound(cats: seq<Category>, ids: seq<string>, d: nat, x: string)
    requires UniqueIds(cats) && d <= |cats|
    requires forall i | 0 <= i < |ids| :: DepthIs(ById(cats), ids[i], d)
    requires x in Visits(cats, ids, d)
    ensures Rooted(ById(cats), x)
    decreases |cats| - d, |ids|
  {
    hide Children, ById, UniqueIds, DepthIs, Visits;
    if ids == [] {
      NoVisits(cats, d);
    } else {
      VisitsCons(cats, ids, d);
      if x == ids[0] {
        assert DepthIs(ById(cats), x, d);
      } else if x in Visits(cats, Children(cats, ids[0]), d + 1) {
        VisitSound(cats, Children(cats, ids[0]), d + 1, x);
      } else {
        VisitSound(cats, ids[1..], d, x);
      }
    }
  }

  /** For every table with unique ids: a category that leads to a root is visited exactly once, and
      one that does not is never visited. */
  lemma VisitedOnce(cats: seq<Category>, x: string)
    requires UniqueIds(cats)
    ensures multiset(Visited(cats))[x] == if Rooted(ById(cats), x) then 1 else 0
  {
    hide Children, ById, UniqueIds, Visits;
    var t := ById(cats);
    RootsAtTop(cats);
    ChildrenAre(cats, "");
    if Rooted(t, x) {
      var dx: nat :| DepthIs(t, x, dx);
      VisitCount(cats, Children(cats, ""), 0, x, dx);
      AncestorDepth(t, x, dx, dx);
      assert Ancestor(t, x, dx, dx) in Children(cats, "");
    } else if x in Visited(cats) {
      VisitSound(cats, Children(cats, ""), 0, x);
    }
  }

  /** In a forest every category is visited exactly once. */
  lemma ForestVisitedOnce(cats: seq<Category>, x: string)
    requires Forest(cats)
    ensures multiset(Visited(cats))[x] == if x in ById(cats) then 1 else 0
  {
    VisitedOnce(cats, x);
    if d: nat :| DepthIs(ById(cats), x, d) {
      assert x in ById(cats);
    }
  }

  // ── What is written for them ─────────────────────────────────────────────

  /** An outline without what is inside it. */
  function Head(o: Outline): Outline {
    o.(children := [])
  }

  /** All outlines of a body, each without what is inside it. */
  function Flat(nodes: seq<Outline>): seq<Outline>
    decreases nodes
  {
    if nodes == [] then [] else [Head(nodes[0])] + Flat(nodes[0].children) + Flat(nodes[1..])
  }

  lemma {:induction false} FlatConcat(a: seq<Outline>, b: seq<Outline>)
    ensures Flat(a + b) == Flat(a) + Flat(b)
  {
    if a == [] {
      assert a + b == b;
    } else {
      assert (a + b)[1..] == a[1..] + b;
      FlatConcat(a[1..], b);
    }
  }

  lemma {:induction false} FlatFeeds(fs: seq<Feed>)
    ensures Flat(FeedOutlines(fs)) == FeedOutlines(fs)
  {
    if fs != [] {
      FlatFeeds(fs[1..]);
      assert FeedOutlines(fs)[1..] == FeedOutlines(fs[1..]);
    }
  }

  lemma {:induction false} FeedOutlinesConcat(a: seq<Feed>, b: seq<Feed>)
    ensures FeedOutlines(a + b) == FeedOutlines(a) + FeedOutlines(b)
  {
    if a == [] {
      assert a + b == b;
    } else {
      assert (a + b)[1..] == a[1..] + b;
      FeedOutlinesConcat(a[1..], b);
    }
  }

  /** The folder outline of a category. */
  function Heading(t: Table, id: string): Outline {
    if id in t then Outline(t[id].name, t[id].name, "", "", []) else Outline("", "", "", "", [])
  }

  function Headings(t: Table, ids: seq<string>): seq<Outline> {
    if ids == [] then [] else [Heading(t, ids[0])] + Headings(t, ids[1..])
  }

  lemma {:induction false} HeadingsConcat(t: Table, a: seq<string>, b: seq<string>)
    ensures Headings(t, a + b) == Headings(t, a) + Headings(t, b)
  {
    if a == [] {
      assert a + b == b;
    } else {
      assert (a + b)[1..] == a[1..] + b;
      HeadingsConcat(t, a[1..], b);
    }
  }

  /** The feeds written for the given categories. */
  function FeedsAt(t: Table, feeds: seq<Feed>, ids: seq<string>): seq<Feed> {
    if ids == [] then [] else SortedFeeds(t, feeds, ids[0]) + FeedsAt(t, feeds, ids[1..])
  }

  lemma {:induction false} FeedsAtConcat(t: Table, feeds: seq<Feed>, a: seq<string>, b: seq<string>)
    ensures FeedsAt(t, feeds, a + b) == FeedsAt(t, feeds, a) + FeedsAt(t, feeds, b)
  {
    if a == [] {
      assert a + b == b;
    } else {
      assert (a + b)[1..] == a[1..] + b;
      FeedsAtConcat(t, feeds, a[1..], b);
    }
  }

  /** The outlines written for the given categories: their folders and their feeds. */
  function Written(t: Table, feeds: seq<Feed>, ids: seq<string>): multiset<Outline> {
    multiset(Headings(t, ids)) + multiset(FeedOutlines(FeedsAt(t, feeds, ids)))
  }

  lemma WrittenParts(t: Table, feeds: seq<Feed>, id: string, a: seq<string>, b: seq<string>)
    ensures Written(t, feeds, [id] + a + b) ==
            multiset{Heading(t, id)} + multiset(FeedOutlines(SortedFeeds(t, feeds, id)))
            + Written(t, feeds, a) + Written(t, feeds, b)
  {
    assert [id] + a + b == [id] + (a + b) && ([id] + (a + b))[1..] == a + b;
    HeadingsConcat(t, a, b);
    FeedsAtConcat(t, feeds, a, b);
    FeedOutlinesConcat(SortedFeeds(t, feeds, id), FeedsAt(t, feeds, a) + FeedsAt(t, feeds, b));
    FeedOutlinesConcat(FeedsAt(t, feeds, a), FeedsAt(t, feeds, b));
  }

  lemma {:induction false} FoldersWrite(cats: seq<Category>, feeds: seq<Feed>, ids: seq<string>, d: nat)
    requires UniqueIds(cats) && d <= |cats|
    requires forall i | 0 <= i < |ids| :: DepthIs(ById(cats), ids[i], d)
    ensures multiset(Flat(Folders(cats, feeds, ids, d))) == Written(ById(cats), feeds, Visits(cats, ids, d))
    decreases |cats| - d, |ids|
  {
    hide Children, SortedFeeds, FeedOutlines, Written, Heading, Flat, ById, UniqueIds, DepthIs, Visits, Folders;
    var t := ById(cats);
    if ids == [] {
      NoVisits(cats, d);
      NoFolders(cats, feeds, d);
      WrittenNothing(t, feeds);
    } else {
      VisitsCons(cats, ids, d);
      FirstFolder(cats, feeds, ids, d);
      FoldersWrite(cats, feeds, Children(cats, ids[0]), d + 1);
      FoldersWrite(cats, feeds, ids[1..], d);
      WrittenParts(t, feeds, ids[0], Visits(cats, Children(cats, ids[0]), d + 1), Visits(cats, ids[1..], d));
      PartsCounted(Heading(t, ids[0]), Flat(Folders(cats, feeds, Children(cats, ids[0]), d + 1)),
                   FeedOutlines(SortedFeeds(t, feeds, ids[0])), Flat(Folders(cats, feeds, ids[1..], d)));
    }
  }

  lemma PartsCounted<T>(head: T, a: seq<T>, b: seq<T>, rest: seq<T>)
    ensures multiset([head] + (a + b) + rest) == multiset{head} + multiset(b) + multiset(a) + multiset(rest)
  {
  }

  lemma NoFolders(cats: seq<Category>, feeds: seq<Feed>, d: nat)
    requires UniqueIds(cats) && d <= |cats|
    ensures Flat(Folders(cats, feeds, [], d)) == []
  {
  }

  lemma FirstFolder(cats: seq<Category>, feeds: seq<Feed>, ids: seq<string>, d: nat)
    requires UniqueIds(cats) && d + 1 <= |cats| && ids != [] && ids[0] in ById(cats)
    requires forall i | 0 <= i < |ids| :: DepthIs(ById(cats), ids[i], d)
    requires forall i | 0 <= i < |Children(cats, ids[0])| :: DepthIs(ById(cats), Children(cats, ids[0])[i], d + 1)
    ensures Flat(Folders(cats, feeds, ids, d)) ==
            [Heading(ById(cats), ids[0])]
            + (Flat(Folders(cats, feeds, Children(cats, ids[0]), d + 1)) + FeedOutlines(SortedFeeds(ById(cats), feeds, ids[0])))
            + Flat(Folders(cats, feeds, ids[1..], d))
  {
    hide Children, SortedFeeds, ById, UniqueIds, DepthIs;
    var inside, fs := Folders(cats, feeds, Children(cats, ids[0]), d + 1), SortedFeeds(ById(cats), feeds, ids[0]);
    FlatConcat(inside, FeedOutlines(fs));
    FlatFeeds(fs);
    var folders := Folders(cats, feeds, ids, d);
    assert folders[1..] == Folders(cats, feeds, ids[1..], d);
    assert folders[0] == FolderOf(cats, feeds, ids[0], d);
    assert folders[0].children == inside + FeedOutlines(fs);
  }

  lemma WrittenNothing(t: Table, feeds: seq<Feed>)
    ensures Written(t, feeds, []) == multiset{}
  {
  }

  /** The exported body holds the folders of the visited categories with their feeds, and the feeds
      of no known category; each as often as it is visited, and nothing else. */
  lemma ExportWrites(cats: seq<Category>, feeds: seq<Feed>)
    requires UniqueIds(cats)
    ensures multiset(Flat(Export(cats, feeds))) ==
            Written(ById(cats), feeds, Visited(cats)) + multiset(FeedOutlines(SortedFeeds(ById(cats), feeds, "")))
  {
    hide Children, SortedFeeds, Written, ById, UniqueIds, DepthIs, Visits, Folders;
    RootsAtTop(cats);
    var loose := SortedFeeds(ById(cats), feeds, "");
    FlatConcat(Folders(cats, feeds, Children(cats, ""), 0), FeedOutlines(loose));
    FlatFeeds(loose);
    FoldersWrite(cats, feeds, Children(cats, ""), 0);
  }

  // ── Which feeds are exported ─────────────────────────────────────────────

  lemma {:induction false} FeedsInCount(t: Table, feeds: seq<Feed>, id: string, f: Feed)
    ensures multiset(FeedsIn(t, feeds, id))[f] == if Placed(t, f) == id then multiset(feeds)[f] else 0
  {
    hide Placed;
    if feeds != [] {
      FeedsInCount(t, feeds[..|feeds| - 1], id, f);
      assert feeds == feeds[..|feeds| - 1] + [feeds[|feeds| - 1]];
    }
  }

  lemma {:induction false} FeedsAtCount(t: Table, feeds: seq<Feed>, ids: seq<string>, f: Feed)
    ensures multiset(ids)[Placed(t, f)] <= 1 ==>
            multiset(FeedsAt(t, feeds, ids))[f] == if Placed(t, f) in ids then multiset(feeds)[f] else 0
  {
    if ids != [] {
      FeedsAtCount(t, feeds, ids[1..], f);
      FeedsInCount(t, feeds, ids[0], f);
      assert ids == [ids[0]] + ids[1..];
      assert multiset(ids)[Placed(t, f)] <= 1 ==> !(Placed(t, f) == ids[0] && Placed(t, f) in ids[1..]);
    }
  }

  /** For every table with unique ids: a feed is exported as often as it is in the table, except that
      the feeds of a category that leads to no root are never exported. */
  lemma FeedsExported(cats: seq<Category>, feeds: seq<Feed>, f: Feed)
    requires UniqueIds(cats)
    ensures var t := ById(cats);
      multiset(FeedsAt(t, feeds, Visited(cats)) + SortedFeeds(t, feeds, ""))[f] ==
      if f.categoryId in t && !Rooted(t, f.categoryId) then 0 else multiset(feeds)[f]
  {
    hide Visited;
    var t := ById(cats);
    if "" in t {
      IdNotEmpty(cats, "");
    }
    VisitedOnce(cats, Placed(t, f));
    FeedsAtCount(t, feeds, Visited(cats), f);
    FeedsInCount(t, feeds, "", f);
    if Rooted(t, Placed(t, f)) {
      var d: nat :| DepthIs(t, Placed(t, f), d);
    }
    assert Placed(t, f) in Visited(cats) <==> multiset(Visited(cats))[Placed(t, f)] > 0;
  }
}
