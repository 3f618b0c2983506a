/** The order of the exported list: folders by sort order and name, feeds by title, ties in table
    order, and in every place the folders before the feeds. */
module OpmlOrder {
  import opened Wrappers
  import opened CategoryGraph
  import opened OpmlImport
  import opened OpmlExport

  // ── The order of texts ───────────────────────────────────────────────────

  /** The first difference decides, and a text comes before its extensions. */
  ghost predicate ComesFirst(s: string, t: string, n: nat) {
    n <= |s| && n <= |t| && s[..n] == t[..n] && (n == |s| || (n < |t| && s[n] < t[n]))
  }

  lemma {:induction false} TextOrder(s: string, t: string)
    ensures TextLe(s, t) <==> exists n: nat :: ComesFirst(s, t, n)
  {
    if s == "" {
      assert ComesFirst(s, t, 0);
    } else if t != "" && s[0] == t[0] {
      TextOrder(s[1..], t[1..]);
      if n: nat :| ComesFirst(s[1..], t[1..], n) {
        assert s == [s[0]] + s[1..] && t == [t[0]] + t[1..];
        assert ComesFirst(s, t, n + 1);
      }
      if n: nat :| ComesFirst(s, t, n) {
        assert s[1..][..n - 1] == s[..n][1..] && t[1..][..n - 1] == t[..n][1..];
        assert ComesFirst(s[1..], t[1..], n - 1);
      }
    } else {
      if TextLe(s, t) {
        assert ComesFirst(s, t, 0);
      }
      if n: nat :| ComesFirst(s, t, n) {
        SamePrefix(s, t, n);
      }
    }
  }

  lemma SamePrefix(s: string, t: string, n: nat)
    requires n <= |s| && n <= |t| && s[..n] == t[..n]
    ensures n > 0 ==> s[0] == t[0]
  {
    if n > 0 {
      assert s[..n][0] == t[..n][0];
    }
  }

  lemma {:induction false} TextTotal(s: string, t: string)
    ensures TextLe(s, t) || TextLe(t, s)
    ensures TextLe(s, t) && TextLe(t, s) <==> s == t
  {
    if s != "" && t != "" && s[0] == t[0] {
      TextTotal(s[1..], t[1..]);
      assert s == [s[0]] + s[1..] && t == [t[0]] + t[1..];
    }
  }

  lemma {:induction false} TextTransitive(s: string, t: string, u: string)
    requires TextLe(s, t) && TextLe(t, u)
    ensures TextLe(s, u)
  {
    if s != "" && s[0] == t[0] && t[0] == u[0] {
      TextTransitive(s[1..], t[1..], u[1..]);
    }
  }

  // ── A stable sort ────────────────────────────────────────────────────────

  ghost predicate TotalOn<T(!new)>(le: (T, T) -> bool, s: seq<T>) {
    && (forall x, y | x in s && y in s :: le(x, y) || le(y, x))
    && (forall x, y, z | x in s && y in s && z in s && le(x, y) && le(y, z) :: le(x, z))
  }

  ghost predicate InOrder<T(!new)>(s: seq<T>, le: (T, T) -> bool) {
    forall i, j | 0 <= i < j < |s| :: le(s[i], s[j])
  }

  lemma SameElements<T>(s: seq<T>, t: seq<T>)
    requires multiset(s) == multiset(t)
    ensures forall x :: x in s <==> x in t
  {
    forall x ensures x in s <==> x in t {
      assert x in s <==> x in multiset(s);
      assert x in t <==> x in multiset(t);
    }
  }

  lemma {:induction false} InsertedInOrder<T(!new)>(s: seq<T>, x: T, le: (T, T) -> bool)
    requires InOrder(s, le) && TotalOn(le, s + [x])
    ensures InOrder(Inserted(s, x, le), le)
  {
    if s != [] && !le(s[|s| - 1], x) {
      var rest, last := s[..|s| - 1], s[|s| - 1];
      var r := Inserted(rest, x, le);
      TotalPart(le, rest + [x], s + [x]);
      InsertedInOrder(rest, x, le);
      SameElements(r, rest + [x]);
      LastBelow(s, x, rest + [x], le);
      forall i | 0 <= i < |r| ensures le(r[i], last) {
        assert r[i] in r;
      }
    } else if s != [] {
      LastAbove(s, x, le);
    }
  }

  lemma LastBelow<T(!new)>(s: seq<T>, x: T, others: seq<T>, le: (T, T) -> bool)
    requires s != [] && InOrder(s, le) && TotalOn(le, s + [x]) && !le(s[|s| - 1], x)
    requires others == s[..|s| - 1] + [x]
    ensures forall y | y in others :: le(y, s[|s| - 1])
  {
    assert s[|s| - 1] in s + [x] && x in s + [x];
  }

  lemma LastAbove<T(!new)>(s: seq<T>, x: T, le: (T, T) -> bool)
    requires s != [] && InOrder(s, le) && TotalOn(le, s + [x]) && le(s[|s| - 1], x)
    ensures forall i | 0 <= i < |s| :: le(s[i], x)
  {
    var last := s[|s| - 1];
    forall i | 0 <= i < |s| ensures le(s[i], x) {
      assert s[i] in s + [x] && last in s + [x] && x in s + [x];
      assert i < |s| - 1 ==> le(s[i], last);
    }
  }

  lemma {:induction false} SortedInOrder<T(!new)>(s: seq<T>, le: (T, T) -> bool)
    requires TotalOn(le, s)
    ensures InOrder(Sorted(s, le), le)
  {
    hide Inserted;
    if s != [] {
      var rest, last := s[..|s| - 1], s[|s| - 1];
      assert s == rest + [last];
      TotalPart(le, rest, s);
      SortedInOrder(rest, le);
      SameElements(Sorted(rest, le) + [last], s);
      TotalPart(le, Sorted(rest, le) + [last], s);
      InsertedInOrder(Sorted(rest, le), last, le);
    }
  }

  lemma TotalPart<T(!new)>(le: (T, T) -> bool, s: seq<T>, whole: seq<T>)
    requires TotalOn(le, whole) && forall x | x in s :: x in whole
    ensures TotalOn(le, s)
  {
  }

  /** The elements with a property, in their order. */
  function Where<T>(s: seq<T>, p: T -> bool): seq<T> {
    if s == [] then [] else Where(s[..|s| - 1], p) + if p(s[|s| - 1]) then [s[|s| - 1]] else []
  }

  lemma NoneOf<T>(p: T -> bool)
    ensures Where([], p) == []
  {
  }

  lemma WhereSnoc<T>(s: seq<T>, x: T, p: T -> bool)
    ensures Where(s + [x], p) == Where(s, p) + if p(x) then [x] else []
  {
    assert (s + [x])[..|s|] == s;
  }

  lemma {:induction false} InsertedStable<T>(s: seq<T>, x: T, le: (T, T) -> bool, p: T -> bool)
    requires forall y, z | p(y) && p(z) :: le(y, z)
    ensures Where(Inserted(s, x, le), p) == Where(s, p) + if p(x) then [x] else []
  {
    if s == [] || le(s[|s| - 1], x) {
      WhereSnoc(s, x, p);
    } else {
      var rest, last := s[..|s| - 1], s[|s| - 1];
      InsertedStable(rest, x, le, p);
      WhereSnoc(Inserted(rest, x, le), last, p);
    }
  }

  /** Elements that tie keep their order. */
  lemma {:induction false} SortedStable<T>(s: seq<T>, le: (T, T) -> bool, p: T -> bool)
    requires forall y, z | p(y) && p(z) :: le(y, z)
    ensures Where(Sorted(s, le), p) == Where(s, p)
  {
    if s != [] {
      SortedStable(s[..|s| - 1], le, p);
      InsertedStable(Sorted(s[..|s| - 1], le), s[|s| - 1], le, p);
    }
  }

  // ── The order of the list ────────────────────────────────────────────────

  ghost predicate TextFirst(s: string, t: string) {
    exists n: nat :: ComesFirst(s, t, n)
  }

  function WithKey(t: Table, order: int, name: string): string -> bool {
    (id: string) => id in t && t[id].sortOrder == order && t[id].name == name
  }

  function RowWithKey(place: string, order: int, name: string): Category -> bool {
    (c: Category) => c.parentId == place && c.sortOrder == order && c.name == name
  }

  function Ids(cats: seq<Category>): seq<string> {
    if cats == [] then [] else Ids(cats[..|cats| - 1]) + [cats[|cats| - 1].id]
  }

  /** The ids are the children of the place by sort order and then by name; those that have both in
      common are in table order, each once. */
  ghost predicate FoldersInOrder(cats: seq<Category>, place: string, ids: seq<string>) {
    var t := ById(cats);
    && (forall i | 0 <= i < |ids| :: ids[i] in t && t[ids[i]].parentId == place)
    && (forall i, j | 0 <= i < j < |ids| ::
          var a, b := t[ids[i]], t[ids[j]];
          a.sortOrder < b.sortOrder || (a.sortOrder == b.sortOrder && TextFirst(a.name, b.name)))
    && (forall order, name :: Where(ids, WithKey(t, order, name)) == Ids(Where(cats, RowWithKey(place, order, name))))
  }

  function Titled(title: string): Feed -> bool {
    (f: Feed) => f.title == title
  }

  function TitledIn(t: Table, place: string, title: string): Feed -> bool {
    (f: Feed) => f.title == title && place == if f.categoryId in t then f.categoryId else ""
  }

  /** The feeds are those of the place by title; those of one title are in table order. */
  ghost predicate FeedsInOrder(t: Table, feeds: seq<Feed>, place: string, fs: seq<Feed>) {
    && (forall i, j | 0 <= i < j < |fs| :: TextFirst(fs[i].title, fs[j].title))
    && (forall title :: Where(fs, Titled(title)) == Where(feeds, TitledIn(t, place, title)))
  }

  predicate IsFolder(o: Outline, c: Category) {
    o.title == c.name && o.text == c.name && o.xmlUrl == "" && o.htmlUrl == ""
  }

  predicate IsFeed(o: Outline, f: Feed) {
    && o.xmlUrl == f.url && o.htmlUrl == f.siteUrl && o.children == []
    && o.title == (if f.title == "" then f.url else f.title) && o.text == o.title
  }

  /** The outlines of a place: its folders in order, then its feeds in order, and the same inside
      each of the folders. */
  ghost predicate Arranged(cats: seq<Category>, feeds: seq<Feed>, place: string, outlines: seq<Outline>)
    decreases outlines, 1
  {
    exists ids, fs :: ArrangedAs(cats, feeds, place, outlines, ids, fs)
  }

  ghost predicate ArrangedAs(cats: seq<Category>, feeds: seq<Feed>, place: string, outlines: seq<Outline>,
                             ids: seq<string>, fs: seq<Feed>)
    decreases outlines, 0
  {
    && |outlines| == |ids| + |fs|
    && FoldersInOrder(cats, place, ids) && FeedsInOrder(ById(cats), feeds, place, fs)
    && (forall k | 0 <= k < |ids| ::
          IsFolder(outlines[k], ById(cats)[ids[k]]) && Arranged(cats, feeds, ids[k], outlines[k].children))
    && (forall k | 0 <= k < |fs| :: IsFeed(outlines[|ids| + k], fs[k]))
  }

  // ── Theorem: the export is in order ──────────────────────────────────────

  lemma TextLeFirst(s: string, t: string)
    ensures TextLe(s, t) <==> TextFirst(s, t)
  {
    TextOrder(s, t);
  }

  lemma ByKeyIs(t: Table, a: string, b: string)
    requires a in t && b in t
    ensures ByKey(t)(a, b) <==> CategoryLe(t[a], t[b])
  {
  }

  lemma KeysTotal(t: Table, ids: seq<string>)
    requires forall i | 0 <= i < |ids| :: ids[i] in t
    ensures TotalOn(ByKey(t), ids)
  {
    forall x, y | x in ids && y in ids ensures ByKey(t)(x, y) || ByKey(t)(y, x) {
      ByKeyIs(t, x, y);
      ByKeyIs(t, y, x);
      TextTotal(t[x].name, t[y].name);
    }
    forall x, y, z | x in ids && y in ids && z in ids && ByKey(t)(x, y) && ByKey(t)(y, z) ensures ByKey(t)(x, z) {
      ByKeyIs(t, x, y);
      ByKeyIs(t, y, z);
      ByKeyIs(t, x, z);
      if t[x].sortOrder == t[z].sortOrder {
        TextTransitive(t[x].name, t[y].name, t[z].name);
      }
    }
  }

  lemma {:induction false} ChildrenWithKey(cats: seq<Category>, t: Table, pid: string, order: int, name: string)
    requires forall c | c in cats :: c.id in t && t[c.id] == c
    ensures Where(ChildIds(cats, pid), WithKey(t, order, name)) == Ids(Where(cats, RowWithKey(pid, order, name)))
  {
    if cats != [] {
      var rest, c := cats[..|cats| - 1], cats[|cats| - 1];
      ChildrenWithKey(rest, t, pid, order, name);
      assert c in cats && cats == rest + [c];
      WhereSnoc(ChildIds(rest, pid), c.id, WithKey(t, order, name));
      WhereSnoc(rest, c, RowWithKey(pid, order, name));
      var found := Where(rest, RowWithKey(pid, order, name));
      assert (found + [c])[..|found|] == found;
      assert ChildIds(rest, pid) + [] == ChildIds(rest, pid) && found + [] == found;
    }
  }

  lemma ChildrenSorted(cats: seq<Category>, pid: string)
    requires UniqueIds(cats)
    ensures var t, ids := ById(cats), Children(cats, pid);
      && (forall i | 0 <= i < |ids| :: ids[i] in t && t[ids[i]].parentId == pid)
      && (forall i, j | 0 <= i < j < |ids| :: CategoryLe(t[ids[i]], t[ids[j]]))
  {
    hide ById, UniqueIds, Sorted, CategoryLe, ChildIds;
    var t, s, ids := ById(cats), ChildIds(cats, pid), Children(cats, pid);
    ChildrenAre(cats, pid);
    SameElements(ids, s);
    assert forall i | 0 <= i < |ids| :: ids[i] in ids;
    assert forall i | 0 <= i < |s| :: s[i] in s && s[i] in ids;
    KeysTotal(t, s);
    SortedInOrder(s, ByKey(t));
    forall i, j | 0 <= i < j < |ids| ensures CategoryLe(t[ids[i]], t[ids[j]]) {
      ByKeyIs(t, ids[i], ids[j]);
    }
  }

  lemma ChildrenStable(cats: seq<Category>, pid: string, order: int, name: string)
    requires UniqueIds(cats)
    ensures Where(Children(cats, pid), WithKey(ById(cats), order, name)) == Ids(Where(cats, RowWithKey(pid, order, name)))
  {
    hide ById, UniqueIds, Sorted, TextLe, ChildIds, Where;
    var t, p := ById(cats), WithKey(ById(cats), order, name);
    ByIdIs(cats);
    forall x, y | p(x) && p(y) ensures ByKey(t)(x, y) {
      ByKeyIs(t, x, y);
      TextTotal(name, name);
    }
    SortedStable(ChildIds(cats, pid), ByKey(t), p);
    ChildrenWithKey(cats, t, pid, order, name);
  }

  lemma ChildrenInOrder(cats: seq<Category>, pid: string)
    requires UniqueIds(cats)
    ensures FoldersInOrder(cats, pid, Children(cats, pid))
  {
    hide ById, UniqueIds, Where, Children, TextLe, TextFirst;
    var t, ids := ById(cats), Children(cats, pid);
    ChildrenSorted(cats, pid);
    forall i, j | 0 <= i < j < |ids|
      ensures var a, b := t[ids[i]], t[ids[j]];
        a.sortOrder < b.sortOrder || (a.sortOrder == b.sortOrder && TextFirst(a.name, b.name))
    {
      TextLeFirst(t[ids[i]].name, t[ids[j]].name);
    }
    forall order, name ensures Where(ids, WithKey(t, order, name)) == Ids(Where(cats, RowWithKey(pid, order, name))) {
      ChildrenStable(cats, pid, order, name);
    }
  }

  lemma {:induction false} FeedsWithTitle(t: Table, feeds: seq<Feed>, place: string, title: string)
    ensures Where(FeedsIn(t, feeds, place), Titled(title)) == Where(feeds, TitledIn(t, place, title))
  {
    hide Where;
    NoneOf(Titled(title));
    NoneOf(TitledIn(t, place, title));
    if feeds != [] {
      var rest, f := feeds[..|feeds| - 1], feeds[|feeds| - 1];
      FeedsWithTitle(t, rest, place, title);
      assert feeds == rest + [f] && FeedsIn(t, rest, place) + [] == FeedsIn(t, rest, place);
      WhereSnoc(rest, f, TitledIn(t, place, title));
      WhereSnoc(FeedsIn(t, rest, place), f, Titled(title));
    }
  }

  lemma PlaceInOrder(t: Table, feeds: seq<Feed>, place: string)
    ensures FeedsInOrder(t, feeds, place, SortedFeeds(t, feeds, place))
  {
    hide Where, Sorted, TextLe, FeedsIn;
    var s, fs := FeedsIn(t, feeds, place), SortedFeeds(t, feeds, place);
    TitlesTotal(s);
    SortedInOrder(s, ByTitle());
    forall i, j | 0 <= i < j < |fs| ensures TextFirst(fs[i].title, fs[j].title) {
      assert ByTitle()(fs[i], fs[j]);
      TextLeFirst(fs[i].title, fs[j].title);
    }
    forall title ensures Where(fs, Titled(title)) == Where(feeds, TitledIn(t, place, title)) {
      TextTotal(title, title);
      SortedStable(s, ByTitle(), Titled(title));
      FeedsWithTitle(t, feeds, place, title);
    }
  }

  lemma TitlesTotal(fs: seq<Feed>)
    ensures TotalOn(ByTitle(), fs)
  {
    forall x, y | x in fs && y in fs ensures ByTitle()(x, y) || ByTitle()(y, x) {
      TextTotal(x.title, y.title);
    }
    forall x, y, z | x in fs && y in fs && z in fs && ByTitle()(x, y) && ByTitle()(y, z) ensures ByTitle()(x, z) {
      TextTransitive(x.title, y.title, z.title);
    }
  }

  lemma DepthInTable(t: Table, id: string, d: nat)
    requires DepthIs(t, id, d)
    ensures id in t
  {
  }

  lemma {:induction false} FolderAt(cats: seq<Category>, feeds: seq<Feed>, ids: seq<string>, d: nat)
    requires UniqueIds(cats) && d <= |cats| && forall i | 0 <= i < |ids| :: DepthIs(ById(cats), ids[i], d)
    ensures |Folders(cats, feeds, ids, d)| == |ids|
    ensures forall k | 0 <= k < |ids| :: Folders(cats, feeds, ids, d)[k] == FolderOf(cats, feeds, ids[k], d)
  {
    hide ById, UniqueIds, DepthIs, FolderOf;
    if ids != [] {
      FolderAt(cats, feeds, ids[1..], d);
    }
  }

  lemma {:induction false} FeedAt(fs: seq<Feed>)
    ensures |FeedOutlines(fs)| == |fs| && forall k | 0 <= k < |fs| :: IsFeed(FeedOutlines(fs)[k], fs[k])
  {
    if fs != [] {
      FeedAt(fs[1..]);
    }
  }

  lemma {:induction false} PlaceArranged(cats: seq<Category>, feeds: seq<Feed>, place: string, d: nat)
    requires UniqueIds(cats) && d <= |cats|
    requires var ids := Children(cats, place); forall i | 0 <= i < |ids| :: DepthIs(ById(cats), ids[i], d)
    ensures Arranged(cats, feeds, place,
                     Folders(cats, feeds, Children(cats, place), d) + FeedOutlines(SortedFeeds(ById(cats), feeds, place)))
    decreases |cats| - d
  {
    hide Children, SortedFeeds, FeedOutlines, ById, UniqueIds, Folders, FoldersInOrder, FeedsInOrder, DepthIs, IsFeed;
    var ids, fs := Children(cats, place), SortedFeeds(ById(cats), feeds, place);
    var outlines := Folders(cats, feeds, ids, d) + FeedOutlines(fs);
    ChildrenInOrder(cats, place);
    PlaceInOrder(ById(cats), feeds, place);
    FolderAt(cats, feeds, ids, d);
    FeedAt(fs);
    forall k | 0 <= k < |ids|
      ensures ids[k] in ById(cats) && IsFolder(outlines[k], ById(cats)[ids[k]])
      ensures Arranged(cats, feeds, ids[k], outlines[k].children)
    {
      ByIdIs(cats);
      DepthInTable(ById(cats), ids[k], d);
      DepthBound(ById(cats), ids[k], d);
      ChildrenBelow(cats, ids[k], d);
      PlaceArranged(cats, feeds, ids[k], d + 1);
      assert outlines[k] == FolderOf(cats, feeds, ids[k], d);
    }
    assert ArrangedAs(cats, feeds, place, outlines, ids, fs);
  }

  /** For every table with unique ids: every place of the exported list has its folders by sort
      order and name and then its feeds by title, with ties in table order. */
  lemma ExportInOrder(cats: seq<Category>, feeds: seq<Feed>)
    requires UniqueIds(cats)
    ensures Arranged(cats, feeds, "", Export(cats, feeds))
  {
    RootsAtTop(cats);
    PlaceArranged(cats, feeds, "", 0);
  }
}
