/** Reading an outline tree into category and feed rows, and writing the rows to the tables. */
module OpmlImport {
  import opened Wrappers
  import opened CategoryGraph

  /** An outline element; an absent attribute is the empty string. */
  datatype Outline = Outline(text: string, title: string, xmlUrl: string, htmlUrl: string, children: seq<Outline>)

  datatype CategoryRow = CategoryRow(name: string, parentName: Option<string>, sortOrder: int, lanceId: string)
  datatype FeedRow = FeedRow(url: string, title: string, siteUrl: string, categoryName: Option<string>)
  datatype Feed = Feed(id: string, title: string, url: string, siteUrl: string, categoryId: string)

  /** What the walk over the outlines yields. */
  datatype Item = FolderItem(name: string, parent: Option<string>) | FeedItem(feed: FeedRow)

  // ── Text ─────────────────────────────────────────────────────────────────

  predicate IsSpace(c: char) {
    || c in {' ', '\t', '\n', '\r'} || 0x2000 <= c as int <= 0x200A
    || c as int in {0x0B, 0x0C, 0x1C, 0x1D, 0x1E, 0x1F, 0x85, 0xA0, 0x1680, 0x2028, 0x2029, 0x202F, 0x205F, 0x3000}
  }

  function StripRight(s: string): string {
    if s != "" && IsSpace(s[|s| - 1]) then StripRight(s[..|s| - 1]) else s
  }

  function Strip(s: string): string {
    if s != "" && IsSpace(s[0]) then Strip(s[1..]) else StripRight(s)
  }

  /** Printable ASCII is never white space; blanks, tabs and line ends are. */
  lemma SpaceCharacters()
    ensures forall c | '!' <= c <= '~' :: !IsSpace(c)
    ensures forall c | c in {' ', '\t', '\r', '\n'} :: IsSpace(c)
  {
  }

  /** What is cut off at both ends is white space, and what is kept has none there. */
  lemma {:induction false} StripExact(s: string) returns (i: nat, j: nat)
    ensures i <= j <= |s| && Strip(s) == s[i..j]
    ensures forall k | 0 <= k < i || j <= k < |s| :: IsSpace(s[k])
    ensures i < j ==> !IsSpace(s[i]) && !IsSpace(s[j - 1])
  {
    hide IsSpace;
    if s != "" && IsSpace(s[0]) {
      i, j := StripExact(s[1..]);
      i, j := i + 1, j + 1;
    } else {
      i, j := 0, |s|;
      assert s[..|s|] == s;
      while j > 0 && IsSpace(s[j - 1])
        invariant j <= |s| && StripRight(s[..j]) == StripRight(s)
        invariant forall k | j <= k < |s| :: IsSpace(s[k])
      {
        assert s[..j][..j - 1] == s[..j - 1];
        j := j - 1;
      }
    }
  }

  function Or(s: string, t: string): string {
    if s != "" then s else t
  }

  // ── The walk ─────────────────────────────────────────────────────────────

  /** An outline with a feed address is a feed; one with a text is a folder around what is inside
      it; one without either hands its children to the folder around it. */
  function ItemsOf(node: Outline, parent: Option<string>): seq<Item>
    decreases node, 0
  {
    var text := Strip(Or(node.title, node.text));
    if node.xmlUrl != "" then [FeedItem(FeedRow(Strip(node.xmlUrl), text, Strip(node.htmlUrl), parent))]
    else if text != "" then [FolderItem(text, parent)] + IterOutlines(node.children, Some(text))
    else IterOutlines(node.children, parent)
  }

  function IterOutlines(nodes: seq<Outline>, parent: Option<string>): seq<Item>
    decreases nodes, 1
  {
    if nodes == [] then [] else ItemsOf(nodes[0], parent) + IterOutlines(nodes[1..], parent)
  }

  lemma {:induction false} IterConcat(a: seq<Outline>, b: seq<Outline>, parent: Option<string>)
    ensures IterOutlines(a + b, parent) == IterOutlines(a, parent) + IterOutlines(b, parent)
  {
    hide ItemsOf, IterOutlines;
    if a == [] {
      assert a + b == b;
      NoItems(parent);
    } else {
      IterConcat(a[1..], b, parent);
      assert (a + b)[1..] == a[1..] + b;
      FirstItems(a, parent);
      FirstItems(a + b, parent);
    }
  }

  lemma NoItems(parent: Option<string>)
    ensures IterOutlines([], parent) == []
  {
  }

  lemma FirstItems(nodes: seq<Outline>, parent: Option<string>)
    requires nodes != []
    ensures IterOutlines(nodes, parent) == ItemsOf(nodes[0], parent) + IterOutlines(nodes[1..], parent)
  {
  }

  lemma OneOutline(node: Outline, parent: Option<string>)
    ensures IterOutlines([node], parent) == ItemsOf(node, parent)
  {
    assert [node][1..] == [] && IterOutlines([], parent) == [];
  }

  /** A title hides the text, and a text stands in for a missing title. */
  lemma TitleBeforeText(node: Outline, text: string, parent: Option<string>)
    ensures node.title != "" ==> IterOutlines([node.(text := text)], parent) == IterOutlines([node], parent)
    ensures node.title == "" ==> IterOutlines([node.(title := node.text)], parent) == IterOutlines([node], parent)
  {
    OneOutline(node, parent);
    OneOutline(node.(text := text), parent);
    OneOutline(node.(title := node.text), parent);
  }

  /** A folder without a name is as good as what is in it, and what is inside a feed is not read. */
  lemma NamelessIsTransparent(nodes: seq<Outline>, blank: string, xmlUrl: string, parent: Option<string>)
    ensures Strip(blank) == "" ==>
              IterOutlines([Outline(blank, "", "", "", nodes)], parent) == IterOutlines(nodes, parent)
    ensures xmlUrl != "" ==>
              IterOutlines([Outline(blank, "", xmlUrl, "", nodes)], parent) ==
              IterOutlines([Outline(blank, "", xmlUrl, "", [])], parent)
  {
    OneOutline(Outline(blank, "", "", "", nodes), parent);
    OneOutline(Outline(blank, "", xmlUrl, "", nodes), parent);
    OneOutline(Outline(blank, "", xmlUrl, "", []), parent);
  }

  function NamesBefore(items: seq<Item>, i: nat): set<string> {
    set j | 0 <= j < i && j < |items| && items[j].FolderItem? :: items[j].name
  }

  /** Every folder comes after the folder it names as its parent, unless that is known already. */
  ghost predicate ParentsListed(items: seq<Item>, known: set<string>) {
    forall i | 0 <= i < |items| && items[i].FolderItem? && items[i].parent.Some? ::
      items[i].parent.value in known + NamesBefore(items, i)
  }

  function Known(parent: Option<string>): set<string> {
    match parent
    case Some(p) => {p}
    case None => {}
  }

  lemma ListedConcat(a: seq<Item>, b: seq<Item>, known: set<string>)
    requires ParentsListed(a, known) && ParentsListed(b, known)
    ensures ParentsListed(a + b, known)
  {
    var c := a + b;
    forall i | 0 <= i < |c| && c[i].FolderItem? && c[i].parent.Some?
      ensures c[i].parent.value in known + NamesBefore(c, i)
    {
      var p := c[i].parent.value;
      if i < |a| {
        assert p in known + NamesBefore(a, i);
        if p in NamesBefore(a, i) {
          var j :| 0 <= j < i && a[j].FolderItem? && a[j].name == p;
          assert c[j] == a[j];
        }
      } else {
        assert p in known + NamesBefore(b, i - |a|);
        if p in NamesBefore(b, i - |a|) {
          var j :| 0 <= j < i - |a| && b[j].FolderItem? && b[j].name == p;
          assert c[|a| + j] == b[j];
        }
      }
    }
  }

  lemma ListedUnder(text: string, parent: Option<string>, inside: seq<Item>)
    requires ParentsListed(inside, {text})
    ensures ParentsListed([FolderItem(text, parent)] + inside, Known(parent))
  {
    var c := [FolderItem(text, parent)] + inside;
    forall i | 0 <= i < |c| && c[i].FolderItem? && c[i].parent.Some?
      ensures c[i].parent.value in Known(parent) + NamesBefore(c, i)
    {
      if i > 0 {
        var p := c[i].parent.value;
        assert p in {text} + NamesBefore(inside, i - 1);
        if p == text {
          assert c[0].name == p;
        } else {
          var j :| 0 <= j < i - 1 && inside[j].FolderItem? && inside[j].name == p;
          assert c[j + 1] == inside[j];
        }
      }
    }
  }

  /** The walk lists every folder after its parent, for any outline tree. */
  lemma {:induction false} WalkListsParents(nodes: seq<Outline>, parent: Option<string>)
    ensures ParentsListed(IterOutlines(nodes, parent), Known(parent))
    decreases nodes, 1
  {
    if nodes != [] {
      NodeListsParents(nodes[0], parent);
      WalkListsParents(nodes[1..], parent);
      ListedConcat(ItemsOf(nodes[0], parent), IterOutlines(nodes[1..], parent), Known(parent));
    }
  }

  lemma {:induction false} NodeListsParents(node: Outline, parent: Option<string>)
    ensures ParentsListed(ItemsOf(node, parent), Known(parent))
    decreases node, 0
  {
    var text := Strip(Or(node.title, node.text));
    if node.xmlUrl == "" {
      if text != "" {
        WalkListsParents(node.children, Some(text));
        ListedUnder(text, parent, IterOutlines(node.children, Some(text)));
      } else {
        WalkListsParents(node.children, parent);
      }
    }
  }

  // ── The rows ─────────────────────────────────────────────────────────────

  function RowNames(rows: seq<CategoryRow>): set<string> {
    set i | 0 <= i < |rows| :: rows[i].name
  }

  /** The first folder of each name, with a fresh id. */
  function FirstFolders(items: seq<Item>, uuid: nat -> string): seq<CategoryRow> {
    if items == [] then []
    else
      var before, item := FirstFolders(items[..|items| - 1], uuid), items[|items| - 1];
      if item.FolderItem? && item.name !in RowNames(before)
      then before + [CategoryRow(item.name, item.parent, 0, uuid(|items| - 1))]
      else before
  }

  /** The row is made of the k-th item, the first folder of its name. */
  ghost predicate MadeOf(items: seq<Item>, row: CategoryRow, k: nat, uuid: nat -> string) {
    && k < |items| && items[k] == FolderItem(row.name, row.parentName)
    && row.lanceId == uuid(k) && row.sortOrder == 0
    && (forall j | 0 <= j < k :: items[j].FolderItem? ==> items[j].name != row.name)
  }

  /** The rows come from the first folders of each name, in their order. */
  lemma {:induction false} FirstFoldersAre(items: seq<Item>, uuid: nat -> string) returns (from: seq<nat>)
    ensures var rows := FirstFolders(items, uuid);
      && |from| == |rows| && (forall i | 0 <= i < |rows| :: MadeOf(items, rows[i], from[i], uuid))
      && (forall i, j | 0 <= i < j < |rows| :: from[i] < from[j])
    ensures RowNames(FirstFolders(items, uuid)) == NamesBefore(items, |items|)
  {
    from := [];
    if items != [] {
      var n := |items| - 1;
      var before, rows := FirstFolders(items[..n], uuid), FirstFolders(items, uuid);
      from := FirstFoldersAre(items[..n], uuid);
      NamesPrefix(items, n);
      forall i | 0 <= i < |before| ensures MadeOf(items, before[i], from[i], uuid) {
        assert MadeOf(items[..n], before[i], from[i], uuid);
      }
      if rows != before {
        RowNamesSnoc(before, rows[|before|]);
        from := from + [n];
        forall j | 0 <= j < n ensures items[j].FolderItem? ==> items[j].name != rows[|before|].name {
          assert items[j].FolderItem? ==> items[j].name in NamesBefore(items, n);
        }
      }
    }
  }

  lemma {:induction false} FeedsOfBoth(a: seq<Item>, b: seq<Item>)
    ensures FeedsOf(a + b) == FeedsOf(a) + FeedsOf(b)
  {
    if b == [] {
      assert a + b == a;
    } else {
      FeedsOfBoth(a, b[..|b| - 1]);
      assert (a + b)[..|a + b| - 1] == a + b[..|b| - 1];
    }
  }

  /** Every feed item gives its row, in the order of the items. */
  lemma FeedsOfParts(before: seq<Item>, item: Item, after: seq<Item>)
    ensures FeedsOf(before + [item] + after) ==
            FeedsOf(before) + (if item.FeedItem? then [item.feed] else []) + FeedsOf(after)
  {
    FeedsOfBoth(before + [item], after);
    assert (before + [item])[..|before|] == before;
  }

  function FeedsOf(items: seq<Item>): seq<FeedRow> {
    if items == [] then []
    else
      var item := items[|items| - 1];
      FeedsOf(items[..|items| - 1]) + if item.FeedItem? then [item.feed] else []
  }

  method ParseOpml(body: seq<Outline>, uuid: nat -> string) returns (categories: seq<CategoryRow>, feeds: seq<FeedRow>)
    ensures categories == FirstFolders(IterOutlines(body, None), uuid)
    ensures feeds == FeedsOf(IterOutlines(body, None))
  {
    categories, feeds := [], [];
    var seen: set<string> := {};
    var items := IterOutlines(body, None);
    for i := 0 to |items|
      invariant categories == FirstFolders(items[..i], uuid)
      invariant feeds == FeedsOf(items[..i])
      invariant seen == RowNames(categories)
    {
      assert items[..i + 1][..i] == items[..i];
      var item := items[i];
      if item.FolderItem? {
        if item.name !in seen {
          ghost var before := categories;
          categories := categories + [CategoryRow(item.name, item.parent, 0, uuid(i))];
          seen := seen + {item.name};
          RowNamesSnoc(before, CategoryRow(item.name, item.parent, 0, uuid(i)));
        }
      } else {
        feeds := feeds + [item.feed];
      }
    }
    assert items[..|items|] == items;
  }

  lemma RowNamesSnoc(rows: seq<CategoryRow>, row: CategoryRow)
    ensures RowNames(rows + [row]) == RowNames(rows) + {row.name}
  {
    var all := rows + [row];
    forall n ensures n in RowNames(all) <==> n in RowNames(rows) + {row.name} {
      if n in RowNames(rows) {
        var i :| 0 <= i < |rows| && rows[i].name == n;
        assert all[i].name == n;
      }
      assert all[|rows|].name == row.name;
    }
  }

  // ── Writing categories ───────────────────────────────────────────────────

  /** The category table and the map from names to ids while rows are written. */
  datatype Writing = Writing(cats: seq<Category>, ids: map<string, string>)

  function NameIds(cats: seq<Category>): map<string, string> {
    if cats == [] then map[] else NameIds(cats[..|cats| - 1])[cats[|cats| - 1].name := cats[|cats| - 1].id]
  }

  function IdOf(ids: map<string, string>, name: Option<string>): string {
    var n := name.GetOr("");
    if n in ids then ids[n] else ""
  }

  function WriteStep(w: Writing, row: CategoryRow): Writing {
    if row.name in w.ids then w
    else Writing(w.cats + [Category(row.lanceId, row.name, IdOf(w.ids, row.parentName), row.sortOrder)],
                 w.ids[row.name := row.lanceId])
  }

  function WriteAll(w: Writing, rows: seq<CategoryRow>): Writing {
    if rows == [] then w else WriteStep(WriteAll(w, rows[..|rows| - 1]), rows[|rows| - 1])
  }

  // ── Writing feeds ────────────────────────────────────────────────────────

  function Urls(feeds: seq<Feed>): set<string> {
    set i | 0 <= i < |feeds| :: feeds[i].url
  }

  function NewFeed(row: FeedRow, ids: map<string, string>, id: string): Feed {
    Feed(id, Or(row.title, row.url), row.url, row.siteUrl, IdOf(ids, row.categoryName))
  }

  /** The feeds to add: the first row of each address that is not there yet. */
  function Batch(existing: set<string>, rows: seq<FeedRow>, ids: map<string, string>, uuid: nat -> string): seq<Feed> {
    if rows == [] then []
    else
      var before, row := Batch(existing, rows[..|rows| - 1], ids, uuid), rows[|rows| - 1];
      if row.url in existing || row.url in Urls(before) then before
      else before + [NewFeed(row, ids, uuid(|rows| - 1))]
  }

  /** The feed comes from the first row of its address, under the category that the row names. */
  ghost predicate NewFrom(f: Feed, rows: seq<FeedRow>, ids: map<string, string>, k: nat, uuid: nat -> string) {
    && k < |rows| && f.id == uuid(k) && f.url == rows[k].url && f.siteUrl == rows[k].siteUrl
    && f.title == (if rows[k].title != "" then rows[k].title else rows[k].url)
    && f.categoryId == (match rows[k].categoryName
                        case None => if "" in ids then ids[""] else ""
                        case Some(name) => if name in ids then ids[name] else "")
    && (forall j | 0 <= j < k :: rows[j].url != f.url)
  }

  function RowUrls(rows: seq<FeedRow>): set<string> {
    set r | r in rows :: r.url
  }

  /** Exactly the addresses that are not there yet are added, each once, in the order of the rows. */
  lemma {:induction false} BatchIsNew(existing: set<string>, rows: seq<FeedRow>, ids: map<string, string>, uuid: nat -> string)
    returns (from: seq<nat>)
    ensures var batch := Batch(existing, rows, ids, uuid);
      && Urls(batch) == RowUrls(rows) - existing
      && |from| == |batch| && (forall i | 0 <= i < |batch| :: NewFrom(batch[i], rows, ids, from[i], uuid))
      && (forall i, j | 0 <= i < j < |batch| :: from[i] < from[j])
  {
    hide NewFrom, Urls, RowUrls;
    from := [];
    if rows == [] {
      NoUrls();
      assert {} - existing == {};
    } else {
      var n := |rows| - 1;
      var before, batch := Batch(existing, rows[..n], ids, uuid), Batch(existing, rows, ids, uuid);
      from := BatchIsNew(existing, rows[..n], ids, uuid);
      RowUrlsSnoc(rows);
      forall i | 0 <= i < |before| ensures from[i] < n && NewFrom(before[i], rows, ids, from[i], uuid) {
        NewFromMore(before[i], rows, n, ids, from[i], uuid);
      }
      if batch != before {
        UrlsSnoc(before, batch[|before|]);
        assert rows[n].url !in RowUrls(rows[..n]);
        NewFromLast(rows, ids, uuid);
        from := from + [n];
      }
    }
  }

  lemma NoUrls()
    ensures Urls([]) == {} && RowUrls([]) == {}
  {
  }

  lemma RowUrlsSnoc(rows: seq<FeedRow>)
    requires rows != []
    ensures RowUrls(rows) == RowUrls(rows[..|rows| - 1]) + {rows[|rows| - 1].url}
  {
    assert rows == rows[..|rows| - 1] + [rows[|rows| - 1]];
  }

  lemma NewFromMore(f: Feed, rows: seq<FeedRow>, n: nat, ids: map<string, string>, k: nat, uuid: nat -> string)
    requires n <= |rows| && NewFrom(f, rows[..n], ids, k, uuid)
    ensures k < n && NewFrom(f, rows, ids, k, uuid)
  {
  }

  lemma NewFromLast(rows: seq<FeedRow>, ids: map<string, string>, uuid: nat -> string)
    requires rows != [] && rows[|rows| - 1].url !in RowUrls(rows[..|rows| - 1])
    ensures NewFrom(NewFeed(rows[|rows| - 1], ids, uuid(|rows| - 1)), rows, ids, |rows| - 1, uuid)
  {
    forall j | 0 <= j < |rows| - 1 ensures rows[j].url != rows[|rows| - 1].url {
      assert rows[..|rows| - 1][j] == rows[j];
    }
  }

  /** Of several categories with one name the last one keeps it. */
  lemma {:induction false} LastOfName(cats: seq<Category>, i: nat)
    requires i < |cats| && forall j | i < j < |cats| :: cats[j].name != cats[i].name
    ensures cats[i].name in NameIds(cats) && NameIds(cats)[cats[i].name] == cats[i].id
  {
    if i < |cats| - 1 {
      LastOfName(cats[..|cats| - 1], i);
    }
  }

  class Db {
    var categories: seq<Category>
    var feeds: seq<Feed>

    constructor ()
      ensures categories == [] && feeds == []
    {
      categories, feeds := [], [];
    }

    /** Adds each row whose name is new, under the parent of the given name if there is one. */
    method WriteCategories(rows: seq<CategoryRow>) returns (nameToId: map<string, string>)
      modifies `categories
      ensures Writing(categories, nameToId) == WriteAll(Writing(old(categories), NameIds(old(categories))), rows)
      ensures Forest(old(categories)) && FreshRows(old(categories), rows) ==>
              Forest(categories) && IdsExist(Writing(categories, nameToId))
    {
      hide Forest, FreshRows, IdsExist;
      nameToId := LoadExisting();
      ghost var start := Writing(categories, nameToId);
      for i := 0 to |rows|
        invariant Writing(categories, nameToId) == WriteAll(start, rows[..i])
      {
        assert rows[..i + 1][..i] == rows[..i];
        var cat := rows[i];
        if cat.name !in nameToId {
          var parentId := IdOf(nameToId, cat.parentName);
          categories := categories + [Category(cat.lanceId, cat.name, parentId, cat.sortOrder)];
          nameToId := nameToId[cat.name := cat.lanceId];
        }
      }
      assert rows[..|rows|] == rows;
      if Forest(start.cats) && FreshRows(start.cats, rows) {
        LoadedKeepsForest(start.cats, rows);
      }
    }

    method LoadExisting() returns (ids: map<string, string>)
      ensures ids == NameIds(categories)
    {
      ids := map[];
      for i := 0 to |categories|
        invariant ids == NameIds(categories[..i])
      {
        assert categories[..i + 1][..i] == categories[..i];
        ids := ids[categories[i].name := categories[i].id];
      }
      assert categories[..|categories|] == categories;
    }

    /** Adds the rows with new addresses in one append. */
    method WriteFeeds(rows: seq<FeedRow>, catNameMap: map<string, string>, uuid: nat -> string)
      modifies `feeds
      ensures feeds == old(feeds) + Batch(Urls(old(feeds)), rows, catNameMap, uuid)
    {
      var existing := Urls(feeds);
      var batch: seq<Feed> := [];
      for i := 0 to |rows|
        invariant batch == Batch(Urls(feeds), rows[..i], catNameMap, uuid)
        invariant existing == Urls(feeds) + Urls(batch)
        invariant feeds == old(feeds)
      {
        assert rows[..i + 1][..i] == rows[..i];
        var row := rows[i];
        if row.url !in existing {
          ghost var before := batch;
          batch := batch + [NewFeed(row, catNameMap, uuid(i))];
          existing := existing + {row.url};
          UrlsSnoc(before, NewFeed(row, catNameMap, uuid(i)));
        }
      }
      assert rows[..|rows|] == rows;
      if |batch| > 0 {
        feeds := feeds + batch;
      }
    }
  }

  lemma UrlsSnoc(feeds: seq<Feed>, f: Feed)
    ensures Urls(feeds + [f]) == Urls(feeds) + {f.url}
  {
    var all := feeds + [f];
    forall u ensures u in Urls(all) <==> u in Urls(feeds) + {f.url} {
      if u in Urls(feeds) {
        var i :| 0 <= i < |feeds| && feeds[i].url == u;
        assert all[i].url == u;
      }
      assert all[|feeds|].url == f.url;
    }
  }

  // ── Theorem: the table stays a forest ────────────────────────────────────

  /** New ids are not empty, different from each other and not in the table. */
  ghost predicate FreshRows(cats: seq<Category>, rows: seq<CategoryRow>) {
    && (forall i | 0 <= i < |rows| :: rows[i].lanceId != "" && rows[i].lanceId !in ById(cats))
    && (forall i, j | 0 <= i < j < |rows| :: rows[i].lanceId != rows[j].lanceId)
  }

  ghost predicate IdsExist(w: Writing) {
    forall n | n in w.ids :: w.ids[n] in ById(w.cats) && ById(w.cats)[w.ids[n]].name == n
  }

  lemma {:induction false} NameIdsExist(cats: seq<Category>)
    requires UniqueIds(cats)
    ensures IdsExist(Writing(cats, NameIds(cats)))
    ensures forall c | c in cats :: c.name in NameIds(cats)
  {
    if cats != [] {
      var before := cats[..|cats| - 1];
      NameIdsExist(before);
      ByIdRows(before);
      LastApart(cats);
      assert cats == before + [cats[|cats| - 1]];
    }
  }

  lemma StepKeepsForest(w: Writing, row: CategoryRow)
    requires Forest(w.cats) && IdsExist(w) && row.lanceId != "" && row.lanceId !in ById(w.cats)
    ensures var r := WriteStep(w, row);
      && Forest(r.cats) && IdsExist(r) && forall id | id in ById(r.cats) :: id in ById(w.cats) || id == row.lanceId
  {
    hide ById, UniqueIds, Rooted;
    if row.name !in w.ids {
      var c := Category(row.lanceId, row.name, IdOf(w.ids, row.parentName), row.sortOrder);
      ForestGrows(w.cats, c);
      RowAdded(w.cats, c);
    }
  }

  ghost predicate RowIds(rows: seq<CategoryRow>, id: string) {
    exists i | 0 <= i < |rows| :: rows[i].lanceId == id
  }

  /** Whatever the order of the rows, their parents and the names already there: writing them
      keeps the table without cycles and without missing parents. */
  lemma {:induction false} WritingKeepsForest(w: Writing, rows: seq<CategoryRow>)
    requires Forest(w.cats) && IdsExist(w) && FreshRows(w.cats, rows)
    ensures var r := WriteAll(w, rows);
            && Forest(r.cats) && IdsExist(r)
            && (forall id | id in ById(r.cats) :: id in ById(w.cats) || RowIds(rows, id))
  {
    hide Forest, IdsExist, ById, WriteStep;
    if rows != [] {
      var n := |rows| - 1;
      WritingKeepsForest(w, rows[..n]);
      assert rows[n].lanceId !in ById(WriteAll(w, rows[..n]).cats);
      StepKeepsForest(WriteAll(w, rows[..n]), rows[n]);
      assert forall id | RowIds(rows[..n], id) :: RowIds(rows, id);
      assert RowIds(rows, rows[n].lanceId);
    }
  }

  /** So does writing to a table whose names have just been loaded. */
  lemma LoadedKeepsForest(cats: seq<Category>, rows: seq<CategoryRow>)
    requires Forest(cats) && FreshRows(cats, rows)
    ensures var r := WriteAll(Writing(cats, NameIds(cats)), rows); Forest(r.cats) && IdsExist(r)
  {
    NameIdsExist(cats);
    WritingKeepsForest(Writing(cats, NameIds(cats)), rows);
  }

  // ── Theorem: parents listed first resolve ────────────────────────────────

  /** Every row's parent is the name of an earlier row. */
  ghost predicate ParentsFirst(rows: seq<CategoryRow>) {
    forall i | 0 <= i < |rows| && rows[i].parentName.Some? :: rows[i].parentName.value in RowNames(rows[..i])
  }

  ghost predicate DistinctNames(rows: seq<CategoryRow>) {
    forall i, j | 0 <= i < j < |rows| :: rows[i].name != rows[j].name
  }

  lemma {:induction false} FoldersFirst(items: seq<Item>, uuid: nat -> string)
    requires ParentsListed(items, {})
    ensures DistinctNames(FirstFolders(items, uuid)) && ParentsFirst(FirstFolders(items, uuid))
    ensures RowNames(FirstFolders(items, uuid)) == NamesBefore(items, |items|)
  {
    if items != [] {
      var n := |items| - 1;
      var before, rows := FirstFolders(items[..n], uuid), FirstFolders(items, uuid);
      ListedPrefix(items, n);
      FoldersFirst(items[..n], uuid);
      NamesPrefix(items, n);
      if rows != before {
        RowNamesSnoc(before, rows[|before|]);
        NewRowFirst(before, rows[|before|]);
      }
    }
  }

  lemma ListedPrefix(items: seq<Item>, n: nat)
    requires ParentsListed(items, {}) && n <= |items|
    ensures ParentsListed(items[..n], {})
  {
    var before := items[..n];
    forall i | 0 <= i < |before| && before[i].FolderItem? && before[i].parent.Some?
      ensures before[i].parent.value in {} + NamesBefore(before, i)
    {
      var p := before[i].parent.value;
      assert before[i] == items[i] && p in {} + NamesBefore(items, i);
      var j :| 0 <= j < i && items[j].FolderItem? && items[j].name == p;
      assert before[j] == items[j];
    }
  }

  lemma NamesPrefix(items: seq<Item>, n: nat)
    requires n + 1 == |items|
    ensures NamesBefore(items[..n], n) == NamesBefore(items, n)
    ensures NamesBefore(items, |items|) ==
            NamesBefore(items, n) + if items[n].FolderItem? then {items[n].name} else {}
  {
  }

  lemma NewRowFirst(rows: seq<CategoryRow>, row: CategoryRow)
    requires DistinctNames(rows) && ParentsFirst(rows) && row.name !in RowNames(rows)
    requires row.parentName.Some? ==> row.parentName.value in RowNames(rows)
    ensures DistinctNames(rows + [row]) && ParentsFirst(rows + [row])
  {
    var all := rows + [row];
    forall i | 0 <= i < |all| && all[i].parentName.Some?
      ensures all[i].parentName.value in RowNames(all[..i])
    {
      if i < |rows| {
        assert all[..i] == rows[..i];
      } else {
        assert all[..i] == rows;
      }
    }
  }

  // ── Theorem: where each row ends up ──────────────────────────────────────

  /** The names known when the i-th row is written. */
  ghost function KnownAt(w: Writing, rows: seq<CategoryRow>, i: nat): set<string>
    requires i <= |rows|
  {
    w.ids.Keys + RowNames(rows[..i])
  }

  lemma OneMoreName(names: set<string>, known: set<string>, n: string)
    ensures |(names + {n}) - known| == |names - known| + if n in names || n in known then 0 else 1
  {
    assert (names + {n}) - known == if n in names || n in known then names - known else names - known + {n};
  }

  lemma WriteLast(w: Writing, rows: seq<CategoryRow>, n: nat)
    requires n < |rows|
    ensures rows[..n + 1] == rows[..n] + [rows[n]]
    ensures WriteAll(w, rows[..n + 1]) == WriteStep(WriteAll(w, rows[..n]), rows[n])
  {
    assert rows[..n + 1][..n] == rows[..n];
  }

  lemma StepNames(w: Writing, row: CategoryRow)
    ensures var r := WriteStep(w, row);
      && r.ids.Keys == w.ids.Keys + {row.name} && w.cats <= r.cats
      && |r.cats| == |w.cats| + (if row.name in w.ids.Keys then 0 else 1)
      && (row.name !in w.ids.Keys ==>
            && r.ids[row.name] == row.lanceId
            && r.cats[|w.cats|] == Category(row.lanceId, row.name, IdOf(w.ids, row.parentName), row.sortOrder))
  {
  }

  lemma {:induction false} NamesAfter(w: Writing, rows: seq<CategoryRow>)
    ensures var r := WriteAll(w, rows);
      && r.ids.Keys == w.ids.Keys + RowNames(rows)
      && |r.cats| == |w.cats| + |RowNames(rows) - w.ids.Keys|
  {
    hide RowNames, WriteAll, WriteStep;
    if rows == [] {
      NoNames(w);
    } else {
      var n := |rows| - 1;
      NamesAfter(w, rows[..n]);
      WriteLast(w, rows, n);
      assert rows[..n + 1] == rows;
      StepNames(WriteAll(w, rows[..n]), rows[n]);
      RowNamesSnoc(rows[..n], rows[n]);
      OneMoreName(RowNames(rows[..n]), w.ids.Keys, rows[n].name);
    }
  }

  lemma NoNames(w: Writing)
    ensures RowNames([]) == {} && {} - w.ids.Keys == {} && WriteAll(w, []) == w
  {
  }

  /** What is written stays as it is. */
  lemma {:induction false} WritingOnlyAdds(w: Writing, rows: seq<CategoryRow>, i: nat)
    requires i <= |rows|
    ensures var a, b := WriteAll(w, rows[..i]), WriteAll(w, rows);
      a.cats <= b.cats && forall n | n in a.ids :: n in b.ids && b.ids[n] == a.ids[n]
    decreases |rows|
  {
    if i < |rows| {
      var m := |rows| - 1;
      assert rows[..m][..i] == rows[..i];
      WritingOnlyAdds(w, rows[..m], i);
    } else {
      assert rows[..i] == rows;
    }
  }

  /** The i-th row is written exactly if its name is not known by then; its category then stands
      under the one with its parent's name if that is known by then, and is a root otherwise. */
  ghost predicate RowWritten(w: Writing, rows: seq<CategoryRow>, i: nat)
    requires i < |rows|
  {
    var r, at, row := WriteAll(w, rows), |WriteAll(w, rows[..i]).cats|, rows[i];
    var parent := row.parentName.GetOr("");
    && row.name in r.ids && at <= |r.cats|
    && KnownAt(w, rows, i) <= r.ids.Keys
    && |WriteAll(w, rows[..i + 1]).cats| == (if row.name in KnownAt(w, rows, i) then at else at + 1)
    && (row.name !in KnownAt(w, rows, i) ==>
          && at < |r.cats| && r.ids[row.name] == row.lanceId
          && r.cats[at] == Category(row.lanceId, row.name,
                                    if parent in KnownAt(w, rows, i) then r.ids[parent] else "", row.sortOrder))
  }

  /** For every table, rows in any order. */
  lemma RowsWritten(w: Writing, rows: seq<CategoryRow>)
    ensures WriteAll(w, rows).ids.Keys == w.ids.Keys + RowNames(rows)
    ensures w.cats <= WriteAll(w, rows).cats
    ensures |WriteAll(w, rows).cats| == |w.cats| + |RowNames(rows) - w.ids.Keys|
    ensures forall i | 0 <= i < |rows| :: RowWritten(w, rows, i)
  {
    NamesAfter(w, rows);
    WritingOnlyAdds(w, rows, 0);
    assert rows[..0] == [];
    forall i | 0 <= i < |rows| ensures RowWritten(w, rows, i) {
      OneRowWritten(w, rows, i);
    }
  }

  lemma OneRowWritten(w: Writing, rows: seq<CategoryRow>, i: nat)
    requires i < |rows|
    ensures RowWritten(w, rows, i)
  {
    hide RowNames, WriteAll, WriteStep;
    NamesAfter(w, rows[..i]);
    WritingOnlyAdds(w, rows, i);
    WritingOnlyAdds(w, rows, i + 1);
    WriteLast(w, rows, i);
    StepNames(WriteAll(w, rows[..i]), rows[i]);
  }

  /** The i-th row and its parent have ids, and if the row is written it stands under its parent;
      one without a parent is a root unless a category without a name is known by then. */
  ghost predicate Resolved(w: Writing, rows: seq<CategoryRow>, i: nat)
    requires i < |rows|
  {
    var r, at, row := WriteAll(w, rows), |WriteAll(w, rows[..i]).cats|, rows[i];
    && row.name in r.ids
    && (row.parentName.Some? ==> row.parentName.value in r.ids)
    && (row.name !in KnownAt(w, rows, i) ==>
          && at < |r.cats| && r.cats[at].id == row.lanceId && r.cats[at].name == row.name
          && (match row.parentName
              case None => r.cats[at].parentId == "" <==> "" !in KnownAt(w, rows, i)
              case Some(p) => r.cats[at].parentId == r.ids[p] && r.ids[p] != ""))
  }

  ghost predicate IdsNotEmpty(w: Writing, rows: seq<CategoryRow>) {
    (forall n | n in w.ids :: w.ids[n] != "") && forall i | 0 <= i < |rows| :: rows[i].lanceId != ""
  }

  lemma {:induction false} IdsStayNotEmpty(w: Writing, rows: seq<CategoryRow>)
    requires IdsNotEmpty(w, rows)
    ensures var r := WriteAll(w, rows); forall n | n in r.ids :: r.ids[n] != ""
  {
    if rows != [] {
      var n := |rows| - 1;
      IdsStayNotEmpty(w, rows[..n]);
      assert rows[n].lanceId != "";
      forall m | m in WriteAll(w, rows).ids ensures WriteAll(w, rows).ids[m] != "" {
        assert m in WriteAll(w, rows[..n]).ids || m == rows[n].name;
      }
    }
  }

  /** Rows with their parents first resolve beside whatever categories are there already. */
  lemma ParentsFound(w: Writing, rows: seq<CategoryRow>)
    requires ParentsFirst(rows) && IdsNotEmpty(w, rows)
    ensures forall i | 0 <= i < |rows| :: Resolved(w, rows, i)
  {
    RowsWritten(w, rows);
    IdsStayNotEmpty(w, rows);
    forall i | 0 <= i < |rows| ensures Resolved(w, rows, i) {
      assert RowWritten(w, rows, i);
      assert "" in KnownAt(w, rows, i) ==> WriteAll(w, rows).ids[""] != "";
    }
  }

  /** So does every outline tree, imported into any table. */
  lemma ImportResolves(w: Writing, body: seq<Outline>, uuid: nat -> string)
    requires var rows := FirstFolders(IterOutlines(body, None), uuid); IdsNotEmpty(w, rows)
    ensures var rows := FirstFolders(IterOutlines(body, None), uuid); forall i | 0 <= i < |rows| :: Resolved(w, rows, i)
  {
    WalkListsParents(body, None);
    FoldersFirst(IterOutlines(body, None), uuid);
    ParentsFound(w, FirstFolders(IterOutlines(body, None), uuid));
  }

  /** The category is the row, under the category with its parent's name. */
  ghost predicate WrittenAs(ids: map<string, string>, row: CategoryRow, c: Category) {
    && c.id == row.lanceId && c.name == row.name
    && row.name in ids && ids[row.name] == row.lanceId
    && (match row.parentName
        case None => c.parentId == ""
        case Some(p) => p in ids && c.parentId == ids[p])
  }

  ghost predicate AllWritten(w: Writing, rows: seq<CategoryRow>) {
    && |w.cats| == |rows| && w.ids.Keys == RowNames(rows)
    && forall i | 0 <= i < |rows| :: WrittenAs(w.ids, rows[i], w.cats[i])
  }

  lemma OneMoreWritten(w: Writing, rows: seq<CategoryRow>, row: CategoryRow)
    requires AllWritten(w, rows) && row.name !in RowNames(rows) && "" !in RowNames(rows)
    requires row.parentName.Some? ==> row.parentName.value in RowNames(rows)
    ensures AllWritten(WriteStep(w, row), rows + [row])
  {
    var next, all := WriteStep(w, row), rows + [row];
    RowNamesSnoc(rows, row);
    forall i | 0 <= i < |all| ensures WrittenAs(next.ids, all[i], next.cats[i]) {
      if i < |rows| {
        assert WrittenAs(w.ids, rows[i], w.cats[i]);
      }
    }
  }

  lemma NothingWritten()
    ensures AllWritten(WriteAll(Writing([], map[]), []), [])
  {
  }

  /** Rows with distinct names, parents first, written to an empty table: every row is there, in
      order, under the row that has its parent's name. */
  lemma {:induction false} ParentsResolve(rows: seq<CategoryRow>)
    requires DistinctNames(rows) && ParentsFirst(rows)
    requires forall i | 0 <= i < |rows| :: rows[i].name != ""
    ensures AllWritten(WriteAll(Writing([], map[]), rows), rows)
  {
    hide AllWritten, WrittenAs;
    if rows == [] {
      NothingWritten();
    } else {
      var n := |rows| - 1;
      assert forall i | 0 <= i < n :: rows[..n][..i] == rows[..i];
      ParentsResolve(rows[..n]);
      assert rows == rows[..n] + [rows[n]];
      assert "" !in RowNames(rows[..n]);
      OneMoreWritten(WriteAll(Writing([], map[]), rows[..n]), rows[..n], rows[n]);
    }
  }
}
