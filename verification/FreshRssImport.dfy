/** Turning slash-encoded labels into category rows: every prefix of a label becomes a row under
    the prefix before it. */
module FreshRssImport {
  import opened Wrappers
  import opened OpmlImport

  // ── Labels and paths ─────────────────────────────────────────────────────

  /** What follows the first `/label/` of a tag id. */
  function LabelName(tag: string): Option<string> {
    if |tag| >= 7 && tag[..7] == "/label/" then Some(tag[7..])
    else if tag == "" then None
    else LabelName(tag[1..])
  }

  ghost predicate MarkerAt(tag: string, j: nat) {
    j + 7 <= |tag| && tag[j..j + 7] == "/label/"
  }

  /** The label is what follows the first occurrence of the marker, and there is none without it. */
  lemma {:induction false} LabelNameExact(tag: string)
    ensures LabelName(tag).None? ==> forall j: nat :: !MarkerAt(tag, j)
    ensures LabelName(tag).Some? ==>
      exists i: nat :: MarkerAt(tag, i) && LabelName(tag).value == tag[i + 7..] && forall j: nat | j < i :: !MarkerAt(tag, j)
  {
    if |tag| >= 7 && tag[..7] == "/label/" {
      assert MarkerAt(tag, 0);
    } else if tag != "" {
      assert !MarkerAt(tag, 0);
      LabelNameExact(tag[1..]);
      forall j: nat ensures MarkerAt(tag, j + 1) <==> MarkerAt(tag[1..], j) {
        MarkerShifted(tag, j);
      }
      assert forall j: nat | MarkerAt(tag, j) :: j > 0 && MarkerAt(tag[1..], j - 1) by {
        forall j: nat | MarkerAt(tag, j) ensures j > 0 && MarkerAt(tag[1..], j - 1) {
          MarkerShifted(tag, j - 1);
        }
      }
      if LabelName(tag).Some? {
        var i: nat :| MarkerAt(tag[1..], i) && LabelName(tag).value == tag[1..][i + 7..]
                      && forall j: nat | j < i :: !MarkerAt(tag[1..], j);
        MarkerShifted(tag, i);
        assert tag[1..][i + 7..] == tag[i + 1 + 7..];
      }
    }
  }

  lemma MarkerShifted(tag: string, j: nat)
    requires tag != ""
    ensures MarkerAt(tag, j + 1) <==> MarkerAt(tag[1..], j)
  {
    if j + 8 <= |tag| {
      assert tag[1..][j..j + 7] == tag[j + 1..j + 8];
    }
  }

  ghost predicate NoSlash(s: string) {
    '/' !in s
  }

  /** The pieces between slashes. */
  function Split(s: string): (r: seq<string>)
    ensures |r| > 0 && forall p | p in r :: NoSlash(p)
  {
    if s == "" then [""]
    else
      var before, c := Split(s[..|s| - 1]), s[|s| - 1];
      if c == '/' then before + [""]
      else
        assert NoSlash(before[|before| - 1]);
        before[|before| - 1 := before[|before| - 1] + [c]]
  }

  /** The pieces trimmed, without the empty ones. */
  function Kept(pieces: seq<string>): seq<string> {
    if pieces == [] then []
    else
      var p := Strip(pieces[|pieces| - 1]);
      Kept(pieces[..|pieces| - 1]) + if p != "" then [p] else []
  }

  function Parts(text: string): seq<string> {
    Kept(Split(text))
  }

  /** The path of the pieces, joined by slashes. */
  function Path(parts: seq<string>): string {
    if |parts| == 0 then ""
    else if |parts| == 1 then parts[0]
    else Path(parts[..|parts| - 1]) + "/" + parts[|parts| - 1]
  }

  /** The path up to its last slash. */
  function ParentPath(s: string): Option<string> {
    if s == "" then None
    else if s[|s| - 1] == '/' then Some(s[..|s| - 1])
    else ParentPath(s[..|s| - 1])
  }

  ghost predicate GoodPart(p: string) {
    p != "" && NoSlash(p) && Strip(p) == p
  }

  ghost predicate GoodParts(parts: seq<string>) {
    forall i | 0 <= i < |parts| :: GoodPart(parts[i])
  }

  lemma {:induction false} StripRightIs(s: string)
    ensures StripRight(s) <= s && (StripRight(s) != "" ==> !IsSpace(StripRight(s)[|StripRight(s)| - 1]))
    ensures s != "" && !IsSpace(s[0]) ==> StripRight(s) != ""
  {
    if s != "" && IsSpace(s[|s| - 1]) {
      StripRightIs(s[..|s| - 1]);
    }
  }

  lemma {:induction false} StripTwice(s: string)
    ensures Strip(Strip(s)) == Strip(s)
    ensures NoSlash(s) ==> NoSlash(Strip(s))
  {
    if s != "" && IsSpace(s[0]) {
      StripTwice(s[1..]);
    } else {
      StripRightIs(s);
      var r := StripRight(s);
      StripRightIs(r);
      if r != "" {
        assert r[0] == s[0];
        assert StripRight(r) == r;
      }
    }
  }

  lemma {:induction false} KeptGood(pieces: seq<string>)
    requires forall p | p in pieces :: NoSlash(p)
    ensures GoodParts(Kept(pieces))
  {
    if pieces != [] {
      var n := |pieces| - 1;
      KeptGood(pieces[..n]);
      StripTwice(pieces[n]);
      assert pieces[n] in pieces;
    }
  }

  lemma {:induction false} ParentOfPiece(a: string, b: string)
    requires NoSlash(b)
    ensures ParentPath(a + "/" + b) == Some(a) && (a == "" ==> ParentPath(b) == None)
  {
    var s := a + "/" + b;
    if b == "" {
      assert s[..|s| - 1] == a;
    } else {
      assert b[|b| - 1] in b;
      assert s[..|s| - 1] == a + "/" + b[..|b| - 1];
      ParentOfPiece(a, b[..|b| - 1]);
    }
  }

  /** The path of all but the last piece is the parent of the path. */
  lemma PathParent(parts: seq<string>)
    requires GoodParts(parts) && parts != []
    ensures ParentPath(Path(parts)) == if |parts| == 1 then None else Some(Path(parts[..|parts| - 1]))
  {
    var last := parts[|parts| - 1];
    assert GoodPart(last);
    ParentOfPiece("", last);
    if |parts| > 1 {
      ParentOfPiece(Path(parts[..|parts| - 1]), last);
    }
  }

  lemma {:induction false} SplitPiece(a: string, b: string)
    requires NoSlash(b)
    ensures Split(a + "/" + b) == Split(a) + [b]
    ensures Split(b) == [b]
  {
    var s := a + "/" + b;
    if b == "" {
      assert s[..|s| - 1] == a;
    } else {
      assert b[|b| - 1] in b;
      assert s[..|s| - 1] == a + "/" + b[..|b| - 1];
      SplitPiece(a, b[..|b| - 1]);
      assert b[..|b| - 1] + [b[|b| - 1]] == b;
    }
  }

  /** Splitting a path gives back its pieces. */
  lemma {:induction false} SplitPath(parts: seq<string>)
    requires GoodParts(parts) && parts != []
    ensures Split(Path(parts)) == parts
  {
    var n := |parts| - 1;
    assert GoodPart(parts[n]);
    if n == 0 {
      SplitPiece("", parts[0]);
    } else {
      SplitPath(parts[..n]);
      SplitPiece(Path(parts[..n]), parts[n]);
      assert parts[..n] + [parts[n]] == parts;
    }
  }

  lemma {:induction false} KeptSame(parts: seq<string>)
    requires GoodParts(parts)
    ensures Kept(parts) == parts
  {
    if parts != [] {
      var n := |parts| - 1;
      KeptSame(parts[..n]);
      assert GoodPart(parts[n]);
      assert parts[..n] + [parts[n]] == parts;
    }
  }

  lemma PartsOfPath(parts: seq<string>)
    requires GoodParts(parts) && parts != []
    ensures Parts(Path(parts)) == parts
  {
    SplitPath(parts);
    KeptSame(parts);
  }

  // ── The rows ─────────────────────────────────────────────────────────────

  /** The row's name is a path of good pieces, and its parent is the path above it. */
  ghost predicate GoodRow(row: CategoryRow) {
    && row.parentName == ParentPath(row.name)
    && GoodParts(Parts(row.name)) && Path(Parts(row.name)) == row.name && row.name != ""
  }

  ghost predicate GoodRows(rows: seq<CategoryRow>) {
    && DistinctNames(rows) && ParentsFirst(rows)
    && forall i | 0 <= i < |rows| :: GoodRow(rows[i]) && rows[i].sortOrder == i
  }

  lemma RowAdded(rows: seq<CategoryRow>, parts: seq<string>, id: string)
    requires GoodRows(rows) && GoodParts(parts) && parts != [] && Path(parts) !in RowNames(rows)
    requires |parts| > 1 ==> Path(parts[..|parts| - 1]) in RowNames(rows)
    ensures GoodRows(rows + [CategoryRow(Path(parts), ParentPath(Path(parts)), |rows|, id)])
  {
    var row := CategoryRow(Path(parts), ParentPath(Path(parts)), |rows|, id);
    PathParent(parts);
    PartsOfPath(parts);
    NewRowFirst(rows, row);
    assert GoodPart(parts[|parts| - 1]);
  }

  /** The path that the tag's label stands for is among the names. */
  ghost predicate Listed(tag: string, names: set<string>) {
    match LabelName(tag)
    case None => true
    case Some(name) => Parts(Strip(name)) != [] ==> Path(Parts(Strip(name))) in names
  }

  ghost predicate LeadsTo(parts: seq<string>, n: nat, name: string) {
    0 < n <= |parts| && name == Path(parts[..n])
  }

  lemma PathLeads(parts: seq<string>, n: nat)
    requires 0 < n <= |parts|
    ensures LeadsTo(parts, n, Path(parts[..n]))
  {
  }

  /** The name is a path down the label. */
  ghost predicate Prefixes(tag: string, name: string) {
    LabelName(tag).Some? && exists n: nat :: LeadsTo(Parts(Strip(LabelName(tag).value)), n, name)
  }

  ghost predicate OnlyPrefixes(tags: seq<string>, names: set<string>) {
    forall name | name in names :: exists tag | tag in tags :: Prefixes(tag, name)
  }

  lemma OneMoreTag(tags: seq<string>, i: nat, names: set<string>, more: set<string>)
    requires i < |tags| && OnlyPrefixes(tags[..i], names)
    requires forall name | name in more - names :: Prefixes(tags[i], name)
    ensures OnlyPrefixes(tags[..i + 1], more)
  {
    forall name | name in more ensures exists tag | tag in tags[..i + 1] :: Prefixes(tag, name) {
      if name in names {
        var tag :| tag in tags[..i] && Prefixes(tag, name);
        assert tag in tags[..i + 1];
      } else {
        assert tags[..i + 1][i] == tags[i] && Prefixes(tags[i], name);
      }
    }
  }

  lemma ListedLonger(tags: seq<string>, i: nat, names: set<string>, more: set<string>)
    requires i <= |tags| && names <= more
    requires forall j | 0 <= j < i :: Listed(tags[j], names)
    ensures forall j | 0 <= j < i :: Listed(tags[j], more)
  {
    forall j | 0 <= j < i ensures Listed(tags[j], more) {
      assert Listed(tags[j], names);
    }
  }

  /** Whatever the labels: each row comes after the row of the path above it, no name occurs
      twice, the path of every label is listed, and every row is a path down some label. */
  method BuildCategories(tags: seq<string>, uuid: nat -> string) returns (rows: seq<CategoryRow>)
    ensures GoodRows(rows)
    ensures forall i | 0 <= i < |tags| :: Listed(tags[i], RowNames(rows))
    ensures OnlyPrefixes(tags, RowNames(rows))
  {
    rows := [];
    var seen: set<string> := {};
    for i := 0 to |tags|
      invariant GoodRows(rows) && seen == RowNames(rows)
      invariant forall j | 0 <= j < i :: Listed(tags[j], RowNames(rows))
      invariant OnlyPrefixes(tags[..i], RowNames(rows))
    {
      ghost var before := RowNames(rows);
      rows, seen := AddTag(tags[i], rows, seen, uuid);
      ListedLonger(tags, i, before, RowNames(rows));
      OneMoreTag(tags, i, before, RowNames(rows));
    }
    assert tags[..|tags|] == tags;
  }

  /** The rows of one tag: none when it is no label, or its whole path is there already. */
  method AddTag(tag: string, rows0: seq<CategoryRow>, seen0: set<string>, uuid: nat -> string)
    returns (rows: seq<CategoryRow>, seen: set<string>)
    requires GoodRows(rows0) && seen0 == RowNames(rows0)
    ensures GoodRows(rows) && seen == RowNames(rows) && RowNames(rows0) <= RowNames(rows)
    ensures Listed(tag, RowNames(rows))
    ensures forall name | name in RowNames(rows) - RowNames(rows0) :: Prefixes(tag, name)
  {
    rows, seen := rows0, seen0;
    var name := LabelName(tag);
    if name.Some? {
      var text := Strip(name.value);
      if text == "" {
        EmptyLabel();
      } else if text in seen {
        SeenLabel(rows, text);
      } else {
        rows, seen := AddPaths(Parts(text), rows, seen, uuid);
      }
    }
  }

  lemma EmptyLabel()
    ensures Parts("") == []
  {
    assert Split("") == [""] && Strip("") == "";
    assert [""][..0] == [];
  }

  lemma SeenLabel(rows: seq<CategoryRow>, text: string)
    requires GoodRows(rows) && text in RowNames(rows)
    ensures Path(Parts(text)) == text
  {
    var i :| 0 <= i < |rows| && rows[i].name == text;
    assert GoodRow(rows[i]);
  }

  /** Adds the rows of one label: every prefix that is not there yet. */
  method AddPaths(parts: seq<string>, rows0: seq<CategoryRow>, seen0: set<string>, uuid: nat -> string)
    returns (rows: seq<CategoryRow>, seen: set<string>)
    requires GoodRows(rows0) && seen0 == RowNames(rows0)
    requires exists text :: parts == Parts(text)
    ensures GoodRows(rows) && seen == RowNames(rows) && RowNames(rows0) <= RowNames(rows)
    ensures parts != [] ==> Path(parts) in RowNames(rows)
    ensures forall name | name in RowNames(rows) - RowNames(rows0) :: exists n: nat :: LeadsTo(parts, n, name)
  {
    hide Split, Kept, ParentPath, GoodRow, GoodRows, NoSlash, LeadsTo, Path, RowNames;
    rows, seen := rows0, seen0;
    ghost var text :| parts == Parts(text);
    KeptGood(Split(text));
    var parentName: Option<string> := None;
    for i := 0 to |parts|
      invariant GoodRows(rows) && seen == RowNames(rows) && RowNames(rows0) <= RowNames(rows)
      invariant parentName == if i == 0 then None else Some(Path(parts[..i]))
      invariant i > 0 ==> Path(parts[..i]) in RowNames(rows)
      invariant forall name | name in RowNames(rows) - RowNames(rows0) :: exists n: nat :: LeadsTo(parts, n, name)
    {
      var upTo := parts[..i + 1];
      assert upTo[..|upTo| - 1] == parts[..i];
      var path := Path(upTo);
      PathLeads(parts, i + 1);
      ghost var before := RowNames(rows);
      PathParent(upTo);
      if path !in seen {
        RowAdded(rows, upTo, uuid(|rows|));
        RowNamesSnoc(rows, CategoryRow(path, parentName, |rows|, uuid(|rows|)));
        rows := rows + [CategoryRow(path, parentName, |rows|, uuid(|rows|))];
        seen := seen + {path};
      }
      forall name | name in RowNames(rows) - RowNames(rows0) ensures exists n: nat :: LeadsTo(parts, n, name) {
        if name == path {
          assert LeadsTo(parts, i + 1, name);
        } else {
          assert name in before - RowNames(rows0);
        }
      }
      parentName := Some(path);
    }
    assert parts[..|parts|] == parts;
  }

  /** So all parents of the rows resolve beside whatever categories are there already; a row
      without a parent is a root unless one of those has no name.  An empty table ends up as
      the rows. */
  lemma AllParentsResolve(w: Writing, rows: seq<CategoryRow>)
    requires GoodRows(rows) && IdsNotEmpty(w, rows)
    ensures forall i | 0 <= i < |rows| :: Resolved(w, rows, i) && ("" in KnownAt(w, rows, i) <==> "" in w.ids)
    ensures AllWritten(WriteAll(Writing([], map[]), rows), rows)
  {
    forall i | 0 <= i < |rows| ensures rows[i].name != "" {
      assert GoodRow(rows[i]);
    }
    ParentsFound(w, rows);
    ParentsResolve(rows);
  }
}
