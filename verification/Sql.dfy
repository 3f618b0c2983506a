/** SQL text as the server builds it: quoting of string literals, and the filter
    expressions of the Lance updates.  Every filter is read back by a parser, so what a
    filter means is decided by its text alone. */
module Sql {
  import opened Wrappers

  // ── String literals ──────────────────────────────────────────────────────

  /** A string with every quote doubled. */
  function Escaped(s: string): string {
    if s == "" then "" else (if s[0] == '\'' then "''" else [s[0]]) + Escaped(s[1..])
  }

  /** A complete literal. */
  function Quoted(s: string): string {
    "'" + Escaped(s) + "'"
  }

  /** Reads the inside of a literal up to its closing quote: the value and the text after it. */
  function ReadBody(s: string): (r: Option<(string, string)>)
    ensures r.Some? ==> |r.value.1| < |s|
    decreases |s|
  {
    if s == "" then None
    else if s[0] == '\'' then
      if |s| > 1 && s[1] == '\'' then
        match ReadBody(s[2..])
        case Some(r) => Some((['\''] + r.0, r.1))
        case None => None
      else Some(("", s[1..]))
    else
      match ReadBody(s[1..])
      case Some(r) => Some(([s[0]] + r.0, r.1))
      case None => None
  }

  /** Reads one literal from the front of a text. */
  function ReadLiteral(s: string): Option<(string, string)> {
    if s == "" || s[0] != '\'' then None else ReadBody(s[1..])
  }

  /** Quoting is undone by reading, whatever the string contains. */
  lemma {:induction false} ReadQuoted(s: string, rest: string)
    requires rest == "" || rest[0] != '\''
    ensures ReadLiteral(Quoted(s) + rest) == Some((s, rest))
  {
    ReadEscaped(s, rest);
    assert (Quoted(s) + rest)[1..] == Escaped(s) + ("'" + rest);
  }

  lemma {:induction false} ReadEscaped(s: string, rest: string)
    requires rest == "" || rest[0] != '\''
    ensures ReadBody(Escaped(s) + ("'" + rest)) == Some((s, rest))
  {
    if s == "" {
      assert Escaped(s) + ("'" + rest) == "'" + rest;
      assert ("'" + rest)[1..] == rest;
    } else {
      ReadEscaped(s[1..], rest);
      EscapedFirst(s, "'" + rest);
      ReadFirst(s[0], Escaped(s[1..]) + ("'" + rest));
      assert [s[0]] + s[1..] == s;
    }
  }

  lemma EscapedFirst(s: string, tail: string)
    requires s != ""
    ensures Escaped(s) + tail == Escaped([s[0]]) + (Escaped(s[1..]) + tail)
  {
    assert [s[0]][1..] == "";
  }

  lemma ReadFirst(c: char, text: string)
    requires ReadBody(text).Some?
    ensures ReadBody(Escaped([c]) + text) == Some(([c] + ReadBody(text).value.0, ReadBody(text).value.1))
  {
    assert [c][1..] == "";
    if c == '\'' {
      assert Escaped([c]) == "''";
      assert (Escaped([c]) + text)[2..] == text;
    } else {
      assert Escaped([c]) == [c];
      assert (Escaped([c]) + text)[1..] == text;
    }
  }

  method EscapeSQ(s: string) returns (out: string)
    ensures out == Escaped(s)
  {
    out := "";
    for i := 0 to |s|
      invariant out + Escaped(s[i..]) == Escaped(s)
    {
      assert s[i..][1..] == s[i + 1..];
      if s[i] == '\'' {
        out := out + ['\'', '\''];
      } else {
        out := out + [s[i]];
      }
    }
  }

  // ── Filters ──────────────────────────────────────────────────────────────

  /** What a filter of the program can say: a column has one of the given values, or the
      row is an unread article of the given feed. */
  datatype Cond = ColumnIn(column: string, values: seq<string>) | UnreadInFeed(feed: string)

  /** The text with a prefix taken off, if it starts with it. */
  function StripPrefix(s: string, prefix: string): Option<string> {
    if |prefix| <= |s| && s[..|prefix|] == prefix then Some(s[|prefix|..]) else None
  }

  lemma StripOwnPrefix(prefix: string, rest: string)
    ensures StripPrefix(prefix + rest, prefix) == Some(rest)
  {
    assert (prefix + rest)[..|prefix|] == prefix;
    assert (prefix + rest)[|prefix|..] == rest;
  }

  /** A list of literals separated by `, ` and ended by the closing parenthesis. */
  function ReadList(s: string): Option<seq<string>>
    decreases |s|
  {
    match ReadLiteral(s)
    case None => None
    case Some(r) =>
      if r.1 == ")" then Some([r.0])
      else match StripPrefix(r.1, ", ")
        case None => None
        case Some(more) =>
          match ReadList(more)
          case None => None
          case Some(vs) => Some([r.0] + vs)
  }

  /** The part of a membership filter after the column name. */
  function ReadMembers(s: string): Option<seq<string>> {
    match StripPrefix(s, " = ")
    case Some(t) =>
      (match ReadLiteral(t)
       case Some(r) => if r.1 == "" then Some([r.0]) else None
       case None => None)
    case None =>
      match StripPrefix(s, " IN (")
      case Some(t) => ReadList(t)
      case None => None
  }

  function ReadUnread(s: string): Option<string> {
    match ReadLiteral(s)
    case Some(r) => if r.1 == " AND is_read = false" then Some(r.0) else None
    case None => None
  }

  /** Reads a filter, or fails when the text is none of the filters the program builds. */
  function ParseCond(text: string): Option<Cond> {
    match StripPrefix(text, "feed_id = ")
    case Some(t) => (match ReadUnread(t) case Some(f) => Some(UnreadInFeed(f)) case None => None)
    case None =>
      match StripPrefix(text, "article_id")
      case Some(t) =>
        (match ReadMembers(t) case Some(vs) => Some(ColumnIn("article_id", vs)) case None => None)
      case None =>
        match StripPrefix(text, "key")
        case Some(t) =>
          (match ReadMembers(t) case Some(vs) => Some(ColumnIn("key", vs)) case None => None)
        case None => None
  }

  // ── Building filters ─────────────────────────────────────────────────────

  /** The strings one after the other with the separator between them. */
  function Joined(ss: seq<string>, sep: string): string {
    if |ss| == 0 then ""
    else if |ss| == 1 then ss[0]
    else ss[0] + sep + Joined(ss[1..], sep)
  }

  lemma JoinedOne(s: string, sep: string)
    ensures Joined([s], sep) == s
  {
  }

  lemma JoinedFirst(ss: seq<string>, sep: string)
    requires |ss| > 1
    ensures Joined(ss, sep) == ss[0] + sep + Joined(ss[1..], sep)
  {
  }

  lemma Regroup(a: string, b: string, c: string, d: string)
    ensures a + (b + c + d) == (a + b) + c + d
  {
  }

  lemma {:induction false} JoinedSnoc(ss: seq<string>, last: string, sep: string)
    ensures Joined(ss + [last], sep) == if |ss| == 0 then last else Joined(ss, sep) + sep + last
  {
    hide *;
    if |ss| == 0 {
      JoinedOne(last, sep);
      assert ss + [last] == [last];
    } else {
      JoinedSnoc(ss[1..], last, sep);
      JoinedFirst(ss + [last], sep);
      assert (ss + [last])[0] == ss[0] && (ss + [last])[1..] == ss[1..] + [last];
      if |ss| == 1 {
        JoinedOne(ss[0], sep);
        assert ss == [ss[0]];
      } else {
        JoinedFirst(ss, sep);
        Regroup(ss[0] + sep, Joined(ss[1..], sep), sep, last);
      }
    }
  }

  method JoinStrings(ss: seq<string>, sep: string) returns (buf: string)
    ensures buf == Joined(ss, sep)
  {
    buf := "";
    for i := 0 to |ss|
      invariant buf == Joined(ss[..i], sep)
    {
      JoinedSnoc(ss[..i], ss[i], sep);
      assert ss[..i] + [ss[i]] == ss[..i + 1];
      if i > 0 {
        buf := buf + sep;
      }
      buf := buf + ss[i];
    }
    assert ss[..|ss|] == ss;
  }

  function AllQuoted(ids: seq<string>): (r: seq<string>)
    ensures |r| == |ids|
  {
    seq(|ids|, i requires 0 <= i < |ids| => Quoted(ids[i]))
  }

  lemma {:induction false} ReadJoined(ids: seq<string>)
    requires |ids| > 0
    ensures ReadList(Joined(AllQuoted(ids), ", ") + ")") == Some(ids)
  {
    var text := Joined(AllQuoted(ids), ", ") + ")";
    if |ids| == 1 {
      assert text == Quoted(ids[0]) + ")";
      ReadQuoted(ids[0], ")");
      assert ids == [ids[0]];
    } else {
      assert AllQuoted(ids)[1..] == AllQuoted(ids[1..]);
      var more := Joined(AllQuoted(ids[1..]), ", ") + ")";
      assert text == Quoted(ids[0]) + (", " + more);
      ReadQuoted(ids[0], ", " + more);
      StripOwnPrefix(", ", more);
      ReadJoined(ids[1..]);
      assert [ids[0]] + ids[1..] == ids;
    }
  }

  /** A parenthesised list of literals, up to and including the closing parenthesis. */
  method QuotedList(ids: seq<string>) returns (list: string)
    requires |ids| > 0
    ensures ReadList(list) == Some(ids)
  {
    var quoted: seq<string> := [];
    for i := 0 to |ids|
      invariant quoted == AllQuoted(ids)[..i]
    {
      var e := EscapeSQ(ids[i]);
      quoted := quoted + ["'" + e + "'"];
    }
    assert quoted == AllQuoted(ids);
    list := JoinStrings(quoted, ", ");
    list := list + ")";
    ReadJoined(ids);
  }

  lemma ReadMembersIn(list: string)
    ensures ReadMembers(" IN (" + list) == ReadList(list)
  {
    var text := " IN (" + list;
    StripOwnPrefix(" IN (", list);
    assert text[1] == 'I' && " = "[1] == '=';
    assert text[..3][1] != " = "[1];
  }

  lemma ReadMembersEq(id: string)
    ensures ReadMembers(" = " + Quoted(id)) == Some([id])
  {
    StripOwnPrefix(" = ", Quoted(id));
    ReadQuoted(id, "");
    assert Quoted(id) + "" == Quoted(id);
  }

  lemma ParseMembership(column: string, rest: string, ids: seq<string>)
    requires column in {"article_id", "key"}
    requires ReadMembers(rest) == Some(ids)
    ensures ParseCond(column + rest) == Some(ColumnIn(column, ids))
  {
    var text := column + rest;
    StripOwnPrefix(column, rest);
    assert text[0] == column[0];
    if |text| >= 10 {
      assert text[..10][0] == text[0] && "feed_id = "[0] == 'f';
      assert text[..10] != "feed_id = ";
      assert column == "key" ==> text[..10] != "article_id" by { assert "article_id"[0] == 'a'; }
    }
  }

  /** The membership filter of a non-empty group reads back as exactly the group's members. */
  method MembershipFilter(column: string, ids: seq<string>) returns (filter: string)
    requires column in {"article_id", "key"}
    requires |ids| > 0
    ensures ParseCond(filter) == Some(ColumnIn(column, ids))
  {
    if |ids| == 1 {
      var e := EscapeSQ(ids[0]);
      filter := column + (" = " + ("'" + e + "'"));
      ReadMembersEq(ids[0]);
      assert ids == [ids[0]];
      ParseMembership(column, " = " + Quoted(ids[0]), ids);
    } else {
      var list := QuotedList(ids);
      filter := column + (" IN (" + list);
      ReadMembersIn(list);
      ParseMembership(column, " IN (" + list, ids);
    }
  }

  /** The filter of a mark-all-read names exactly the unread articles of the feed. */
  method UnreadFilter(feed: string) returns (filter: string)
    ensures ParseCond(filter) == Some(UnreadInFeed(feed))
  {
    var e := EscapeSQ(feed);
    var rest := "'" + e + "'" + " AND is_read = false";
    filter := "feed_id = " + rest;
    StripOwnPrefix("feed_id = ", rest);
    ReadQuoted(feed, " AND is_read = false");
    assert rest == Quoted(feed) + " AND is_read = false";
  }
}
