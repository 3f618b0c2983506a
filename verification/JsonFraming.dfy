/** Cutting the output of the query process into JSON texts: a line-fed scanner that tracks
    bracket depth, strings and escapes. */
module JsonFraming {

  // ── The scanner ──────────────────────────────────────────────────────────

  datatype Scan = Scan(depth: int, inString: bool, escape: bool)

  const START := Scan(0, false, false)

  function Scanned(st: Scan, ch: char): Scan {
    if st.escape then st.(escape := false)
    else if ch == '\\' && st.inString then st.(escape := true)
    else if ch == '"' then st.(inString := !st.inString)
    else if st.inString then st
    else if ch == '[' then st.(depth := st.depth + 1)
    else if ch == ']' then st.(depth := st.depth - 1)
    else st
  }

  function After(st: Scan, s: string): Scan
    decreases |s|
  {
    if s == "" then st else After(Scanned(st, s[0]), s[1..])
  }

  lemma {:induction false} AfterConcat(st: Scan, s: string, t: string)
    ensures After(st, s + t) == After(After(st, s), t)
    decreases |s|
  {
    if s == "" {
      assert s + t == t;
    } else {
      AfterConcat(Scanned(st, s[0]), s[1..], t);
      assert (s + t)[1..] == s[1..] + t;
    }
  }

  lemma AfterSnoc(st: Scan, s: string, ch: char)
    ensures After(st, s + [ch]) == Scanned(After(st, s), ch)
  {
    AfterConcat(st, s, [ch]);
    assert [ch][1..] == "";
    assert After(Scanned(After(st, s), ch), "") == Scanned(After(st, s), ch);
  }

  // ── Trimming ─────────────────────────────────────────────────────────────

  predicate IsSpace(c: char) {
    c in {' ', '\t', '\n', '\r'} || c as int in {0x0B, 0x0C, 0x85, 0xA0, 0x1680, 0x2028, 0x2029, 0x202F, 0x205F, 0x3000}
    || 0x2000 <= c as int <= 0x200A
  }

  function TrimRight(s: string): (r: string)
    ensures r <= s
    ensures r != "" ==> !IsSpace(r[|r| - 1])
  {
    if s == "" then ""
    else if IsSpace(s[|s| - 1]) then TrimRight(s[..|s| - 1]) else s
  }

  function TrimSpace(s: string): string {
    if s == "" then ""
    else if IsSpace(s[0]) then TrimSpace(s[1..]) else TrimRight(s)
  }

  /** Printable ASCII is never white space; blanks, tabs and line ends are. */
  lemma SpaceCharacters()
    ensures forall c | '!' <= c <= '~' :: !IsSpace(c)
    ensures forall c | c in {' ', '\t', '\r', '\n'} :: IsSpace(c)
  {
  }

  /** What is cut off at both ends is white space, and what is kept has none there. */
  lemma {:induction false} TrimExact(s: string) returns (i: nat, j: nat)
    ensures i <= j <= |s| && TrimSpace(s) == s[i..j]
    ensures forall k | 0 <= k < i || j <= k < |s| :: IsSpace(s[k])
    ensures i < j ==> !IsSpace(s[i]) && !IsSpace(s[j - 1])
  {
    hide IsSpace;
    if s != "" && IsSpace(s[0]) {
      i, j := TrimExact(s[1..]);
      i, j := i + 1, j + 1;
    } else {
      i, j := 0, |s|;
      assert s[..|s|] == s;
      while j > 0 && IsSpace(s[j - 1])
        invariant j <= |s| && TrimRight(s[..j]) == TrimRight(s)
        invariant forall k | j <= k < |s| :: IsSpace(s[k])
      {
        assert s[..j][..j - 1] == s[..j - 1];
        j := j - 1;
      }
    }
  }

  // ── The reader ───────────────────────────────────────────────────────────

  /** What the reader hands on: a text to be parsed, and at the end that the output is closed. */
  datatype Emission = Text(raw: string) | Closed

  /** Where the first line ends: after its newline, or at the end. */
  function LineEnd(s: string): (n: nat)
    ensures n <= |s| && (s != "" ==> n > 0)
    ensures n < |s| ==> s[n - 1] == '\n'
    ensures forall i | 0 <= i < n - 1 :: s[i] != '\n'
  {
    if s == "" then 0 else if s[0] == '\n' then 1 else 1 + LineEnd(s[1..])
  }

  function TextOf(buf: string): seq<Emission> {
    if TrimSpace(buf) == "" then [] else [Text(TrimSpace(buf))]
  }

  /** The emissions for the rest of the output, with `buf` read and scanned to `st`. */
  function Frames(output: string, buf: string, st: Scan): seq<Emission>
    decreases |output|
  {
    if output == "" then TextOf(buf) + [Closed]
    else
      var n := LineEnd(output);
      var next := After(st, output[..n]);
      if next.depth <= 0 then TextOf(buf + output[..n]) + Frames(output[n..], "", START)
      else Frames(output[n..], buf + output[..n], next)
  }

  /** The loop of the reader over everything the process writes until its output closes. */
  method ReadLoop(output: string) returns (out: seq<Emission>)
    ensures out == Frames(output, "", START)
  {
    hide *;
    out := [];
    var buf := "";
    var st := START;
    var pos := 0;
    assert output[pos..] == output;
    while pos < |output|
      invariant 0 <= pos <= |output|
      invariant out + Frames(output[pos..], buf, st) == Frames(output, "", START)
    {
      var n := LineEnd(output[pos..]);
      var line := output[pos..][..n];
      assert output[pos..][n..] == output[pos + n..];
      ReadsOn(output[pos..], buf, st);
      buf := buf + line;
      st := ScanLine(st, line);
      pos := pos + n;
      if st.depth <= 0 && |buf| > 0 {
        Regroup(out, TextOf(buf), Frames(output[pos..], "", START));
        out := out + TextOf(buf);
        buf, st := "", START;
      }
    }
    assert output[pos..] == "";
    FramesEnd(buf, st);
    out := out + TextOf(buf);
    out := out + [Closed];
  }

  lemma FramesEnd(buf: string, st: Scan)
    ensures Frames("", buf, st) == TextOf(buf) + [Closed]
    ensures TrimSpace(buf) != "" ==> TextOf(buf) == [Text(TrimSpace(buf))]
  {
  }

  lemma Regroup<T>(a: seq<T>, b: seq<T>, c: seq<T>)
    ensures a + (b + c) == (a + b) + c
  {
  }

  /** The character loop of the reader, over one line. */
  method ScanLine(st: Scan, line: string) returns (r: Scan)
    ensures r == After(st, line)
  {
    var bracketDepth, inString, escape := st.depth, st.inString, st.escape;
    for i := 0 to |line|
      invariant Scan(bracketDepth, inString, escape) == After(st, line[..i])
    {
      AfterSnoc(st, line[..i], line[i]);
      assert line[..i + 1] == line[..i] + [line[i]];
      var ch := line[i];
      if escape {
        escape := false;
      } else if ch == '\\' && inString {
        escape := true;
      } else if ch == '"' {
        inString := !inString;
      } else if inString {
      } else if ch == '[' {
        bracketDepth := bracketDepth + 1;
      } else if ch == ']' {
        bracketDepth := bracketDepth - 1;
      }
    }
    assert line[..|line|] == line;
    return Scan(bracketDepth, inString, escape);
  }

  // ── JSON texts, with their white space ───────────────────────────────────

  /** One character of a string: itself, or an escape with the digits of `\u`. */
  datatype StrChar = Plain(c: char) | Escape(c: char, digits: string)

  datatype Value =
    | Scalar(text: string)
    | Str(body: seq<StrChar>)
    | EmptyArr(space: string)
    | Arr(before: string, items: Items)
    | EmptyObj(space: string)
    | Obj(before: string, members: Members)

  datatype Items =
    | LastItem(v: Value, after: string)
    | Item(v: Value, after: string, before: string, rest: Items)

  datatype Members =
    | LastMember(key: seq<StrChar>, k1: string, k2: string, v: Value, after: string)
    | Member(key: seq<StrChar>, k1: string, k2: string, v: Value, after: string, before: string, rest: Members)

  predicate JsonSpace(s: string) {
    forall c | c in s :: c in {' ', '\t', '\n', '\r'}
  }

  predicate IsHex(c: char) {
    '0' <= c <= '9' || 'a' <= c <= 'f' || 'A' <= c <= 'F'
  }

  predicate ValidChar(c: StrChar) {
    match c
    case Plain(c) => c != '"' && c != '\\' && c >= ' '
    case Escape(c, digits) =>
      if c == 'u' then |digits| == 4 && forall d | d in digits :: IsHex(d)
      else c in {'"', '\\', '/', 'b', 'f', 'n', 'r', 't'} && digits == ""
  }

  /** Numbers and the three literal names. */
  predicate ScalarText(s: string) {
    s != "" && forall c | c in s :: '0' <= c <= '9' || 'a' <= c <= 'z' || c in {'-', '+', '.', 'E'}
  }

  predicate Valid(v: Value) {
    match v
    case Scalar(text) => ScalarText(text)
    case Str(body) => forall c | c in body :: ValidChar(c)
    case EmptyArr(space) => JsonSpace(space)
    case Arr(before, items) => JsonSpace(before) && ValidItems(items)
    case EmptyObj(space) => JsonSpace(space)
    case Obj(before, members) => JsonSpace(before) && ValidMembers(members)
  }

  predicate ValidItems(items: Items) {
    match items
    case LastItem(v, after) => Valid(v) && JsonSpace(after)
    case Item(v, after, before, rest) => Valid(v) && JsonSpace(after) && JsonSpace(before) && ValidItems(rest)
  }

  predicate ValidMembers(members: Members) {
    match members
    case LastMember(key, k1, k2, v, after) =>
      (forall c | c in key :: ValidChar(c)) && JsonSpace(k1) && JsonSpace(k2) && Valid(v) && JsonSpace(after)
    case Member(key, k1, k2, v, after, before, rest) =>
      (forall c | c in key :: ValidChar(c)) && JsonSpace(k1) && JsonSpace(k2) && Valid(v) && JsonSpace(after)
      && JsonSpace(before) && ValidMembers(rest)
  }

  function PrintChar(c: StrChar): string {
    match c
    case Plain(c) => [c]
    case Escape(c, digits) => "\\" + [c] + digits
  }

  function PrintBody(body: seq<StrChar>): string {
    if body == [] then "" else PrintChar(body[0]) + PrintBody(body[1..])
  }

  function PrintString(body: seq<StrChar>): string {
    "\"" + PrintBody(body) + "\""
  }

  function Print(v: Value): string {
    match v
    case Scalar(text) => text
    case Str(body) => PrintString(body)
    case EmptyArr(space) => "[" + space + "]"
    case Arr(before, items) => "[" + (before + PrintItems(items)) + "]"
    case EmptyObj(space) => "{" + space + "}"
    case Obj(before, members) => "{" + before + PrintMembers(members) + "}"
  }

  function PrintItems(items: Items): string {
    match items
    case LastItem(v, after) => Print(v) + after
    case Item(v, after, before, rest) => Print(v) + (after + "," + before) + PrintItems(rest)
  }

  function PrintMembers(members: Members): string {
    match members
    case LastMember(key, k1, k2, v, after) => PrintString(key) + (k1 + ":" + k2) + Print(v) + after
    case Member(key, k1, k2, v, after, before, rest) =>
      PrintString(key) + (k1 + ":" + k2) + Print(v) + (after + "," + before) + PrintMembers(rest)
  }

  // ── Scanning a printed value ─────────────────────────────────────────────

  /** Every character of the text leaves the depth at `d` or more. */
  ghost predicate Above(st: Scan, s: string, d: int)
    decreases |s|
  {
    s == "" || (Scanned(st, s[0]).depth >= d && Above(Scanned(st, s[0]), s[1..], d))
  }

  lemma {:induction false} AboveConcat(st: Scan, s: string, t: string, d: int)
    requires Above(st, s, d) && Above(After(st, s), t, d)
    ensures Above(st, s + t, d)
    decreases |s|
  {
    if s == "" {
      assert s + t == t;
    } else {
      AboveConcat(Scanned(st, s[0]), s[1..], t, d);
      assert (s + t)[1..] == s[1..] + t;
    }
  }

  lemma {:induction false} AbovePrefix(st: Scan, s: string, d: int, n: nat)
    requires Above(st, s, d) && 0 < n <= |s|
    ensures After(st, s[..n]).depth >= d
    decreases |s|
  {
    assert s[..n][0] == s[0] && s[..n][1..] == s[1..][..n - 1];
    if n == 1 {
      assert s[..n][1..] == "";
    } else {
      AbovePrefix(Scanned(st, s[0]), s[1..], d, n - 1);
    }
  }

  /** Scanning the text from outside strings ends as it began and never goes below its depth. */
  ghost predicate Level(d: int, s: string) {
    After(Scan(d, false, false), s) == Scan(d, false, false) && Above(Scan(d, false, false), s, d)
  }

  lemma LevelConcat(d: int, s: string, t: string)
    requires Level(d, s) && Level(d, t)
    ensures Level(d, s + t)
  {
    AfterConcat(Scan(d, false, false), s, t);
    AboveConcat(Scan(d, false, false), s, t, d);
  }

  lemma {:induction false} NeutralLevel(d: int, s: string)
    requires forall c | c in s :: c !in {'"', '[', ']'}
    ensures Level(d, s)
  {
    if s != "" {
      assert s[0] in s;
      forall c | c in s[1..] ensures c in s {
      }
      NeutralLevel(d, s[1..]);
    }
  }

  lemma {:induction false} BodyScan(d: int, body: seq<StrChar>)
    requires forall c | c in body :: ValidChar(c)
    ensures After(Scan(d, true, false), PrintBody(body)) == Scan(d, true, false)
    ensures Above(Scan(d, true, false), PrintBody(body), d)
  {
    if body != [] {
      assert body[0] in body && body == [body[0]] + body[1..];
      CharScan(d, body[0]);
      BodyScan(d, body[1..]);
      AfterConcat(Scan(d, true, false), PrintChar(body[0]), PrintBody(body[1..]));
      AboveConcat(Scan(d, true, false), PrintChar(body[0]), PrintBody(body[1..]), d);
    }
  }

  lemma CharScan(d: int, c: StrChar)
    requires ValidChar(c)
    ensures After(Scan(d, true, false), PrintChar(c)) == Scan(d, true, false)
    ensures Above(Scan(d, true, false), PrintChar(c), d)
  {
    var st := Scan(d, true, false);
    match c
    case Plain(ch) =>
      assert [ch][1..] == "";
    case Escape(ch, digits) =>
      var s := "\\" + [ch] + digits;
      assert s[1..] == [ch] + digits && ([ch] + digits)[1..] == digits;
      DigitsScan(d, digits);
  }

  lemma {:induction false} DigitsScan(d: int, digits: string)
    requires forall c | c in digits :: IsHex(c)
    ensures After(Scan(d, true, false), digits) == Scan(d, true, false)
    ensures Above(Scan(d, true, false), digits, d)
  {
    if digits != "" {
      assert digits[0] in digits && digits == [digits[0]] + digits[1..];
      DigitsScan(d, digits[1..]);
    }
  }

  lemma StringLevel(d: int, body: seq<StrChar>)
    requires forall c | c in body :: ValidChar(c)
    ensures Level(d, PrintString(body))
  {
    BodyScan(d, body);
    var s := PrintString(body);
    assert s[1..] == PrintBody(body) + "\"";
    assert "\""[1..] == "";
    AfterConcat(Scan(d, true, false), PrintBody(body), "\"");
    assert Above(Scan(d, true, false), "\"", d);
    AboveConcat(Scan(d, true, false), PrintBody(body), "\"", d);
  }

  /** A bracketed text whose inside is level one deeper. */
  lemma BracketLevel(d: int, inner: string)
    requires Level(d + 1, inner)
    ensures Level(d, "[" + inner + "]")
    ensures Above(Scan(d + 1, false, false), inner, d + 1)
    ensures After(Scan(d, false, false), "[" + inner) == Scan(d + 1, false, false)
  {
    var s := "[" + inner + "]";
    assert s[1..] == inner + "]";
    assert ("[" + inner)[1..] == inner;
    assert "]"[1..] == "";
    AfterConcat(Scan(d + 1, false, false), inner, "]");
    AboveWeaken(Scan(d + 1, false, false), inner, d + 1, d);
    assert Above(Scan(d + 1, false, false), "]", d);
    AboveConcat(Scan(d + 1, false, false), inner, "]", d);
  }

  lemma {:induction false} AboveWeaken(st: Scan, s: string, d: int, e: int)
    requires Above(st, s, d) && e <= d
    ensures Above(st, s, e)
    decreases |s|
  {
    if s != "" {
      AboveWeaken(Scanned(st, s[0]), s[1..], d, e);
    }
  }

  lemma {:induction false} ValueLevel(d: int, v: Value)
    requires Valid(v)
    ensures Level(d, Print(v))
    decreases v
  {
    match v
    case Scalar(text) => NeutralLevel(d, text);
    case Str(body) => StringLevel(d, body);
    case EmptyArr(space) => {
      NeutralLevel(d + 1, space);
      BracketLevel(d, space);
    }
    case Arr(before, items) => {
      InsideLevel(d + 1, before, items);
      BracketLevel(d, before + PrintItems(items));
    }
    case EmptyObj(space) => NeutralLevel(d, "{" + space + "}");
    case Obj(before, members) => {
      NeutralLevel(d, "{" + before);
      MembersLevel(d, members);
      NeutralLevel(d, "}");
      LevelConcat(d, "{" + before, PrintMembers(members));
      LevelConcat(d, "{" + before + PrintMembers(members), "}");
    }
  }

  lemma {:induction false} InsideLevel(d: int, before: string, items: Items)
    requires JsonSpace(before) && ValidItems(items)
    ensures Level(d, before + PrintItems(items))
    decreases items, 1
  {
    NeutralLevel(d, before);
    ItemsLevel(d, items);
    LevelConcat(d, before, PrintItems(items));
  }

  lemma {:induction false} ItemsLevel(d: int, items: Items)
    requires ValidItems(items)
    ensures Level(d, PrintItems(items))
    decreases items, 0
  {
    ValueLevel(d, items.v);
    match items
    case LastItem(v, after) => {
      NeutralLevel(d, after);
      LevelConcat(d, Print(v), after);
    }
    case Item(v, after, before, rest) => {
      NeutralLevel(d, after + "," + before);
      ItemsLevel(d, rest);
      LevelConcat(d, Print(v), after + "," + before);
      LevelConcat(d, Print(v) + (after + "," + before), PrintItems(rest));
    }
  }

  lemma {:induction false} MembersLevel(d: int, members: Members)
    requires ValidMembers(members)
    ensures Level(d, PrintMembers(members))
    decreases members
  {
    var m := members;
    var colon := m.k1 + ":" + m.k2;
    StringLevel(d, m.key);
    NeutralLevel(d, colon);
    ValueLevel(d, m.v);
    LevelConcat(d, PrintString(m.key), colon);
    LevelConcat(d, PrintString(m.key) + colon, Print(m.v));
    var head := PrintString(m.key) + colon + Print(m.v);
    match members
    case LastMember(_, _, _, _, after) => {
      NeutralLevel(d, after);
      LevelConcat(d, head, after);
    }
    case Member(_, _, _, _, after, before, rest) => {
      NeutralLevel(d, after + "," + before);
      MembersLevel(d, rest);
      LevelConcat(d, head, after + "," + before);
      LevelConcat(d, head + (after + "," + before), PrintMembers(rest));
    }
  }

  // ── Framing undoes printing ──────────────────────────────────────────────

  /** A text that opens with a bracket that closes only at its end. */
  ghost predicate Framed(t: string) {
    && |t| >= 2 && t[0] == '[' && t[|t| - 1] == ']'
    && After(START, t) == START
    && forall n | 0 < n < |t| :: After(START, t[..n]).depth >= 1
  }

  /** Every JSON array text is framed, whatever its strings contain. */
  lemma ArrayFramed(v: Value)
    requires Valid(v) && (v.Arr? || v.EmptyArr?)
    ensures Framed(Print(v))
  {
    var inner := if v.Arr? then v.before + PrintItems(v.items) else v.space;
    if v.Arr? {
      InsideLevel(1, v.before, v.items);
    } else {
      NeutralLevel(1, v.space);
    }
    BracketLevel(0, inner);
    BracketFramed(inner);
  }

  lemma BracketFramed(inner: string)
    requires Level(1, inner)
    ensures Framed("[" + inner + "]")
  {
    var t := "[" + inner + "]";
    BracketLevel(0, inner);
    forall n | 0 < n < |t| ensures After(START, t[..n]).depth >= 1 {
      assert t[..n] == "[" + inner[..n - 1];
      assert ("[" + inner[..n - 1])[1..] == inner[..n - 1];
      if n > 1 {
        AbovePrefix(Scan(1, false, false), inner, 1, n - 1);
      } else {
        assert inner[..0] == "";
      }
    }
  }

  /** The broken text that Lance sends for zero rows is framed too. */
  lemma QuirkFramed()
    ensures Framed("[{]")
  {
    NeutralLevel(1, "{");
    BracketFramed("{");
    assert "[" + "{" + "]" == "[{]";
  }

  /** What the parser of a text can accept: JSON with white space around it, or the quirk. */
  ghost predicate Accepted(raw: string) {
    raw == "[{]" || exists pre, v, post | JsonSpace(pre) && Valid(v) && JsonSpace(post) :: raw == pre + Print(v) + post
  }

  lemma AcceptedCloses(raw: string)
    requires Accepted(raw)
    ensures After(START, raw) == START
  {
    if raw == "[{]" {
      QuirkFramed();
    } else {
      var pre, v, post :| JsonSpace(pre) && Valid(v) && JsonSpace(post) && raw == pre + Print(v) + post;
      NeutralLevel(0, pre);
      ValueLevel(0, v);
      NeutralLevel(0, post);
      LevelConcat(0, pre, Print(v));
      LevelConcat(0, pre + Print(v), post);
    }
  }

  lemma TrimFramed(t: string)
    requires Framed(t)
    ensures TrimSpace(t + "\n") == t
  {
    var s := t + "\n";
    assert s[0] == '[' && s[|s| - 1] == '\n';
    assert s[..|s| - 1] == t;
    assert TrimRight(t) == t;
  }

  /** From anywhere inside a framed text, at a line start, the reader emits the whole text at the
      newline that ends it and starts afresh. */
  lemma {:induction false} ReadsText(t: string, k: nat, rest: string)
    requires Framed(t) && k < |t|
    ensures Frames(t[k..] + "\n" + rest, t[..k], After(START, t[..k])) == [Text(t)] + Frames(rest, "", START)
    decreases |t| - k
  {
    hide *;
    var n := LineEnd(t[k..] + "\n" + rest);
    if n <= |t| - k {
      ReadsLine(t, k, rest, n);
      ReadsText(t, k + n, rest);
    } else {
      ReadsLastLine(t, k, rest);
    }
  }

  lemma ReadsLine(t: string, k: nat, rest: string, n: nat)
    requires Framed(t) && k < |t| && n == LineEnd(t[k..] + "\n" + rest) && n <= |t| - k
    ensures k + n < |t| && Frames(t[k..] + "\n" + rest, t[..k], After(START, t[..k])) ==
            Frames(t[k + n..] + "\n" + rest, t[..k + n], After(START, t[..k + n]))
  {
    var output := t[k..] + "\n" + rest;
    LineSlices(t, k, rest, n);
    AfterConcat(START, t[..k], output[..n]);
    assert output[n - 1] == t[k + n - 1] && output[n - 1] == '\n';
    ReadsOn(output, t[..k], After(START, t[..k]));
  }

  lemma LineSlices(t: string, k: nat, rest: string, n: nat)
    requires k + n <= |t|
    ensures var output := t[k..] + "\n" + rest;
      t[..k] + output[..n] == t[..k + n] && output[n..] == t[k + n..] + "\n" + rest
  {
  }

  lemma ReadsLastLine(t: string, k: nat, rest: string)
    requires Framed(t) && k < |t| && LineEnd(t[k..] + "\n" + rest) > |t| - k
    ensures Frames(t[k..] + "\n" + rest, t[..k], After(START, t[..k])) == [Text(t)] + Frames(rest, "", START)
  {
    var output := t[k..] + "\n" + rest;
    LineOfLast(t[k..], rest);
    var n := |t| - k + 1;
    assert t[..k] + output[..n] == t + "\n" && output[n..] == rest;
    AfterConcat(START, t[..k], output[..n]);
    AfterSnoc(START, t, '\n');
    ReadsOn(output, t[..k], After(START, t[..k]));
    TrimFramed(t);
  }

  lemma LineOfLast(s: string, rest: string)
    requires LineEnd(s + "\n" + rest) > |s|
    ensures LineEnd(s + "\n" + rest) == |s| + 1
  {
    var output := s + "\n" + rest;
    assert output[|s|] == '\n';
  }

  lemma ReadsOn(output: string, buf: string, st: Scan)
    requires output != ""
    ensures var line, rest := output[..LineEnd(output)], output[LineEnd(output)..];
            Frames(output, buf, st) ==
            if After(st, line).depth <= 0 then TextOf(buf + line) + Frames(rest, "", START)
            else Frames(rest, buf + line, After(st, line))
  {
  }

  /** A non-empty text that is cut off inside is not emitted before the end. */
  lemma {:induction false} ReadsCut(t: string, p: string, k: nat)
    requires Framed(t) && p < t && p != "" && k <= |p|
    ensures Frames(p[k..], p[..k], After(START, p[..k])) == [Text(TrimSpace(p)), Closed]
    decreases |p| - k
  {
    hide *;
    if k == |p| {
      assert p[..k] == p && p[k..] == "";
      FramesEnd(p, After(START, p));
      CutTrims(t, p);
    } else {
      var n := LineEnd(p[k..]);
      ReadsCutLine(t, p, k, n);
      ReadsCut(t, p, k + n);
    }
  }

  lemma ReadsCutLine(t: string, p: string, k: nat, n: nat)
    requires Framed(t) && p < t && k < |p| && n == LineEnd(p[k..])
    ensures Frames(p[k..], p[..k], After(START, p[..k])) == Frames(p[k + n..], p[..k + n], After(START, p[..k + n]))
  {
    var output := p[k..];
    assert p[..k] + output[..n] == p[..k + n] && output[n..] == p[k + n..];
    AfterConcat(START, p[..k], output[..n]);
    assert p[..k + n] == t[..k + n];
    ReadsOn(output, p[..k], After(START, p[..k]));
  }

  /** What is left of the cut text at the end is not empty and not accepted by the parser. */
  lemma CutTrims(t: string, p: string)
    requires Framed(t) && p < t && p != ""
    ensures TrimSpace(p) != "" && !Accepted(TrimSpace(p))
  {
    assert p[0] == t[0];
    var r := TrimRight(p);
    assert r != "" by {
      TrimKeepsFirst(p);
    }
    assert r == t[..|r|];
    if Accepted(r) {
      AcceptedCloses(r);
    }
  }

  lemma {:induction false} TrimKeepsFirst(p: string)
    requires p != "" && !IsSpace(p[0])
    ensures TrimRight(p) != ""
  {
    if IsSpace(p[|p| - 1]) {
      TrimKeepsFirst(p[..|p| - 1]);
    }
  }

  /** White space before a text, up to the end of a line, is read and not handed on. */
  lemma {:induction false} BlankLinesSkipped(blank: string, rest: string)
    requires JsonSpace(blank) && (blank != "" ==> blank[|blank| - 1] == '\n')
    ensures Frames(blank + rest, "", START) == Frames(rest, "", START)
    decreases |blank|
  {
    hide *;
    if blank == "" {
      assert blank + rest == rest;
    } else {
      var n := LineEnd(blank + rest);
      BlankLine(blank, rest, n);
      BlankLinesSkipped(blank[n..], rest);
      ReadsOn(blank + rest, "", START);
      assert "" + blank[..n] == blank[..n];
      assert [] + Frames(blank[n..] + rest, "", START) == Frames(blank[n..] + rest, "", START);
    }
  }

  lemma BlankLine(blank: string, rest: string, n: nat)
    requires JsonSpace(blank) && blank != "" && blank[|blank| - 1] == '\n' && n == LineEnd(blank + rest)
    ensures 0 < n <= |blank| && JsonSpace(blank[n..]) && (n < |blank| ==> blank[n..][|blank| - n - 1] == '\n')
    ensures (blank + rest)[..n] == blank[..n] && (blank + rest)[n..] == blank[n..] + rest
    ensures After(START, blank[..n]).depth <= 0 && TextOf(blank[..n]) == []
  {
    assert (blank + rest)[|blank| - 1] == '\n';
    SpaceParts(blank, n);
    NeutralLevel(0, blank[..n]);
    TrimBlank(blank[..n]);
  }

  lemma SpaceParts(s: string, n: nat)
    requires JsonSpace(s) && n <= |s|
    ensures JsonSpace(s[..n]) && JsonSpace(s[n..])
  {
    forall c | c in s[..n] || c in s[n..] ensures c in s {
    }
  }

  lemma {:induction false} TrimBlank(s: string)
    requires JsonSpace(s)
    ensures TrimSpace(s) == ""
  {
    if s != "" {
      assert s[0] in s;
      SpaceParts(s, 1);
      TrimBlank(s[1..]);
    }
  }

  /** The output of a process: each text ended by a newline. */
  function Output(texts: seq<string>): string {
    if texts == [] then "" else texts[0] + "\n" + Output(texts[1..])
  }

  function Texts(texts: seq<string>): (r: seq<Emission>)
    ensures |r| == |texts|
  {
    seq(|texts|, i requires 0 <= i < |texts| => Text(texts[i]))
  }

  /** The reader hands on exactly the printed texts, in order, however they are spread over lines;
      a further text that the end of the output cuts off is handed on last, and is not accepted. */
  lemma {:induction false} FramingUndoesPrinting(texts: seq<string>, cut: string, whole: string)
    requires forall i | 0 <= i < |texts| :: Framed(texts[i])
    requires cut == "" || (Framed(whole) && cut < whole)
    ensures Frames(Output(texts) + cut, "", START) ==
            Texts(texts) + LastText(cut)
    ensures cut != "" ==> !Accepted(TrimSpace(cut))
  {
    if texts == [] {
      assert Output(texts) + cut == cut;
      ReadsLast(whole, cut);
    } else {
      FramingUndoesPrinting(texts[1..], cut, whole);
      ReadsFirst(texts, cut);
      TextsCons(texts, LastText(cut));
    }
  }

  lemma ReadsFirst(texts: seq<string>, cut: string)
    requires texts != [] && Framed(texts[0])
    ensures Frames(Output(texts) + cut, "", START) == [Text(texts[0])] + Frames(Output(texts[1..]) + cut, "", START)
  {
    var t, rest := texts[0], Output(texts[1..]) + cut;
    assert Output(texts) + cut == t[0..] + "\n" + rest;
    assert t[..0] == "";
    ReadsText(t, 0, rest);
  }

  /** What the reader hands on for the cut-off end of the output. */
  function LastText(cut: string): seq<Emission> {
    (if cut == "" then [] else [Text(TrimSpace(cut))]) + [Closed]
  }

  lemma ReadsLast(whole: string, cut: string)
    requires cut == "" || (Framed(whole) && cut < whole)
    ensures Frames(cut, "", START) == LastText(cut)
    ensures cut != "" ==> !Accepted(TrimSpace(cut))
  {
    if cut != "" {
      assert cut[0..] == cut && cut[..0] == "";
      ReadsCut(whole, cut, 0);
      CutTrims(whole, cut);
    }
  }

  lemma TextsCons(texts: seq<string>, last: seq<Emission>)
    requires texts != []
    ensures [Text(texts[0])] + (Texts(texts[1..]) + last) == Texts(texts) + last
  {
    assert Texts(texts) == [Text(texts[0])] + Texts(texts[1..]);
  }

  /** The same for JSON array values themselves. */
  lemma ReaderReturnsValues(values: seq<Value>, cut: string, whole: Value)
    requires forall v | v in values :: Valid(v) && (v.Arr? || v.EmptyArr?)
    requires Valid(whole) && (whole.Arr? || whole.EmptyArr?) && cut < Print(whole)
    ensures Frames(Output(Printed(values)) + cut, "", START) ==
            Texts(Printed(values)) + LastText(cut)
    ensures cut != "" ==> !Accepted(TrimSpace(cut))
  {
    forall i | 0 <= i < |values| ensures Framed(Printed(values)[i]) {
      ArrayFramed(values[i]);
    }
    ArrayFramed(whole);
    FramingUndoesPrinting(Printed(values), cut, Print(whole));
  }

  function Printed(values: seq<Value>): (r: seq<string>)
    ensures |r| == |values|
  {
    seq(|values|, i requires 0 <= i < |values| => Print(values[i]))
  }
}
