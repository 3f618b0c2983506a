/** The second Lance writer: a Python process that is sent one command per line and answers each
    with one line.  It groups bulk updates by itself; when it dies it is restarted and the command
    sent once more, so a command can be carried out twice, or in part and then again. */
module LanceSidecar {
  import opened Wrappers
  import opened Sql
  import opened LanceTables
  import opened LanceWriting
  import opened LogPipeline

  // ── Filters ──────────────────────────────────────────────────────────────

  predicate IsIdChar(c: char) {
    '0' <= c <= '9' || 'a' <= c <= 'f' || 'A' <= c <= 'F' || c == '-'
  }

  /** What the pattern for ids accepts: id characters, with one newline after them at most. */
  predicate SafeId(val: string) {
    IdChars(val) || (val != "" && val[|val| - 1] == '\n' && IdChars(val[..|val| - 1]))
  }

  predicate IdChars(s: string) {
    s != "" && forall c | c in s :: IsIdChar(c)
  }

  function Escape(val: string): string {
    if SafeId(val) then val else Escaped(val)
  }

  lemma {:induction false} NothingToEscape(s: string)
    requires '\'' !in s
    ensures Escaped(s) == s
  {
    if s != "" {
      assert s[0] in s;
      forall c | c in s[1..] ensures c in s {
      }
      NothingToEscape(s[1..]);
      assert [s[0]] + s[1..] == s;
    }
  }

  /** Leaving safe ids alone changes nothing. */
  lemma EscapeIsEscaped(val: string)
    ensures Escape(val) == Escaped(val)
  {
    if SafeId(val) {
      if !IdChars(val) {
        assert val == val[..|val| - 1] + ['\n'];
      }
      NothingToEscape(val);
    }
  }

  /** The handler's membership filter reads back as exactly the given members too. */
  method Membership(column: string, ids: seq<string>) returns (filt: string)
    requires column in {"article_id", "key"}
    requires |ids| > 0
    ensures ParseCond(filt) == Some(ColumnIn(column, ids))
  {
    if |ids| == 1 {
      EscapeIsEscaped(ids[0]);
      filt := column + (" = " + ("'" + Escape(ids[0]) + "'"));
      ReadMembersEq(ids[0]);
      assert ids == [ids[0]];
      ParseMembership(column, " = " + Quoted(ids[0]), ids);
    } else {
      var quoted: seq<string> := [];
      for i := 0 to |ids|
        invariant quoted == AllQuoted(ids)[..i]
      {
        EscapeIsEscaped(ids[i]);
        quoted := quoted + ["'" + Escape(ids[i]) + "'"];
      }
      assert quoted == AllQuoted(ids);
      var list := JoinStrings(quoted, ", ");
      list := list + ")";
      ReadJoined(ids);
      filt := column + (" IN (" + list);
      ReadMembersIn(list);
      ParseMembership(column, " IN (" + list, ids);
    }
  }

  // ── Commands ─────────────────────────────────────────────────────────────

  datatype Command =
    | FlushOverrides(overrides: map<string, Override>)
    | MarkAllRead(feed: string)
    | PutSettingsBatch(values: map<string, string>)

  /** What a command is about: articles, a feed, or keys. */
  function Targets(cmd: Command): set<string> {
    match cmd
    case FlushOverrides(overrides) => overrides.Keys
    case MarkAllRead(feed) => {feed}
    case PutSettingsBatch(values) => values.Keys
  }

  /** The tables after the command has reached the given targets. */
  function Reached(t: Tables, cmd: Command, done: set<string>): Tables {
    match cmd
    case FlushOverrides(overrides) => t.(articles := Overridden(t.articles, overrides, done))
    case MarkAllRead(feed) =>
      t.(articles := if feed in done then UpdatedArticles(t.articles, UnreadInFeed(feed), SET_READ) else t.articles)
    case PutSettingsBatch(values) => t.(settings := WithSettings(t.settings, values, done))
  }

  /** Targets with the same payload are reached together. */
  ghost predicate WholeGroups(cmd: Command, done: set<string>) {
    match cmd
    case FlushOverrides(overrides) =>
      forall a, b | a in overrides && b in overrides && overrides[a] == overrides[b] :: a in done <==> b in done
    case MarkAllRead(_) => true
    case PutSettingsBatch(values) =>
      forall j, k | j in values && k in values && values[j] == values[k] :: j in done <==> k in done
  }

  /** Carrying a command out in two parts is carrying it out once on both. */
  lemma TwiceIsOnce(t: Tables, cmd: Command, a: set<string>, b: set<string>)
    ensures Reached(Reached(t, cmd, a), cmd, b) == Reached(t, cmd, a + b)
  {
    var twice, once := Reached(Reached(t, cmd, a), cmd, b), Reached(t, cmd, a + b);
    assert twice.articles == once.articles;
    assert twice.settings == once.settings;
  }

  /** The overrides that say anything. */
  function Stated(overrides: map<string, Override>): map<string, Override> {
    map a | a in overrides && overrides[a] != NO_OVERRIDE :: overrides[a]
  }

  lemma StatedIsEnough(articles: map<string, Row>, overrides: map<string, Override>, done: set<string>)
    ensures Overridden(articles, Stated(overrides), done) == Overridden(articles, overrides, done)
  {
    forall a | a in articles
      ensures Overridden(articles, Stated(overrides), done)[a] == Overridden(articles, overrides, done)[a]
    {
    }
  }

  // ── The process ──────────────────────────────────────────────────────────

  /** How a command fares on its way: it cannot be written; the process dies after some updates;
      it is carried out but the answer is lost; it is answered. */
  datatype Link = Unwritten | Dies(updates: nat) | Unread | Answered

  datatype Response = Ok | Error | NoReply

  class Sidecar {
    const lance: Lance
    var logs: seq<Entry>

    constructor (lance: Lance)
      ensures this.lance == lance && logs == []
    {
      this.lance := lance;
      logs := [];
    }

    /** One update per distinct payload; overrides that say nothing are left out of the groups. */
    method CmdFlushOverrides(overrides: map<string, Override>, link: Link) returns (r: Response, ghost done: set<string>)
      modifies lance
      ensures lance.Contents() == Reached(old(lance.Contents()), FlushOverrides(overrides), done)
      ensures WholeGroups(FlushOverrides(overrides), done)
      ensures r.Ok? ==> done == Stated(overrides).Keys
      ensures lance.step >= old(lance.step) && (r.Error? ==> lance.FailedSince(old(lance.step)))
      ensures link.Answered? ==> !r.NoReply?
    {
      ghost var stated := Stated(overrides);
      var groups: map<Override, seq<string>> := map[];
      var todo := overrides.Keys;
      while todo != {}
        invariant todo <= overrides.Keys
        invariant GroupedBy(stated, stated.Keys - todo, groups)
      {
        var aid :| aid in todo;
        var key := overrides[aid];
        if key != NO_OVERRIDE {
          groups := groups[key := (if key in groups then groups[key] else []) + [aid]];
        }
        todo := todo - {aid};
      }
      assert GroupedBy(stated, stated.Keys, groups);
      r, done := UpdateGroups(stated, groups, link);
      StatedIsEnough(old(lance.articles), overrides, done);
    }

    method UpdateGroups(ghost stated: map<string, Override>, groups: map<Override, seq<string>>, link: Link)
      returns (r: Response, ghost done: set<string>)
      requires GroupedBy(stated, stated.Keys, groups)
      modifies lance
      ensures lance.settings == old(lance.settings)
      ensures lance.articles == Overridden(old(lance.articles), stated, done)
      ensures done <= stated.Keys && WholeGroups(FlushOverrides(stated), done)
      ensures r.Ok? ==> done == stated.Keys
      ensures lance.step >= old(lance.step) && (r.Error? ==> lance.FailedSince(old(lance.step)))
      ensures link.Answered? ==> !r.NoReply?
    {
      var left, updates := groups.Keys, 0;
      assert Members(stated, groups, left) == {};
      assert Overridden(lance.articles, stated, {}) == lance.articles;
      while left != {}
        invariant left <= groups.Keys && lance.step >= old(lance.step)
        invariant lance.settings == old(lance.settings)
        invariant lance.articles == Overridden(old(lance.articles), stated, Members(stated, groups, left))
      {
        if link == Dies(updates) {
          return NoReply, Members(stated, groups, left);
        }
        var key :| key in left;
        var filt := Membership("article_id", groups[key]);
        var updated := lance.UpdateArticles(filt, key);
        if !updated {
          return Error, Members(stated, groups, left);
        }
        GroupUpdate(old(lance.articles), stated, groups, left, key);
        left := left - {key};
        updates := updates + 1;
      }
      return if link.Answered? then Ok else NoReply, Members(stated, groups, {});
    }

    method CmdPutSettingsBatch(values: map<string, string>, link: Link) returns (r: Response, ghost done: set<string>)
      modifies lance
      ensures lance.Contents() == Reached(old(lance.Contents()), PutSettingsBatch(values), done)
      ensures WholeGroups(PutSettingsBatch(values), done)
      ensures r.Ok? ==> done == values.Keys
      ensures lance.step >= old(lance.step) && (r.Error? ==> lance.FailedSince(old(lance.step)))
      ensures link.Answered? ==> !r.NoReply?
    {
      hide ParseCond;
      var groups: map<string, seq<string>> := map[];
      var todo := values.Keys;
      while todo != {}
        invariant todo <= values.Keys
        invariant GroupedBy(values, values.Keys - todo, groups)
      {
        var k :| k in todo;
        groups := groups[values[k] := (if values[k] in groups then groups[values[k]] else []) + [k]];
        todo := todo - {k};
      }

      var left, updates := groups.Keys, 0;
      assert GroupedBy(values, values.Keys, groups);
      assert Members(values, groups, left) == {};
      assert WithSettings(lance.settings, values, {}) == lance.settings;
      while left != {}
        invariant left <= groups.Keys && lance.step >= old(lance.step)
        invariant lance.articles == old(lance.articles)
        invariant lance.settings == WithSettings(old(lance.settings), values, Members(values, groups, left))
      {
        if link == Dies(updates) {
          return NoReply, Members(values, groups, left);
        }
        var val :| val in left;
        var filt := Membership("key", groups[val]);
        var updated := lance.UpdateSettings(filt, val);
        if !updated {
          return Error, Members(values, groups, left);
        }
        SettingGroupUpdate(old(lance.settings), values, groups, left, val);
        left := left - {val};
        updates := updates + 1;
      }
      return if link.Answered? then Ok else NoReply, Members(values, groups, {});
    }

    method CmdMarkAllRead(feed: string, link: Link) returns (r: Response, ghost done: set<string>)
      modifies lance
      ensures lance.Contents() == Reached(old(lance.Contents()), MarkAllRead(feed), done)
      ensures r.Ok? ==> done == {feed}
      ensures lance.step >= old(lance.step) && (r.Error? ==> lance.FailedSince(old(lance.step)))
      ensures link.Answered? ==> !r.NoReply?
    {
      if link == Dies(0) {
        return NoReply, {};
      }
      EscapeIsEscaped(feed);
      var filt := UnreadFilter(feed);
      var updated := lance.UpdateArticles(filt, SET_READ);
      if !updated {
        return Error, {};
      }
      return if link.Answered? then Ok else NoReply, {feed};
    }

    method Dispatch(cmd: Command, link: Link) returns (r: Response, ghost done: set<string>)
      modifies lance
      ensures lance.Contents() == Reached(old(lance.Contents()), cmd, done) && WholeGroups(cmd, done)
      ensures r.Ok? ==> Reached(old(lance.Contents()), cmd, done) == Reached(old(lance.Contents()), cmd, Targets(cmd))
      ensures lance.step >= old(lance.step) && (r.Error? ==> lance.FailedSince(old(lance.step)))
      ensures link.Answered? ==> !r.NoReply?
    {
      match cmd {
        case FlushOverrides(overrides) =>
          r, done := CmdFlushOverrides(overrides, link);
          StatedIsEnough(old(lance.articles), overrides, overrides.Keys);
          StatedIsEnough(old(lance.articles), overrides, Stated(overrides).Keys);
        case MarkAllRead(feed) =>
          r, done := CmdMarkAllRead(feed, link);
        case PutSettingsBatch(values) =>
          r, done := CmdPutSettingsBatch(values, link);
      }
    }

    /** One append; `works` says whether the table takes it. */
    method CmdInsertLogs(entries: seq<Entry>, link: Link, works: bool) returns (r: Response)
      modifies `logs
      ensures logs == if works && link != Unwritten && link != Dies(0) then old(logs) + entries else old(logs)
      ensures r == if !link.Answered? then NoReply else if works then Ok else Error
    {
      if link == Unwritten || link == Dies(0) {
        return NoReply;
      }
      if !works {
        return if link.Answered? then Error else NoReply;
      }
      logs := logs + entries;
      return if link.Answered? then Ok else NoReply;
    }
  }

  // ── The client ───────────────────────────────────────────────────────────

  /** One command's environment: whether a dead process can be started before the first attempt
      and before the second, and how each attempt fares. */
  datatype Env = Env(starts: bool, first: Link, restarts: bool, second: Link)

  /** No attempt gets an answer. */
  predicate Gone(alive: bool, env: Env) {
    (!alive && !env.starts) || (!env.first.Answered? && (!env.restarts || !env.second.Answered?))
  }

  class SidecarWriter {
    const sidecar: Sidecar
    var alive: bool

    constructor (sidecar: Sidecar)
      ensures this.sidecar == sidecar && alive
    {
      this.sidecar := sidecar;
      alive := true;
    }

    method WriteAndRead(cmd: Command, link: Link) returns (r: Response, ghost done: set<string>)
      modifies sidecar.lance
      ensures sidecar.lance.Contents() == Reached(old(sidecar.lance.Contents()), cmd, done) && WholeGroups(cmd, done)
      ensures r.Ok? ==> sidecar.lance.Contents() == Reached(old(sidecar.lance.Contents()), cmd, Targets(cmd))
      ensures sidecar.lance.step >= old(sidecar.lance.step)
      ensures r.Error? ==> sidecar.lance.FailedSince(old(sidecar.lance.step))
      ensures link.Answered? ==> !r.NoReply?
    {
      if link.Unwritten? {
        NoneReached(sidecar.lance.Contents(), cmd);
        return NoReply, {};
      }
      r, done := sidecar.Dispatch(cmd, link);
    }

    /** However often the process dies on the way: success means that the whole command is carried
        out as if once, and failure that a part of it is. */
    method SendCmd(cmd: Command, env: Env) returns (ok: bool, ghost done: set<string>)
      modifies `alive, sidecar.lance
      ensures sidecar.lance.Contents() == Reached(old(sidecar.lance.Contents()), cmd, done) && WholeGroups(cmd, done)
      ensures ok ==> sidecar.lance.Contents() == Reached(old(sidecar.lance.Contents()), cmd, Targets(cmd))
      ensures sidecar.lance.step >= old(sidecar.lance.step)
      ensures ok || Gone(old(alive), env) || sidecar.lance.FailedSince(old(sidecar.lance.step))
    {
      ghost var t := sidecar.lance.Contents();
      if !alive {
        if !env.starts {
          NoneReached(t, cmd);
          return false, {};
        }
        alive := true;
      }
      var r;
      r, done := WriteAndRead(cmd, env.first);
      if r.NoReply? {
        alive := false;
        if !env.restarts {
          return false, done;
        }
        alive := true;
        ghost var again;
        r, again := WriteAndRead(cmd, env.second);
        TwiceIsOnce(t, cmd, done, again);
        TwiceIsOnce(t, cmd, done, Targets(cmd));
        AllReached(t, cmd, done);
        done := done + again;
      }
      ok := r.Ok?;
    }

    /** The conversion drops overrides that say nothing; the contract is the one of the native
        writer. */
    method FlushOverrides(overrides: map<string, Override>, env: Env) returns (ok: bool, ghost done: set<string>)
      modifies `alive, sidecar.lance
      ensures sidecar.lance.settings == old(sidecar.lance.settings)
      ensures sidecar.lance.articles == Overridden(old(sidecar.lance.articles), overrides, done)
      ensures ok ==> done == overrides.Keys
      ensures done <= overrides.Keys
      ensures forall a, b | a in overrides && b in overrides && overrides[a] == overrides[b] :: a in done <==> b in done
      ensures sidecar.lance.step >= old(sidecar.lance.step)
      ensures ok || Gone(old(alive), env) || sidecar.lance.FailedSince(old(sidecar.lance.step))
    {
      ghost var articles := sidecar.lance.articles;
      var ovMap: map<string, Override> := map[];
      var todo := overrides.Keys;
      while todo != {}
        invariant todo <= overrides.Keys
        invariant ovMap == map a | a in Stated(overrides) && a !in todo :: overrides[a]
      {
        var id :| id in todo;
        if overrides[id] != NO_OVERRIDE {
          ovMap := ovMap[id := overrides[id]];
        }
        todo := todo - {id};
      }
      assert ovMap == Stated(overrides);
      StatedIsEnough(articles, overrides, overrides.Keys);
      StatedIsEnough(articles, overrides, Stated(overrides).Keys);
      assert Overridden(articles, Stated(overrides), overrides.Keys)
          == Overridden(articles, Stated(overrides), Stated(overrides).Keys);
      if |ovMap| == 0 {
        assert Overridden(articles, overrides, {}) == articles;
        assert Stated(overrides).Keys == {};
        return true, overrides.Keys;
      }
      ok, done := SendCmd(Command.FlushOverrides(ovMap), env);
      done := if ok then overrides.Keys else done * Stated(overrides).Keys;
      StatedIsEnough(articles, overrides, done);
    }

    method MarkAllRead(feed: string, env: Env) returns (ok: bool, ghost applied: bool)
      modifies `alive, sidecar.lance
      ensures sidecar.lance.settings == old(sidecar.lance.settings)
      ensures sidecar.lance.articles ==
        if applied then UpdatedArticles(old(sidecar.lance.articles), UnreadInFeed(feed), SET_READ)
        else old(sidecar.lance.articles)
      ensures ok ==> applied
      ensures sidecar.lance.step >= old(sidecar.lance.step)
      ensures ok || Gone(old(alive), env) || sidecar.lance.FailedSince(old(sidecar.lance.step))
    {
      ghost var done;
      ok, done := SendCmd(Command.MarkAllRead(feed), env);
      applied := ok || feed in done;
    }

    method PutSettingsBatch(values: map<string, string>, env: Env) returns (ok: bool, ghost done: set<string>)
      modifies `alive, sidecar.lance
      ensures sidecar.lance.articles == old(sidecar.lance.articles)
      ensures sidecar.lance.settings == WithSettings(old(sidecar.lance.settings), values, done)
      ensures ok ==> done == values.Keys
      ensures done <= values.Keys
      ensures forall j, k | j in values && k in values && values[j] == values[k] :: j in done <==> k in done
      ensures sidecar.lance.step >= old(sidecar.lance.step)
      ensures ok || Gone(old(alive), env) || sidecar.lance.FailedSince(old(sidecar.lance.step))
    {
      ghost var settings := sidecar.lance.settings;
      ok, done := SendCmd(Command.PutSettingsBatch(values), env);
      assert WithSettings(settings, values, done * values.Keys) == WithSettings(settings, values, done);
      done := if ok then values.Keys else done * values.Keys;
    }

    /** Appends are not idempotent: the entries are stored once for each attempt that gets as far
        as the table, so twice when only the first answer is lost. */
    method InsertLogs(entries: seq<Entry>, tableExists: bool, env: Env, works: (bool, bool)) returns (ok: bool)
      modifies `alive, sidecar`logs
      ensures !tableExists || entries == [] ==> ok && sidecar.logs == old(sidecar.logs)
      ensures tableExists && entries != [] ==>
        var tried := old(alive) || env.starts;
        var again := tried && !env.first.Answered? && env.restarts;
        var once := tried && works.0 && env.first != Unwritten && env.first != Dies(0);
        var twice := again && works.1 && env.second != Unwritten && env.second != Dies(0);
        && ok == (if again then env.second.Answered? && works.1 else tried && env.first.Answered? && works.0)
        && sidecar.logs == old(sidecar.logs) + (if once then entries else []) + (if twice then entries else [])
    {
      if !tableExists || |entries| == 0 {
        return true;
      }
      if !alive {
        if !env.starts {
          return false;
        }
        alive := true;
      }
      var r := sidecar.CmdInsertLogs(entries, env.first, works.0);
      if r.NoReply? {
        alive := false;
        if !env.restarts {
          return false;
        }
        alive := true;
        r := sidecar.CmdInsertLogs(entries, env.second, works.1);
      }
      ok := r.Ok?;
    }
  }

  lemma NoneReached(t: Tables, cmd: Command)
    ensures Reached(t, cmd, {}) == t
  {
    assert Reached(t, cmd, {}).articles == t.articles;
    assert Reached(t, cmd, {}).settings == t.settings;
  }

  lemma AllReached(t: Tables, cmd: Command, done: set<string>)
    ensures Reached(t, cmd, done + Targets(cmd)) == Reached(t, cmd, Targets(cmd))
  {
    var more, all := Reached(t, cmd, done + Targets(cmd)), Reached(t, cmd, Targets(cmd));
    assert more.articles == all.articles;
    assert more.settings == all.settings;
  }
}
