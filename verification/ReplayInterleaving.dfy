/** The replay taken apart into its separately locked steps, with writers running in between.
    Rows inserted after the log is read and before it is cleared are deleted unread; every other
    row reaches Lance.  The overlay is cleared in a step of its own after the log. */
module ReplayInterleaving {
  import opened Wrappers
  import opened LanceTables
  import opened PendingLog
  import opened OfflineCaching

  /** A replay under way: the rows it read, the row id that was next then, Lance as it was
      then, and how far it has come; or a complete one that has cleared the log but not yet the
      overlay. */
  datatype Phase =
    | Idle
    | Cleared
    | Replaying(snap: seq<Pending>, snapNext: nat, from: Tables, at: Progress)

  /** The ids handed out between the read and the clear of a completed replay. */
  datatype Gap = Gap(lo: nat, hi: nat)

  /** What a write put into the overlay: a star, or a read state for the articles it was found for. */
  datatype Touch = Touch(id: nat, articles: set<string>, read: Option<bool>, star: Option<bool>)

  /** `touches` lists what the writes put into the overlay; `clearedAt` is the row id that was next when the log was last cleared, and `shownFrom` when the
      overlay was.  `written`, `batches` and `gaps` are the history: all rows ever inserted, the rows of each
      completed replay, and the ids inserted while each of them ran. */
  datatype State = State(
    lance: Tables,
    overlay: map<string, Override>,
    touches: seq<Touch>,
    rows: seq<Pending>,
    nextId: nat,
    phase: Phase,
    clearedAt: nat,
    shownFrom: nat,
    written: seq<Pending>,
    batches: seq<seq<Pending>>,
    gaps: seq<Gap>)

  datatype Event =
    | Write(op: Op, queryOk: bool)
    | Begin
    | MarkNext
    | OverrideGroup(ids: set<string>)
    | SettingsGroup(keys: set<string>)
    | Stop
    | Clear
    | ClearOverlay

  function Log(s: State): seq<Op>
    requires s.phase.Replaying?
  {
    Ops(s.phase.snap)
  }

  ghost predicate MarksDone(s: State)
    requires s.phase.Replaying?
  {
    s.phase.at.marks == |MarksOf(Log(s))|
  }

  ghost predicate OverridesDone(s: State)
    requires s.phase.Replaying?
  {
    MarksDone(s) && forall a | Explicit(Log(s), a) != NO_OVERRIDE :: a in s.phase.at.articles
  }

  ghost predicate SettingsDone(s: State)
    requires s.phase.Replaying?
  {
    OverridesDone(s) && forall k | LastPut(Log(s), k).Some? :: k in s.phase.at.keys
  }

  /** One replay at a time; marks, then overrides, then settings, then the clear; an empty log
      is not replayed. */
  ghost predicate Enabled(s: State, e: Event) {
    match e
    case Write(_, _) => true
    case Begin => s.phase.Idle? && s.rows != []
    case MarkNext => s.phase.Replaying? && s.phase.at.marks < |MarksOf(Log(s))|
    case OverrideGroup(ids) =>
      s.phase.Replaying? && MarksDone(s) && forall a | a in ids :: Explicit(Log(s), a) != NO_OVERRIDE
    case SettingsGroup(keys) => s.phase.Replaying? && OverridesDone(s) && forall k | k in keys :: LastPut(Log(s), k).Some?
    case Stop => s.phase.Replaying?
    case Clear => s.phase.Replaying? && SettingsDone(s)
    case ClearOverlay => s.phase.Cleared?
  }

  function TouchOf(s: State, op: Op, queryOk: bool): Touch {
    match op
    case SetRead(a, v) => Touch(s.nextId, {a}, Some(v), None)
    case SetStar(a, v) => Touch(s.nextId, {a}, None, Some(v))
    case MarkAllRead(f) => Touch(s.nextId, if queryOk then UnreadIn(s.lance, f) else {}, Some(true), None)
    case PutSetting(_, _) => Touch(s.nextId, {}, None, None)
  }

  ghost function Step(s: State, e: Event): State
    requires Enabled(s, e)
  {
    match e
    case Write(op, queryOk) =>
      var row := Pending(s.nextId, op);
      s.(overlay := if op.MarkAllRead? && !queryOk then s.overlay else OverlayStep(s.lance, s.overlay, op),
         touches := s.touches + [TouchOf(s, op, queryOk)],
         rows := Logged(s.rows, row), nextId := s.nextId + 1, written := s.written + [row])
    case Begin => s.(phase := Replaying(s.rows, s.nextId, s.lance, Progress(0, {}, {})))
    case MarkNext =>
      var at := s.phase.at;
      s.(lance := s.lance.(articles :=
           UpdatedArticles(s.lance.articles, Sql.UnreadInFeed(MarksOf(Log(s))[at.marks]), SET_READ)),
         phase := s.phase.(at := at.(marks := at.marks + 1)))
    case OverrideGroup(ids) =>
      s.(lance := s.lance.(articles :=
           map a | a in s.lance.articles ::
             if a in ids then Merged(s.lance.articles[a], Explicit(Log(s), a)) else s.lance.articles[a]),
         phase := s.phase.(at := s.phase.at.(articles := s.phase.at.articles + ids)))
    case SettingsGroup(keys) =>
      s.(lance := s.lance.(settings :=
           map k | k in s.lance.settings ::
             if k in keys then LastPut(Log(s), k).GetOr(s.lance.settings[k]) else s.lance.settings[k]),
         phase := s.phase.(at := s.phase.at.(keys := s.phase.at.keys + keys)))
    case Stop => s.(phase := Idle)
    case Clear =>
      s.(rows := [], phase := Cleared, clearedAt := s.nextId,
         batches := s.batches + [s.phase.snap], gaps := s.gaps + [Gap(s.phase.snapNext, s.nextId)])
    case ClearOverlay => s.(overlay := map[], phase := Idle, shownFrom := s.nextId)
  }

  ghost predicate CanRun(s: State, events: seq<Event>)
    decreases |events|
  {
    events == [] || (Enabled(s, events[0]) && CanRun(Step(s, events[0]), events[1..]))
  }

  ghost function Run(s: State, events: seq<Event>): State
    requires CanRun(s, events)
    decreases |events|
  {
    if events == [] then s else Run(Step(s, events[0]), events[1..])
  }

  function Started(t: Tables): State {
    State(t, map[], [], [], 1, Idle, 1, 1, [], [], [])
  }

  // ── Where the rows are ───────────────────────────────────────────────────

  ghost predicate InBatch(s: State, r: Pending) {
    exists i | 0 <= i < |s.batches| :: r in s.batches[i]
  }

  ghost predicate InGap(s: State, id: nat) {
    exists i | 0 <= i < |s.gaps| :: s.gaps[i].lo <= id < s.gaps[i].hi
  }

  /** A later write of the same setting replaced the row. */
  ghost predicate Superseded(s: State, r: Pending) {
    r.op.PutSetting? && exists w | w in s.written :: w.id > r.id && IsPutOf(w, r.op.key)
  }

  ghost predicate IdsBelow(s: State) {
    && (forall r | r in s.written :: r.id < s.nextId)
    && (forall r | r in s.rows :: r in s.written)
    && (forall i, r | 0 <= i < |s.batches| && r in s.batches[i] :: r in s.written)
    && (forall i | 0 <= i < |s.gaps| :: s.gaps[i].lo <= s.gaps[i].hi <= s.nextId)
    && (forall r, q | r in s.written && q in s.written && r.id == q.id :: r == q)
  }

  /** Rows of the log and of completed replays lie outside every gap. */
  ghost predicate GapsApart(s: State) {
    && (forall r | r in s.rows :: !InGap(s, r.id))
    && (forall i, r | 0 <= i < |s.batches| && r in s.batches[i] :: !InGap(s, r.id))
  }

  ghost predicate PhaseRows(s: State) {
    s.phase.Replaying? ==>
      && s.phase.snapNext <= s.nextId
      && (forall r | r in s.phase.snap :: r in s.written && r.id < s.phase.snapNext && !InGap(s, r.id))
      && (forall r | r in s.rows && r.id < s.phase.snapNext :: r in s.phase.snap)
      && (forall i | 0 <= i < |s.gaps| :: s.gaps[i].hi <= s.phase.snapNext)
      && (forall i, r | 0 <= i < |s.batches| && r in s.batches[i] :: r.id < s.phase.snapNext)
  }

  ghost predicate Accounted(s: State) {
    forall r | r in s.written :: r in s.rows || InBatch(s, r) || Superseded(s, r) || InGap(s, r.id)
  }

  ghost predicate RowsInv(s: State) {
    IdsBelow(s) && GapsApart(s) && PhaseRows(s) && Accounted(s)
  }

  lemma LoggedRows(rows: seq<Pending>, row: Pending)
    ensures forall r :: r in Logged(rows, row) <==> r == row || (r in rows && !(row.op.PutSetting? && IsPutOf(r, row.op.key)))
  {
    if row.op.PutSetting? {
      WithoutPutRows(rows, row.op.key);
    }
  }

  lemma WriteRows(s: State, op: Op, queryOk: bool)
    requires RowsInv(s)
    ensures RowsInv(Step(s, Write(op, queryOk)))
  {
    var row, t := Pending(s.nextId, op), Step(s, Write(op, queryOk));
    LoggedRows(s.rows, row);
    assert forall r :: r in t.written <==> r in s.written || r == row;
    assert forall id: nat :: InGap(t, id) <==> InGap(s, id);
    forall r | r in t.written
      ensures r in t.rows || InBatch(t, r) || Superseded(t, r) || InGap(t, r.id)
    {
      if r in s.written {
        if r in s.rows && r !in t.rows {
          assert row in t.written && row.id > r.id && IsPutOf(row, r.op.key);
        } else if Superseded(s, r) {
          var w :| w in s.written && w.id > r.id && IsPutOf(w, r.op.key);
          assert w in t.written;
        } else if InBatch(s, r) {
          var i :| 0 <= i < |s.batches| && r in s.batches[i];
          assert r in t.batches[i];
        }
      }
    }
  }

  lemma ClearRows(s: State)
    requires RowsInv(s) && Enabled(s, Clear)
    ensures RowsInv(Step(s, Clear))
  {
    var t := Step(s, Clear);
    var gap := Gap(s.phase.snapNext, s.nextId);
    assert forall id: nat :: InGap(t, id) <==> InGap(s, id) || gap.lo <= id < gap.hi by {
      forall id: nat ensures InGap(t, id) <==> InGap(s, id) || gap.lo <= id < gap.hi {
        assert t.gaps[|s.gaps|] == gap;
        if InGap(s, id) {
          var i :| 0 <= i < |s.gaps| && s.gaps[i].lo <= id < s.gaps[i].hi;
          assert t.gaps[i] == s.gaps[i];
        }
      }
    }
    forall i, r | 0 <= i < |t.batches| && r in t.batches[i]
      ensures r in t.written && !InGap(t, r.id)
    {
      if i < |s.batches| {
        assert r in s.batches[i];
      } else {
        assert r in s.phase.snap;
      }
    }
    forall r | r in t.written
      ensures InBatch(t, r) || Superseded(t, r) || InGap(t, r.id)
    {
      if r in s.rows {
        if r.id < s.phase.snapNext {
          assert t.batches[|s.batches|] == s.phase.snap;
        }
      } else if Superseded(s, r) {
        var w :| w in s.written && w.id > r.id && IsPutOf(w, r.op.key);
        assert w in t.written;
      } else if InBatch(s, r) {
        var i :| 0 <= i < |s.batches| && r in s.batches[i];
        assert r in t.batches[i];
      }
    }
  }

  lemma {:induction false} RunRows(s: State, events: seq<Event>)
    requires CanRun(s, events) && RowsInv(s)
    ensures RowsInv(Run(s, events))
    decreases |events|
  {
    if events != [] {
      var e := events[0];
      match e {
        case Write(op, queryOk) => WriteRows(s, op, queryOk);
        case Clear => ClearRows(s);
        case _ => QuietRows(s, e);
      }
      RunRows(Step(s, e), events[1..]);
    }
  }

  lemma QuietRows(s: State, e: Event)
    requires Enabled(s, e) && RowsInv(s) && !e.Write? && !e.Clear?
    ensures RowsInv(Step(s, e))
  {
    var t := Step(s, e);
    assert t.rows == s.rows && t.written == s.written && t.batches == s.batches && t.gaps == s.gaps && t.nextId == s.nextId;
    assert forall id: nat :: InGap(t, id) <==> InGap(s, id);
    assert forall r :: InBatch(t, r) <==> InBatch(s, r);
    forall r | r in t.written
      ensures r in t.rows || InBatch(t, r) || Superseded(t, r) || InGap(t, r.id)
    {
      if Superseded(s, r) {
        var w :| w in s.written && w.id > r.id && IsPutOf(w, r.op.key);
        assert w in t.written;
      }
    }
    match e
    case Begin => {
      assert t.phase.snapNext == s.nextId;
      forall r | r in t.phase.snap ensures r in t.written && r.id < t.phase.snapNext && !InGap(t, r.id) {
        assert r in s.rows;
      }
    }
    case _ =>
  }

  /** Every row ever inserted is pending, in a completed replay, replaced by a later write of its
      setting, or was inserted between the read and the clear of a completed replay; and of the
      rows that were not replaced exactly those last ones are gone without having been replayed. */
  lemma OnlyGapRowsAreLost(t: Tables, events: seq<Event>, r: Pending)
    requires CanRun(Started(t), events) && r in Run(Started(t), events).written
    ensures var s := Run(Started(t), events);
            && (r in s.rows || InBatch(s, r) || Superseded(s, r) || InGap(s, r.id))
            && (InGap(s, r.id) ==> r !in s.rows && !InBatch(s, r))
            && (!Superseded(s, r) ==> (InGap(s, r.id) <==> r !in s.rows && !InBatch(s, r)))
  {
    RunRows(Started(t), events);
  }

  // ── What Lance holds ─────────────────────────────────────────────────────

  /** The completed replays, one after the other. */
  function Folded(t: Tables, batches: seq<seq<Pending>>): Tables {
    if batches == [] then t
    else Replayed(Folded(t, batches[..|batches| - 1]), Ops(batches[|batches| - 1]))
  }

  /** `lance` differs from `base` only where replaying the log decides the value anyway. */
  ghost predicate Settles(base: Tables, lance: Tables, log: seq<Op>) {
    && base.articles.Keys == lance.articles.Keys && base.settings.Keys == lance.settings.Keys
    && (forall a | a in base.articles :: SettledRow(base.articles[a], lance.articles[a], log, a))
    && (forall k | k in base.settings :: lance.settings[k] == base.settings[k] || LastPut(log, k).Some?)
  }

  ghost predicate SettledRow(base: Row, row: Row, log: seq<Op>, a: string) {
    && row.feed == base.feed
    && (row.read == base.read || LastRead(log, a).Some? || MarkAllRead(row.feed) in log)
    && (row.star == base.star || LastStar(log, a).Some?)
  }

  /** Whatever the one log decides, the other decides too. */
  ghost predicate Covers(log: seq<Op>, part: seq<Op>) {
    forall x :: CoversAt(log, part, x)
  }

  ghost predicate CoversAt(log: seq<Op>, part: seq<Op>, x: string) {
    && (LastRead(part, x).Some? ==> LastRead(log, x).Some?)
    && (LastStar(part, x).Some? ==> LastStar(log, x).Some?)
    && (LastPut(part, x).Some? ==> LastPut(log, x).Some?)
    && (MarkAllRead(x) in part ==> MarkAllRead(x) in log)
  }

  lemma SettledReplays(base: Tables, lance: Tables, log: seq<Op>)
    requires Settles(base, lance, log)
    ensures Replayed(lance, log) == Replayed(base, log)
  {
    forall a | a in base.articles ensures Replayed(lance, log).articles[a] == Replayed(base, log).articles[a] {
      assert SettledRow(base.articles[a], lance.articles[a], log, a);
    }
    assert Replayed(lance, log).articles == Replayed(base, log).articles;
    assert Replayed(lance, log).settings == Replayed(base, log).settings;
  }

  lemma CoveredSettles(base: Tables, lance: Tables, log: seq<Op>, part: seq<Op>)
    requires Settles(base, lance, part) && Covers(log, part)
    ensures Settles(base, lance, log)
  {
    forall a | a in base.articles ensures SettledRow(base.articles[a], lance.articles[a], log, a) {
      assert SettledRow(base.articles[a], lance.articles[a], part, a);
      assert CoversAt(log, part, a) && CoversAt(log, part, lance.articles[a].feed);
    }
    forall k | k in base.settings ensures lance.settings[k] == base.settings[k] || LastPut(log, k).Some? {
      assert CoversAt(log, part, k);
    }
  }

  lemma ReplayedToSettles(base: Tables, from: Tables, log: seq<Op>, at: Progress)
    requires at.marks <= |MarksOf(log)| && Settles(base, from, log)
    ensures Settles(base, ReplayedTo(from, log, at), log)
  {
    var to := ReplayedTo(from, log, at);
    forall a | a in base.articles ensures SettledRow(base.articles[a], to.articles[a], log, a) {
      assert SettledRow(base.articles[a], from.articles[a], log, a);
      MarksOfLog(log, from.articles[a].feed);
    }
  }

  lemma LoggedCovers(rows: seq<Pending>, row: Pending, part: seq<Op>)
    requires Covers(Ops(rows), part)
    ensures Covers(Ops(Logged(rows, row)), part)
  {
    forall x ensures CoversAt(Ops(Logged(rows, row)), part, x) {
      assert CoversAt(Ops(rows), part, x);
      LoggedCoversAt(rows, row, x);
    }
  }

  lemma LoggedCoversAt(rows: seq<Pending>, row: Pending, x: string)
    ensures CoversAt(Ops(Logged(rows, row)), Ops(rows), x)
  {
    var kept := if row.op.PutSetting? then WithoutPut(rows, row.op.key) else rows;
    assert Ops(Logged(rows, row)) == Ops(kept) + [row.op];
    Snoc(Ops(kept), row.op);
    if row.op.PutSetting? {
      WithoutPutMeans(rows, row.op.key, x);
    }
  }

  ghost predicate LanceInv(s: State, t: Tables) {
    var base := Folded(t, s.batches);
    match s.phase
    case Idle => Settles(base, s.lance, Ops(s.rows))
    case Cleared => Settles(base, s.lance, Ops(s.rows))
    case Replaying(snap, _, from, at) =>
      && at.marks <= |MarksOf(Ops(snap))|
      && (at.marks < |MarksOf(Ops(snap))| ==> at.articles == {} && at.keys == {})
      && s.lance == ReplayedTo(from, Ops(snap), at)
      && Settles(base, from, Ops(snap))
      && Covers(Ops(s.rows), Ops(snap))
  }

  lemma MarkNextLance(s: State, t: Tables)
    requires LanceInv(s, t) && Enabled(s, MarkNext)
    ensures LanceInv(Step(s, MarkNext), t)
  {
    var log, at, from := Log(s), s.phase.at, s.phase.from;
    MarkReaches(from, log, at.marks);
    assert ReplayedTo(from, log, at).settings == ReplayedTo(from, log, at.(marks := at.marks + 1)).settings;
  }

  lemma OverrideReachesAt(from: Tables, log: seq<Op>, at: Progress, ids: set<string>, a: string)
    requires at.marks <= |MarksOf(log)| && a in from.articles
    ensures ReplayedTo(from, log, at.(articles := at.articles + ids)).articles[a] ==
            var r := ReplayedTo(from, log, at).articles[a];
            if a in ids then Merged(r, Explicit(log, a)) else r
  {
  }

  lemma OverrideGroupLance(s: State, t: Tables, ids: set<string>)
    requires LanceInv(s, t) && Enabled(s, OverrideGroup(ids))
    ensures LanceInv(Step(s, OverrideGroup(ids)), t)
  {
    var log, at, from := Log(s), s.phase.at, s.phase.from;
    var next := Step(s, OverrideGroup(ids));
    forall a | a in from.articles
      ensures next.lance.articles[a] == ReplayedTo(from, log, next.phase.at).articles[a]
    {
      OverrideReachesAt(from, log, at, ids, a);
    }
    assert next.lance.articles == ReplayedTo(from, log, next.phase.at).articles;
    assert next.lance.settings == ReplayedTo(from, log, next.phase.at).settings;
  }

  lemma SettingsGroupLance(s: State, t: Tables, keys: set<string>)
    requires LanceInv(s, t) && Enabled(s, SettingsGroup(keys))
    ensures LanceInv(Step(s, SettingsGroup(keys)), t)
  {
    var log, from := Log(s), s.phase.from;
    var next := Step(s, SettingsGroup(keys));
    assert next.lance.settings == ReplayedTo(from, log, next.phase.at).settings;
    assert next.lance.articles == ReplayedTo(from, log, next.phase.at).articles;
  }

  lemma ClearLance(s: State, t: Tables)
    requires LanceInv(s, t) && Enabled(s, Clear)
    ensures Step(s, Clear).lance == Folded(t, Step(s, Clear).batches)
    ensures LanceInv(Step(s, Clear), t)
  {
    var log, at, from := Log(s), s.phase.at, s.phase.from;
    forall a | a in from.articles && a !in at.articles ensures LastRead(log, a) == None && LastStar(log, a) == None {
      assert Explicit(log, a) == NO_OVERRIDE;
    }
    CompleteReplay(from, log, at);
    SettledReplays(Folded(t, s.batches), from, log);
    var next := Step(s, Clear);
    assert next.batches[..|next.batches| - 1] == s.batches;
  }

  lemma StepLance(s: State, t: Tables, e: Event)
    requires LanceInv(s, t) && Enabled(s, e)
    ensures LanceInv(Step(s, e), t)
  {
    match e
    case Write(op, _) => {
      LoggedCovers(s.rows, Pending(s.nextId, op), Ops(s.rows));
      if !s.phase.Replaying? {
        CoveredSettles(Folded(t, s.batches), s.lance, Ops(Step(s, e).rows), Ops(s.rows));
      } else {
        LoggedCovers(s.rows, Pending(s.nextId, op), Log(s));
      }
    }
    case Begin => {
      var log := Ops(s.rows);
      assert ReplayedTo(s.lance, log, Progress(0, {}, {})).articles == s.lance.articles;
      assert ReplayedTo(s.lance, log, Progress(0, {}, {})).settings == s.lance.settings;
    }
    case MarkNext => MarkNextLance(s, t);
    case OverrideGroup(ids) => OverrideGroupLance(s, t, ids);
    case SettingsGroup(keys) => SettingsGroupLance(s, t, keys);
    case Stop => {
      ReplayedToSettles(Folded(t, s.batches), s.phase.from, Log(s), s.phase.at);
      CoveredSettles(Folded(t, s.batches), s.lance, Ops(s.rows), Log(s));
    }
    case Clear => ClearLance(s, t);
    case ClearOverlay =>
  }

  lemma {:induction false} RunLance(s: State, t: Tables, events: seq<Event>)
    requires LanceInv(s, t) && CanRun(s, events)
    ensures LanceInv(Run(s, events), t)
    decreases |events|
  {
    if events != [] {
      StepLance(s, t, events[0]);
      RunLance(Step(s, events[0]), t, events[1..]);
    }
  }

  lemma StartedLance(t: Tables)
    ensures LanceInv(Started(t), t)
  {
  }

  lemma SettledByNothing(base: Tables, lance: Tables)
    requires Settles(base, lance, [])
    ensures lance == base
  {
    assert forall a | a in lance.articles :: SettledRow(base.articles[a], lance.articles[a], [], a);
    assert lance.articles == base.articles && lance.settings == base.settings;
  }

  /** However writers, failures and retries interleave: between replays, with nothing pending,
      Lance is exactly the completed replays one after the other; and whatever a failed replay
      has left there, the next completed one leaves what it would leave after the completed ones. */
  lemma LanceIsTheCompletedReplays(t: Tables, events: seq<Event>)
    requires CanRun(Started(t), events)
    ensures var s := Run(Started(t), events);
            && (!s.phase.Replaying? ==> Replayed(s.lance, Ops(s.rows)) == Replayed(Folded(t, s.batches), Ops(s.rows)))
            && (!s.phase.Replaying? && s.rows == [] ==> s.lance == Folded(t, s.batches))
            && (Enabled(s, Clear) ==> Step(s, Clear).lance == Folded(t, s.batches + [s.phase.snap]))
  {
    hide Settles, Covers, Folded;
    StartedLance(t);
    RunLance(Started(t), t, events);
    var s := Run(Started(t), events);
    if !s.phase.Replaying? {
      SettledReplays(Folded(t, s.batches), s.lance, Ops(s.rows));
      if s.rows == [] {
        assert Ops(s.rows) == [];
        SettledByNothing(Folded(t, s.batches), s.lance);
      }
    }
    if Enabled(s, Clear) {
      ClearLance(s, t);
      assert Step(s, Clear).batches == s.batches + [s.phase.snap];
    }
  }

  /** The writes of the completed replays, in order. */
  function Committed(batches: seq<seq<Pending>>): seq<Op> {
    if batches == [] then [] else Committed(batches[..|batches| - 1]) + Ops(batches[|batches| - 1])
  }

  lemma {:induction false} ApplyConcat(t: Tables, log: seq<Op>, more: seq<Op>)
    ensures ApplyAll(t, log + more) == ApplyAll(ApplyAll(t, log), more)
  {
    if more == [] {
      assert log + more == log;
    } else {
      ApplyConcat(t, log, more[..|more| - 1]);
      assert (log + more)[..|log + more| - 1] == log + more[..|more| - 1];
    }
  }

  /** The log has an explicit read state of the article, or a mark of its feed. */
  ghost predicate DecidesRead(log: seq<Op>, a: string, feed: string) {
    LastRead(log, a).Some? || MarkAllRead(feed) in log
  }

  /** Some batch has a mark of the feed after a last `unread` of the article, and no later batch
      decides the read state again. */
  ghost predicate Overtaken(batches: seq<seq<Pending>>, a: string, feed: string) {
    exists i | 0 <= i < |batches| :: UnreadThenMark(Ops(batches[i]), a, feed) && NoneDecides(batches, i, a, feed)
  }

  ghost predicate NoneDecides(batches: seq<seq<Pending>>, i: int, a: string, feed: string) {
    forall j | 0 <= i < j < |batches| :: !DecidesRead(Ops(batches[j]), a, feed)
  }

  lemma OvertakenStep(batches: seq<seq<Pending>>, a: string, feed: string)
    requires batches != []
    ensures var before, last := batches[..|batches| - 1], Ops(batches[|batches| - 1]);
      Overtaken(batches, a, feed) <==>
      UnreadThenMark(last, a, feed) || (Overtaken(before, a, feed) && !DecidesRead(last, a, feed))
  {
    var n := |batches| - 1;
    var before := batches[..n];
    assert NoneDecides(batches, n, a, feed);
    forall i | 0 <= i < n
      ensures NoneDecides(batches, i, a, feed) <==>
              NoneDecides(before, i, a, feed) && !DecidesRead(Ops(batches[n]), a, feed)
    {
      assert forall j | i < j < n :: before[j] == batches[j];
    }
  }

  /** One batch on two tables that may differ in the read state of the article. */
  lemma BatchDiffers(u: Tables, v: Tables, log: seq<Op>, a: string)
    requires a in u.articles && a in v.articles
    requires u.articles[a].feed == v.articles[a].feed && u.articles[a].star == v.articles[a].star
    ensures a in ApplyAll(v, log).articles && a in Replayed(u, log).articles
    ensures var left, plain := Replayed(u, log).articles[a], ApplyAll(v, log).articles[a];
      var feed := u.articles[a].feed;
      && left.feed == plain.feed == feed && left.star == plain.star
      && (left.read != plain.read <==>
          UnreadThenMark(log, a, feed) || (u.articles[a].read != v.articles[a].read && !DecidesRead(log, a, feed)))
  {
    hide LastRead, LastStar, UnreadThenMark, StaleUnread;
    ThreeMeanings(v, log, a);
    StaleUnreadPositions(log, a, v.articles[a].feed);
    StaleDecides(log, a, v.articles[a].feed);
  }

  lemma StaleDecides(log: seq<Op>, a: string, feed: string)
    ensures StaleUnread(log, a, feed) ==> LastRead(log, a) == Some(false)
  {
    StaleUnreadPositions(log, a, feed);
    LastReadPosition(log, a, false);
  }

  /** The completed replays leave what plain application of their writes gives: `star` always, and
      `read` unless some batch had a mark after a last `unread` of the article and no later batch
      an explicit read state of it or a mark of its feed. */
  lemma {:induction false} FoldedIsPlain(t: Tables, batches: seq<seq<Pending>>, a: string)
    requires a in t.articles
    ensures a in Folded(t, batches).articles && a in ApplyAll(t, Committed(batches)).articles
    ensures var left, plain := Folded(t, batches).articles[a], ApplyAll(t, Committed(batches)).articles[a];
            && left.feed == plain.feed == t.articles[a].feed && left.star == plain.star
            && (left.read == plain.read <==> !Overtaken(batches, a, t.articles[a].feed))
  {
    hide UnreadThenMark, DecidesRead, Replayed, Overtaken;
    if batches == [] {
      NothingOvertaken(a, t.articles[a].feed);
    } else {
      var before, last := batches[..|batches| - 1], Ops(batches[|batches| - 1]);
      FoldedIsPlain(t, before, a);
      ApplyConcat(t, Committed(before), last);
      BatchDiffers(Folded(t, before), ApplyAll(t, Committed(before)), last, a);
      OvertakenStep(batches, a, t.articles[a].feed);
    }
  }

  lemma NothingOvertaken(a: string, feed: string)
    ensures !Overtaken([], a, feed)
  {
  }

  lemma {:induction false} ApplyAllSettings(t: Tables, u: Tables, log: seq<Op>)
    requires t.settings == u.settings
    ensures ApplyAll(t, log).settings == ApplyAll(u, log).settings
  {
    if log != [] {
      ApplyAllSettings(t, u, log[..|log| - 1]);
    }
  }

  /** Settings of completed replays are those of plain application of their writes. */
  lemma {:induction false} FoldedSettingsArePlain(t: Tables, batches: seq<seq<Pending>>)
    ensures Folded(t, batches).settings == ApplyAll(t, Committed(batches)).settings
  {
    if batches != [] {
      var before, last := batches[..|batches| - 1], Ops(batches[|batches| - 1]);
      FoldedSettingsArePlain(t, before);
      ApplyConcat(t, Committed(before), last);
      SettingsReplayIsPlain(Folded(t, before), last);
      ApplyAllSettings(Folded(t, before), ApplyAll(t, Committed(before)), last);
    }
  }

  /** A write that arrives while the replay runs is deleted unread: its article stays unstarred
      in Lance and nothing is pending. */
  lemma GapWriteIsLost()
    ensures var t := Tables(map["a" := Row("f", false, false), "b" := Row("f", false, false)], map[]);
            var events := [Write(SetStar("a", true), true), Begin, OverrideGroup({"a"}), Write(SetStar("b", true), true), Clear];
            && CanRun(Started(t), events)
            && Run(Started(t), events).rows == []
            && Run(Started(t), events).phase.Cleared?
            && Run(Started(t), events).lance.articles["a"].star
            && !Run(Started(t), events).lance.articles["b"].star
  {
    var t := Tables(map["a" := Row("f", false, false), "b" := Row("f", false, false)], map[]);
    var s0 := Started(t);
    var log := [SetStar("a", true)];
    assert log[..0] == [];
    forall x
      ensures Explicit(log, x) == if x == "a" then Override(None, Some(true)) else NO_OVERRIDE
      ensures LastPut(log, x) == None
    {
      assert LastRead(log[..0], x) == None && LastStar(log[..0], x) == None && LastPut(log[..0], x) == None;
    }
    var s1 := Step(s0, Write(SetStar("a", true), true));
    assert Ops(s1.rows) == log;
    assert MarksOf(log) == [];
    var s2 := Step(s1, Begin);
    var s3 := Step(s2, OverrideGroup({"a"}));
    var s4 := Step(s3, Write(SetStar("b", true), true));
    assert Ops(s4.phase.snap) == log;
    assert SettingsDone(s4);
    var s5 := Step(s4, Clear);
    RunCons(s4, Clear, []);
    RunCons(s3, Write(SetStar("b", true), true), [Clear]);
    RunCons(s2, OverrideGroup({"a"}), [Write(SetStar("b", true), true), Clear]);
    RunCons(s1, Begin, [OverrideGroup({"a"}), Write(SetStar("b", true), true), Clear]);
    RunCons(s0, Write(SetStar("a", true), true), [Begin, OverrideGroup({"a"}), Write(SetStar("b", true), true), Clear]);
    assert s5.rows == [];
  }

  lemma RunCons(s: State, e: Event, rest: seq<Event>)
    requires Enabled(s, e) && CanRun(Step(s, e), rest)
    ensures CanRun(s, [e] + rest) && Run(s, [e] + rest) == Run(Step(s, e), rest)
  {
    assert ([e] + rest)[1..] == rest;
  }
}
