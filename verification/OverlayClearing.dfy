/** The overlay while replays and writers interleave: what is shown is what the writes since the last
    clear of the overlay put there, so a pending row is hidden exactly when it was inserted after
    the log was last cleared and before the overlay was. */
module OverlayClearing {
  import opened Wrappers
  import opened LanceTables
  import opened PendingLog
  import opened OfflineCaching
  import opened ReplayInterleaving

  /** The last pending row that sets the star of the article. */
  function LastStarRow(rows: seq<Pending>, a: string): (last: Option<Pending>)
    ensures last.Some? ==> last.value in rows && last.value.op.SetStar? && last.value.op.article == a
  {
    if rows == [] then None
    else
      var r := rows[|rows| - 1];
      if r.op.SetStar? && r.op.article == a then Some(r) else LastStarRow(rows[..|rows| - 1], a)
  }

  /** The last pending row that sets the read state of the article. */
  function LastReadRow(rows: seq<Pending>, a: string): (last: Option<Pending>)
    ensures last.Some? ==> last.value in rows && last.value.op.SetRead? && last.value.op.article == a
  {
    if rows == [] then None
    else
      var r := rows[|rows| - 1];
      if r.op.SetRead? && r.op.article == a then Some(r) else LastReadRow(rows[..|rows| - 1], a)
  }

  lemma {:induction false} WithoutPutLast(rows: seq<Pending>, key: string, a: string)
    ensures LastStarRow(WithoutPut(rows, key), a) == LastStarRow(rows, a)
    ensures LastReadRow(WithoutPut(rows, key), a) == LastReadRow(rows, a)
  {
    if rows != [] {
      var rest, r := rows[..|rows| - 1], rows[|rows| - 1];
      WithoutPutLast(rest, key, a);
      var kept := WithoutPut(rest, key);
      if IsPutOf(r, key) {
        assert WithoutPut(rows, key) == kept;
      } else {
        assert WithoutPut(rows, key) == kept + [r] && (kept + [r])[..|kept|] == kept;
      }
    }
  }

  lemma LoggedLast(rows: seq<Pending>, row: Pending, a: string)
    ensures LastStarRow(Logged(rows, row), a) ==
            if row.op.SetStar? && row.op.article == a then Some(row) else LastStarRow(rows, a)
    ensures LastReadRow(Logged(rows, row), a) ==
            if row.op.SetRead? && row.op.article == a then Some(row) else LastReadRow(rows, a)
  {
    var kept := if row.op.PutSetting? then WithoutPut(rows, row.op.key) else rows;
    assert Logged(rows, row)[..|kept|] == kept;
    if row.op.PutSetting? {
      WithoutPutLast(rows, row.op.key, a);
    }
  }

  // ── What the overlay holds ───────────────────────────────────────────────

  /** The read state that the last write with at least the given row id put there for the article. */
  function LastReadTouch(touches: seq<Touch>, from: int, a: string): Option<bool> {
    if touches == [] then None
    else
      var w := touches[|touches| - 1];
      if w.id >= from && a in w.articles && w.read.Some? then w.read
      else LastReadTouch(touches[..|touches| - 1], from, a)
  }

  function LastStarTouch(touches: seq<Touch>, from: int, a: string): Option<bool> {
    if touches == [] then None
    else
      var w := touches[|touches| - 1];
      if w.id >= from && a in w.articles && w.star.Some? then w.star
      else LastStarTouch(touches[..|touches| - 1], from, a)
  }

  lemma {:induction false} OldTouches(touches: seq<Touch>, from: int, a: string)
    requires forall w | w in touches :: w.id < from
    ensures LastReadTouch(touches, from, a) == None && LastStarTouch(touches, from, a) == None
  {
    if touches != [] {
      OldTouches(touches[..|touches| - 1], from, a);
    }
  }

  ghost predicate Ordered(touches: seq<Touch>, nextId: nat) {
    && (forall i, j | 0 <= i < j < |touches| :: touches[i].id < touches[j].id)
    && (forall w | w in touches :: w.id < nextId)
  }

  /** From one write on, the last state is a later one or the write's own. */
  lemma {:induction false} TouchFrom(touches: seq<Touch>, from: int, k: nat, a: string)
    requires k < |touches| && from <= touches[k].id && a in touches[k].articles && touches[k].read.Some?
    requires forall i, j | 0 <= i < j < |touches| :: touches[i].id < touches[j].id
    ensures LastReadTouch(touches, from, a) ==
            var later := LastReadTouch(touches, touches[k].id + 1, a); if later.Some? then later else touches[k].read
  {
    var n := |touches| - 1;
    if k == n {
      forall w | w in touches ensures w.id < touches[k].id + 1 {
        var i :| 0 <= i < |touches| && touches[i] == w;
      }
      OldTouches(touches, touches[k].id + 1, a);
    } else {
      assert touches[..n][k] == touches[k];
      TouchFrom(touches[..n], from, k, a);
    }
  }

  /** A pending row's write is among those that were put into the overlay. */
  ghost predicate Touched(s: State, r: Pending) {
    exists k | 0 <= k < |s.touches| :: TouchedAt(s.touches[k], r)
  }

  ghost predicate TouchedAt(w: Touch, r: Pending) {
    && w.id == r.id
    && (r.op.SetRead? ==> w == Touch(r.id, {r.op.article}, Some(r.op.read), None))
    && (r.op.MarkAllRead? ==> w == Touch(r.id, w.articles, Some(true), None))
  }

  ghost predicate StarFollows(s: State, a: string) {
    var star, last := OverrideOf(s.overlay, a).star, LastStarRow(s.rows, a);
    if last.Some? && last.value.id >= s.shownFrom then star == Some(last.value.op.star)
    else (last.None? && s.phase.Cleared?) || star == None
  }

  ghost predicate OverlayInv(s: State, a: string) {
    && Ordered(s.touches, s.nextId)
    && (forall r | r in s.rows :: s.clearedAt <= r.id < s.nextId && Touched(s, r))
    && s.shownFrom <= s.nextId && s.clearedAt <= s.nextId && (s.phase.Cleared? ==> s.shownFrom <= s.clearedAt)
    && a in s.lance.articles && StarFollows(s, a)
    && OverrideOf(s.overlay, a) ==
       Override(LastReadTouch(s.touches, s.shownFrom, a), LastStarTouch(s.touches, s.shownFrom, a))
  }

  lemma WriteTouches(s: State, op: Op, queryOk: bool, a: string)
    requires OverlayInv(s, a)
    ensures var t := Step(s, Write(op, queryOk));
      OverrideOf(t.overlay, a) ==
      Override(LastReadTouch(t.touches, t.shownFrom, a), LastStarTouch(t.touches, t.shownFrom, a))
  {
    hide Logged, LastStarRow;
    var t := Step(s, Write(op, queryOk));
    assert t.touches[..|t.touches| - 1] == s.touches;
    OverlayStepAt(s.lance, s.overlay, op, a);
  }

  lemma WriteOverlay(s: State, op: Op, queryOk: bool, a: string)
    requires OverlayInv(s, a)
    ensures OverlayInv(Step(s, Write(op, queryOk)), a)
  {
    hide Logged, LastStarRow, OverlayStep, LastReadTouch, LastStarTouch;
    var row, t := Pending(s.nextId, op), Step(s, Write(op, queryOk));
    WriteTouches(s, op, queryOk, a);
    LoggedRows(s.rows, row);
    LoggedLast(s.rows, row, a);
    OverlayStepAt(s.lance, s.overlay, op, a);
    assert TouchedAt(t.touches[|s.touches|], row);
    forall r | r in t.rows ensures Touched(t, r) {
      if r in s.rows {
        var k :| 0 <= k < |s.touches| && TouchedAt(s.touches[k], r);
        assert t.touches[k] == s.touches[k];
      }
    }
  }

  lemma StepOverlay(s: State, e: Event, a: string)
    requires Enabled(s, e) && OverlayInv(s, a)
    ensures OverlayInv(Step(s, e), a)
  {
    match e
    case Write(op, queryOk) => WriteOverlay(s, op, queryOk, a);
    case ClearOverlay => OldTouches(s.touches, s.nextId, a);
    case _ =>
      assert Step(s, e).touches == s.touches;
      assert forall r | r in Step(s, e).rows :: r in s.rows && Touched(s, r);
  }

  lemma {:induction false} RunOverlay(s: State, events: seq<Event>, a: string)
    requires CanRun(s, events) && OverlayInv(s, a)
    ensures OverlayInv(Run(s, events), a)
    decreases |events|
  {
    hide OverlayInv, Step, Enabled;
    if events != [] {
      StepOverlay(s, events[0], a);
      RunOverlay(Step(s, events[0]), events[1..], a);
    }
  }

  // ── What is shown ────────────────────────────────────────────────────────

  /** The row was inserted between the last clear of the log and the clear of the overlay after it. */
  predicate Hidden(s: State, r: Pending) {
    s.clearedAt <= r.id < s.shownFrom
  }

  /** Over every interleaving of writers and replays: each article is shown with the last read state
      and the last star that a write put there since the overlay was last cleared, and otherwise
      as Lance has it. */
  lemma ShownExactly(t: Tables, events: seq<Event>, a: string)
    requires CanRun(Started(t), events) && a in t.articles
    ensures var s := Run(Started(t), events);
      && a in s.lance.articles
      && View(s.lance, s.overlay)[a] == Row(s.lance.articles[a].feed,
           LastReadTouch(s.touches, s.shownFrom, a).GetOr(s.lance.articles[a].read),
           LastStarTouch(s.touches, s.shownFrom, a).GetOr(s.lance.articles[a].star))
  {
    RunOverlay(Started(t), events, a);
  }

  /** The article queries show the last pending star of an article exactly when its row is not
      hidden, and otherwise what Lance has. */
  lemma HiddenStars(t: Tables, events: seq<Event>, a: string)
    requires CanRun(Started(t), events) && a in t.articles
    ensures var s := Run(Started(t), events);
      && a in s.lance.articles
      && (LastStarRow(s.rows, a).Some? ==>
            var r := LastStarRow(s.rows, a).value;
            && r in s.rows && r.op.SetStar? && r.op.article == a
            && View(s.lance, s.overlay)[a].star == if Hidden(s, r) then s.lance.articles[a].star else r.op.star)
  {
    RunOverlay(Started(t), events, a);
  }

  /** The same for the read state, unless a later visible write, a mark that found the article
      unread, says otherwise. */
  lemma HiddenReads(t: Tables, events: seq<Event>, a: string)
    requires CanRun(Started(t), events) && a in t.articles && LastReadRow(Run(Started(t), events).rows, a).Some?
    ensures a in Run(Started(t), events).lance.articles
    ensures var s := Run(Started(t), events);
            var r := LastReadRow(s.rows, a).value;
            var later := LastReadTouch(s.touches, if Hidden(s, r) then s.shownFrom else r.id + 1, a);
            && r in s.rows && r.op.SetRead? && r.op.article == a
            && View(s.lance, s.overlay)[a].read ==
               later.GetOr(if Hidden(s, r) then s.lance.articles[a].read else r.op.read)
  {
    StartsInv(t, a);
    hide OverlayInv, LastReadTouch, View, OverrideOf;
    RunOverlay(Started(t), events, a);
    ReadsShown(Run(Started(t), events), a);
  }

  lemma StartsInv(t: Tables, a: string)
    requires a in t.articles
    ensures OverlayInv(Started(t), a)
  {
  }

  lemma TouchShown(s: State, k: nat, a: string)
    requires OverlayInv(s, a) && k < |s.touches| && s.touches[k].id >= s.shownFrom
    requires a in s.touches[k].articles && s.touches[k].read.Some?
    ensures View(s.lance, s.overlay)[a].read ==
            LastReadTouch(s.touches, s.touches[k].id + 1, a).GetOr(s.touches[k].read.value)
  {
    hide LastReadTouch, LastStarTouch, Touched, StarFollows;
    TouchFrom(s.touches, s.shownFrom, k, a);
  }

  lemma LanceShown(s: State, a: string)
    requires OverlayInv(s, a)
    ensures View(s.lance, s.overlay)[a].read == LastReadTouch(s.touches, s.shownFrom, a).GetOr(s.lance.articles[a].read)
  {
    hide LastReadTouch, LastStarTouch, Touched, StarFollows;
  }

  lemma ReadsShown(s: State, a: string)
    requires OverlayInv(s, a) && LastReadRow(s.rows, a).Some?
    ensures var r := LastReadRow(s.rows, a).value;
      var later := LastReadTouch(s.touches, if Hidden(s, r) then s.shownFrom else r.id + 1, a);
      View(s.lance, s.overlay)[a].read == later.GetOr(if Hidden(s, r) then s.lance.articles[a].read else r.op.read)
  {
    hide LastReadTouch, View, OverrideOf, StarFollows, LastReadRow;
    var r := LastReadRow(s.rows, a).value;
    if Hidden(s, r) {
      LanceShown(s, a);
    } else {
      assert Touched(s, r);
      var k :| 0 <= k < |s.touches| && TouchedAt(s.touches[k], r);
      TouchShown(s, k, a);
    }
  }

  /** A pending mark was put into the overlay for the articles its query found unread.  If it is not
      hidden, these are shown as read until a later write says otherwise; if it is, an article is
      shown as Lance has it until a visible write says otherwise. */
  lemma HiddenMarks(t: Tables, events: seq<Event>, r: Pending, a: string)
    requires CanRun(Started(t), events) && a in t.articles
    requires r in Run(Started(t), events).rows && r.op.MarkAllRead?
    ensures a in Run(Started(t), events).lance.articles
    ensures var s := Run(Started(t), events);
      exists k | 0 <= k < |s.touches| ::
        && TouchedAt(s.touches[k], r)
        && (!Hidden(s, r) && a in s.touches[k].articles ==>
              View(s.lance, s.overlay)[a].read == LastReadTouch(s.touches, r.id + 1, a).GetOr(true))
        && (Hidden(s, r) ==>
              View(s.lance, s.overlay)[a].read == LastReadTouch(s.touches, s.shownFrom, a).GetOr(s.lance.articles[a].read))
  {
    StartsInv(t, a);
    hide OverlayInv, LastReadTouch, View, OverrideOf;
    RunOverlay(Started(t), events, a);
    MarksShown(Run(Started(t), events), r, a);
  }

  lemma MarksShown(s: State, r: Pending, a: string)
    requires OverlayInv(s, a) && r in s.rows && r.op.MarkAllRead?
    ensures exists k | 0 <= k < |s.touches| ::
      && TouchedAt(s.touches[k], r)
      && (!Hidden(s, r) && a in s.touches[k].articles ==>
            View(s.lance, s.overlay)[a].read == LastReadTouch(s.touches, r.id + 1, a).GetOr(true))
      && (Hidden(s, r) ==>
            View(s.lance, s.overlay)[a].read == LastReadTouch(s.touches, s.shownFrom, a).GetOr(s.lance.articles[a].read))
  {
    hide LastReadTouch, View, OverrideOf, StarFollows;
    assert Touched(s, r);
    var k :| 0 <= k < |s.touches| && TouchedAt(s.touches[k], r);
    if Hidden(s, r) {
      LanceShown(s, a);
    } else if a in s.touches[k].articles {
      TouchShown(s, k, a);
    }
  }

  /** A write between the two clears: it is pending, and the reader does not see it. */
  lemma HiddenWrite()
    ensures var t := Tables(map["b" := Row("f", false, false)], map[]);
            var events := [Write(SetStar("b", false), true)] + ([Begin] + ([OverrideGroup({"b"})] + ([Clear]
                          + ([Write(SetStar("b", true), true)] + ([ClearOverlay] + [])))));
      && CanRun(Started(t), events)
      && var s := Run(Started(t), events);
         && Ops(s.rows) == [SetStar("b", true)] && Hidden(s, s.rows[0])
         && View(s.lance, s.overlay) == map["b" := Row("f", false, false)]
  {
    WriteBetweenClears(SetStar("b", true));
  }

  lemma WriteBetweenClears(op: Op)
    requires !op.PutSetting?
    ensures var t := Tables(map["b" := Row("f", false, false)], map[]);
            var events := [Write(SetStar("b", false), true)] + ([Begin] + ([OverrideGroup({"b"})] + ([Clear]
                          + ([Write(op, true)] + ([ClearOverlay] + [])))));
      && CanRun(Started(t), events)
      && var s := Run(Started(t), events);
         && Ops(s.rows) == [op] && Hidden(s, s.rows[0])
         && View(s.lance, s.overlay) == map["b" := Row("f", false, false)]
  {
    var t := Tables(map["b" := Row("f", false, false)], map[]);
    var log := [SetStar("b", false)];
    assert log[..0] == [];
    forall x ensures Explicit(log, x) == if x == "b" then Override(None, Some(false)) else NO_OVERRIDE
      ensures LastPut(log, x) == None
    {
      assert LastRead(log[..0], x) == None && LastStar(log[..0], x) == None && LastPut(log[..0], x) == None;
    }
    var s0 := Started(t);
    var s1 := Step(s0, Write(SetStar("b", false), true));
    assert Ops(s1.rows) == log && MarksOf(log) == [];
    var s2 := Step(s1, Begin);
    var s3 := Step(s2, OverrideGroup({"b"}));
    assert SettingsDone(s3);
    assert s3.lance.articles == t.articles;
    AfterClear(Step(s3, Clear), t, op);
    var s4 := Step(s3, Clear);
    RunCons(s3, Clear, [Write(op, true)] + ([ClearOverlay] + []));
    RunCons(s2, OverrideGroup({"b"}), [Clear] + ([Write(op, true)] + ([ClearOverlay] + [])));
    RunCons(s1, Begin, [OverrideGroup({"b"})] + ([Clear] + ([Write(op, true)] + ([ClearOverlay] + []))));
    RunCons(s0, Write(SetStar("b", false), true),
            [Begin] + ([OverrideGroup({"b"})] + ([Clear] + ([Write(op, true)] + ([ClearOverlay] + [])))));
  }

  /** A mark between the two clears is pending and not shown either. */
  lemma HiddenMark()
    ensures var t := Tables(map["b" := Row("f", false, false)], map[]);
            var events := [Write(SetStar("b", false), true)] + ([Begin] + ([OverrideGroup({"b"})] + ([Clear]
                          + ([Write(MarkAllRead("f"), true)] + ([ClearOverlay] + [])))));
      && CanRun(Started(t), events)
      && var s := Run(Started(t), events);
         && Ops(s.rows) == [MarkAllRead("f")] && Hidden(s, s.rows[0])
         && View(s.lance, s.overlay) == map["b" := Row("f", false, false)]
  {
    WriteBetweenClears(MarkAllRead("f"));
  }

  lemma AfterClear(s: State, t: Tables, op: Op)
    requires !op.PutSetting? && s.phase.Cleared? && s.rows == [] && s.clearedAt == s.nextId && s.lance.articles == t.articles
    requires t.articles == map["b" := Row("f", false, false)]
    ensures var events := [Write(op, true)] + ([ClearOverlay] + []);
      && CanRun(s, events)
      && var n := Run(s, events);
         && Ops(n.rows) == [op] && Hidden(n, n.rows[0]) && View(n.lance, n.overlay) == t.articles
  {
    var s1 := Step(s, Write(op, true));
    assert s1.rows == [Pending(s.nextId, op)];
    var s2 := Step(s1, ClearOverlay);
    assert View(s2.lance, map[]) == t.articles;
    RunCons(s1, ClearOverlay, []);
    RunCons(s, Write(op, true), [ClearOverlay] + []);
  }
}
