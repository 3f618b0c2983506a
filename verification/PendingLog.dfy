/** What a log of user writes means: read one after the other, seen through the in-memory
    overlay, and as the collapsed replay leaves it in Lance.  The three meanings are compared
    for every log and every table. */
module PendingLog {
  import opened Wrappers
  import opened LanceTables

  datatype Op =
    | SetRead(article: string, read: bool)
    | SetStar(article: string, star: bool)
    | MarkAllRead(feed: string)
    | PutSetting(key: string, value: string)

  // ── One after the other ──────────────────────────────────────────────────

  function Apply(t: Tables, op: Op): Tables {
    match op
    case SetRead(a, v) => t.(articles := if a in t.articles then t.articles[a := t.articles[a].(read := v)] else t.articles)
    case SetStar(a, v) => t.(articles := if a in t.articles then t.articles[a := t.articles[a].(star := v)] else t.articles)
    case MarkAllRead(f) =>
      t.(articles := map a | a in t.articles ::
        if t.articles[a].feed == f then t.articles[a].(read := true) else t.articles[a])
    case PutSetting(k, v) => t.(settings := if k in t.settings then t.settings[k := v] else t.settings)
  }

  function ApplyAll(t: Tables, log: seq<Op>): Tables {
    if log == [] then t else Apply(ApplyAll(t, log[..|log| - 1]), log[|log| - 1])
  }

  // ── The overlay ──────────────────────────────────────────────────────────

  function OverrideOf(overlay: map<string, Override>, a: string): Override {
    if a in overlay then overlay[a] else NO_OVERRIDE
  }

  /** A set goes to the overlay; a mark puts there the articles that Lance, without the overlay, has unread. */
  function OverlayStep(t: Tables, overlay: map<string, Override>, op: Op): map<string, Override> {
    match op
    case SetRead(a, v) => overlay[a := OverrideOf(overlay, a).(read := Some(v))]
    case SetStar(a, v) => overlay[a := OverrideOf(overlay, a).(star := Some(v))]
    case MarkAllRead(f) => MarkedOverlay(overlay, UnreadIn(t, f))
    case PutSetting(_, _) => overlay
  }

  function UnreadIn(t: Tables, feed: string): set<string> {
    set a | a in t.articles && t.articles[a].feed == feed && !t.articles[a].read
  }

  function MarkedOverlay(overlay: map<string, Override>, ids: set<string>): map<string, Override> {
    map a | a in overlay.Keys + ids ::
      if a in ids then OverrideOf(overlay, a).(read := Some(true)) else overlay[a]
  }

  function OverlayAfter(t: Tables, log: seq<Op>): map<string, Override> {
    if log == [] then map[]
    else OverlayStep(t, OverlayAfter(t, log[..|log| - 1]), log[|log| - 1])
  }

  /** What a read query shows: the override where there is one, otherwise the stored value. */
  function View(t: Tables, overlay: map<string, Override>): map<string, Row> {
    map a | a in t.articles :: Merged(t.articles[a], OverrideOf(overlay, a))
  }

  // ── The replay ───────────────────────────────────────────────────────────

  function LastRead(log: seq<Op>, a: string): Option<bool> {
    if log == [] then None
    else
      var op := log[|log| - 1];
      if op.SetRead? && op.article == a then Some(op.read) else LastRead(log[..|log| - 1], a)
  }

  function LastStar(log: seq<Op>, a: string): Option<bool> {
    if log == [] then None
    else
      var op := log[|log| - 1];
      if op.SetStar? && op.article == a then Some(op.star) else LastStar(log[..|log| - 1], a)
  }

  function LastPut(log: seq<Op>, k: string): Option<string> {
    if log == [] then None
    else
      var op := log[|log| - 1];
      if op.PutSetting? && op.key == k then Some(op.value) else LastPut(log[..|log| - 1], k)
  }

  /** The feeds marked in the log, in order. */
  function MarksOf(log: seq<Op>): seq<string> {
    if log == [] then []
    else
      var op := log[|log| - 1];
      MarksOf(log[..|log| - 1]) + if op.MarkAllRead? then [op.feed] else []
  }

  /** The marks are in the order of the log, each as often as it was made. */
  lemma {:induction false} MarksInOrder(before: seq<Op>, after: seq<Op>)
    ensures MarksOf(before + after) == MarksOf(before) + MarksOf(after)
  {
    if after == [] {
      assert before + after == before;
    } else {
      MarksInOrder(before, after[..|after| - 1]);
      assert (before + after)[..|before + after| - 1] == before + after[..|after| - 1];
    }
  }

  lemma {:induction false} MarksOfLog(log: seq<Op>, feed: string)
    ensures feed in MarksOf(log) <==> MarkAllRead(feed) in log
  {
    if log != [] {
      MarksOfLog(log[..|log| - 1], feed);
      MarkedByLast(log, feed);
    }
  }

  lemma MarkedByLast(log: seq<Op>, feed: string)
    requires log != []
    ensures MarkAllRead(feed) in log <==>
            MarkAllRead(feed) in log[..|log| - 1] || log[|log| - 1] == MarkAllRead(feed)
  {
    assert log == log[..|log| - 1] + [log[|log| - 1]];
  }

  /** Where a replay stands: how many of the marks are applied, the articles whose
      overrides are applied, and the settings that are written. */
  datatype Progress = Progress(marks: nat, articles: set<string>, keys: set<string>)

  /** The tables when a replay of the log has come as far as `at`. */
  function ReplayedTo(t: Tables, log: seq<Op>, at: Progress): Tables
    requires at.marks <= |MarksOf(log)|
  {
    Tables(
      map a | a in t.articles ::
        var r := t.articles[a];
        var marked := r.read || r.feed in MarksOf(log)[..at.marks];
        if a in at.articles then Row(r.feed, LastRead(log, a).GetOr(marked), LastStar(log, a).GetOr(r.star))
        else Row(r.feed, marked, r.star),
      map k | k in t.settings ::
        if k in at.keys then LastPut(log, k).GetOr(t.settings[k]) else t.settings[k])
  }

  /** The tables after a complete replay: the last explicit value of each field wins, whatever
      marks come after it, and a mark decides only articles without an explicit value. */
  function Replayed(t: Tables, log: seq<Op>): Tables {
    Tables(
      map a | a in t.articles ::
        var r := t.articles[a];
        Row(r.feed, LastRead(log, a).GetOr(r.read || MarkAllRead(r.feed) in log), LastStar(log, a).GetOr(r.star)),
      map k | k in t.settings :: LastPut(log, k).GetOr(t.settings[k]))
  }

  // ── Extending a log ──────────────────────────────────────────────────────

  lemma {:induction false} LastOfConcat(log: seq<Op>, more: seq<Op>, a: string)
    ensures LastRead(log + more, a) == if LastRead(more, a).Some? then LastRead(more, a) else LastRead(log, a)
    ensures LastStar(log + more, a) == if LastStar(more, a).Some? then LastStar(more, a) else LastStar(log, a)
    ensures LastPut(log + more, a) == if LastPut(more, a).Some? then LastPut(more, a) else LastPut(log, a)
  {
    if more == [] {
      assert log + more == log;
    } else {
      LastOfConcat(log, more[..|more| - 1], a);
      assert (log + more)[..|log + more| - 1] == log + more[..|more| - 1];
    }
  }

  lemma Snoc(log: seq<Op>, op: Op)
    ensures (log + [op])[..|log|] == log
    ensures (log + [op])[..|log + [op]| - 1] == log && (log + [op])[|log + [op]| - 1] == op
  {
  }

  // ── Theorem: the three meanings compared ─────────────────────────────────

  /** The last explicit read state of the article is `unread` and a mark of its feed comes later. */
  predicate StaleUnread(log: seq<Op>, a: string, feed: string) {
    log != [] &&
    var before, op := log[..|log| - 1], log[|log| - 1];
    match op
    case SetRead(b, _) => b != a && StaleUnread(before, a, feed)
    case MarkAllRead(f) => if f == feed then LastRead(before, a) == Some(false) else StaleUnread(before, a, feed)
    case _ => StaleUnread(before, a, feed)
  }

  /** The same condition by positions in the log. */
  ghost predicate UnreadThenMark(log: seq<Op>, a: string, feed: string) {
    exists i, j | 0 <= i < j < |log| ::
      log[i] == SetRead(a, false) && log[j] == MarkAllRead(feed) && NoReadAfter(log, a, i)
  }

  ghost predicate NoReadAfter(log: seq<Op>, a: string, i: int) {
    forall k | 0 <= i < k < |log| :: !(log[k].SetRead? && log[k].article == a)
  }

  lemma {:induction false} LastReadPosition(log: seq<Op>, a: string, v: bool)
    ensures LastRead(log, a) == Some(v) <==>
            exists i | 0 <= i < |log| :: log[i] == SetRead(a, v) && NoReadAfter(log, a, i)
  {
    if log != [] {
      var before, op := log[..|log| - 1], log[|log| - 1];
      LastReadPosition(before, a, v);
      if op.SetRead? && op.article == a {
        assert NoReadAfter(log, a, |log| - 1);
        if i :| 0 <= i < |log| && log[i] == SetRead(a, v) && NoReadAfter(log, a, i) {
          assert i == |log| - 1;
        }
      } else {
        forall i | 0 <= i < |before| ensures NoReadAfter(before, a, i) == NoReadAfter(log, a, i) {
          assert forall k | i < k < |before| :: log[k] == before[k];
        }
      }
    }
  }

  lemma {:induction false} StaleUnreadPositions(log: seq<Op>, a: string, feed: string)
    ensures StaleUnread(log, a, feed) <==> UnreadThenMark(log, a, feed)
  {
    if log != [] {
      var before, op := log[..|log| - 1], log[|log| - 1];
      StaleUnreadPositions(before, a, feed);
      LastReadPosition(before, a, false);
      if op.SetRead? && op.article == a {
        forall i | 0 <= i < |before| ensures !NoReadAfter(log, a, i) {
        }
      } else {
        forall i | 0 <= i < |before| ensures NoReadAfter(before, a, i) == NoReadAfter(log, a, i) {
          assert forall k | i < k < |before| :: log[k] == before[k];
        }
      }
    }
  }

  /** One step of plain application, seen at one article. */
  lemma PlainStep(t: Tables, op: Op, a: string)
    requires a in t.articles
    ensures a in Apply(t, op).articles
    ensures Apply(t, op).articles[a] ==
            match op
            case SetRead(b, v) => if b == a then t.articles[a].(read := v) else t.articles[a]
            case SetStar(b, v) => if b == a then t.articles[a].(star := v) else t.articles[a]
            case MarkAllRead(f) => if f == t.articles[a].feed then t.articles[a].(read := true) else t.articles[a]
            case PutSetting(_, _) => t.articles[a]
  {
  }

  /** One step of the overlay, seen at one article. */
  lemma OverlayStepAt(t: Tables, overlay: map<string, Override>, op: Op, a: string)
    requires a in t.articles
    ensures OverrideOf(OverlayStep(t, overlay, op), a) ==
            var ov := OverrideOf(overlay, a);
            match op
            case SetRead(b, v) => if b == a then ov.(read := Some(v)) else ov
            case SetStar(b, v) => if b == a then ov.(star := Some(v)) else ov
            case MarkAllRead(f) =>
              if f == t.articles[a].feed && !t.articles[a].read then ov.(read := Some(true)) else ov
            case PutSetting(_, _) => ov
  {
  }

  /** With a stale `unread` in the log the three meanings differ as stated; without one they are the same.
      `star` is the same in all three in any case. */
  lemma {:induction false} ThreeMeanings(t: Tables, log: seq<Op>, a: string)
    requires a in t.articles
    ensures a in ApplyAll(t, log).articles && ApplyAll(t, log).articles[a].feed == t.articles[a].feed
    ensures var plain := ApplyAll(t, log).articles[a];
            var seen := View(t, OverlayAfter(t, log))[a];
            var left := Replayed(t, log).articles[a];
            && plain.star == seen.star == left.star
            && (if StaleUnread(log, a, t.articles[a].feed)
                then plain.read && !left.read && seen.read == !t.articles[a].read
                else plain.read == seen.read == left.read)
  {
    hide Apply, OverlayStep;
    if log != [] {
      var before, op := log[..|log| - 1], log[|log| - 1];
      ThreeMeanings(t, before, a);
      PlainStep(ApplyAll(t, before), op, a);
      OverlayStepAt(t, OverlayAfter(t, before), op, a);
      MarkedByLast(log, t.articles[a].feed);
    }
  }

  /** The overlay shows what the replay will leave, for every field but one case of `read`. */
  lemma OverlayAgreesWithReplay(t: Tables, log: seq<Op>, a: string)
    requires a in t.articles
    ensures View(t, OverlayAfter(t, log))[a].star == Replayed(t, log).articles[a].star
    ensures View(t, OverlayAfter(t, log))[a].read == Replayed(t, log).articles[a].read <==>
            !(!t.articles[a].read && UnreadThenMark(log, a, t.articles[a].feed))
  {
    ThreeMeanings(t, log, a);
    StaleUnreadPositions(log, a, t.articles[a].feed);
  }

  /** The replay leaves what plain application gives exactly when no mark follows a last `unread`. */
  lemma ReplayAgreesWithPlain(t: Tables, log: seq<Op>, a: string)
    requires a in t.articles
    ensures a in ApplyAll(t, log).articles
    ensures Replayed(t, log).articles[a] == ApplyAll(t, log).articles[a] <==>
            !UnreadThenMark(log, a, t.articles[a].feed)
  {
    ThreeMeanings(t, log, a);
    StaleUnreadPositions(log, a, t.articles[a].feed);
  }

  /** The overlay shows what plain application gives except for an article already read in Lance. */
  lemma OverlayAgreesWithPlain(t: Tables, log: seq<Op>, a: string)
    requires a in t.articles
    ensures a in ApplyAll(t, log).articles
    ensures View(t, OverlayAfter(t, log))[a] == ApplyAll(t, log).articles[a] <==>
            !(t.articles[a].read && UnreadThenMark(log, a, t.articles[a].feed))
  {
    ThreeMeanings(t, log, a);
    StaleUnreadPositions(log, a, t.articles[a].feed);
  }

  /** Settings lose nothing by the collapse. */
  lemma {:induction false} SettingsReplayIsPlain(t: Tables, log: seq<Op>)
    ensures Replayed(t, log).settings == ApplyAll(t, log).settings
  {
    if log != [] {
      SettingsReplayIsPlain(t, log[..|log| - 1]);
    } else {
      assert Replayed(t, log).settings == t.settings;
    }
  }

  // ── Theorem: a stopped replay is absorbed by the next complete one ───────

  /** Stopping a replay anywhere, appending any further writes and replaying all of it leaves
      the tables that one complete replay of the longer log leaves. */
  lemma ReplayAbsorbs(t: Tables, log: seq<Op>, at: Progress, more: seq<Op>)
    requires at.marks <= |MarksOf(log)|
    ensures Replayed(ReplayedTo(t, log, at), log + more) == Replayed(t, log + more)
  {
    hide LastRead, LastStar, LastPut, MarksOf;
    var u := ReplayedTo(t, log, at);
    forall a | a in t.articles
      ensures Replayed(u, log + more).articles[a] == Replayed(t, log + more).articles[a]
    {
      LastOfConcat(log, more, a);
      MarksOfLog(log, t.articles[a].feed);
    }
    forall k | k in t.settings
      ensures Replayed(u, log + more).settings[k] == Replayed(t, log + more).settings[k]
    {
      LastOfConcat(log, more, k);
    }
    assert Replayed(u, log + more).articles == Replayed(t, log + more).articles;
    assert Replayed(u, log + more).settings == Replayed(t, log + more).settings;
  }

  /** A failed attempt and the writes that arrive before the next one. */
  datatype Attempt = Attempt(at: Progress, more: seq<Op>)

  ghost predicate Possible(log: seq<Op>, attempts: seq<Attempt>)
    decreases |attempts|
  {
    attempts == [] ||
    (attempts[0].at.marks <= |MarksOf(log)| && Possible(log + attempts[0].more, attempts[1..]))
  }

  ghost function TablesAfter(t: Tables, log: seq<Op>, attempts: seq<Attempt>): Tables
    requires Possible(log, attempts)
    decreases |attempts|
  {
    if attempts == [] then t
    else TablesAfter(ReplayedTo(t, log, attempts[0].at), log + attempts[0].more, attempts[1..])
  }

  ghost function LogAfter(log: seq<Op>, attempts: seq<Attempt>): seq<Op>
    decreases |attempts|
  {
    if attempts == [] then log else LogAfter(log + attempts[0].more, attempts[1..])
  }

  /** Any number of failed attempts, each stopped anywhere, with writes arriving between them,
      leaves no trace once a replay completes. */
  lemma {:induction false} RetriesAbsorb(t: Tables, log: seq<Op>, attempts: seq<Attempt>)
    requires Possible(log, attempts)
    ensures log <= LogAfter(log, attempts)
    ensures Replayed(TablesAfter(t, log, attempts), LogAfter(log, attempts)) == Replayed(t, LogAfter(log, attempts))
    decreases |attempts|
  {
    if attempts != [] {
      var longer := log + attempts[0].more;
      RetriesAbsorb(ReplayedTo(t, log, attempts[0].at), longer, attempts[1..]);
      var final := LogAfter(log, attempts);
      assert log + final[|log|..] == final;
      ReplayAbsorbs(t, log, attempts[0].at, final[|log|..]);
    }
  }

  /** A replay that has passed every mark, every explicit article and every put key is complete. */
  lemma CompleteReplay(t: Tables, log: seq<Op>, at: Progress)
    requires at.marks == |MarksOf(log)|
    requires forall a | a in t.articles && a !in at.articles :: LastRead(log, a) == None && LastStar(log, a) == None
    requires forall k | k in t.settings && k !in at.keys :: LastPut(log, k) == None
    ensures ReplayedTo(t, log, at) == Replayed(t, log)
  {
    forall a | a in t.articles {
      MarksOfLog(log, t.articles[a].feed);
    }
    assert MarksOf(log)[..at.marks] == MarksOf(log);
    assert ReplayedTo(t, log, at).articles == Replayed(t, log).articles;
    assert ReplayedTo(t, log, at).settings == Replayed(t, log).settings;
  }
}
