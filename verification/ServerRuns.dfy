/** What holds over whole runs of the server: the cached copies and Lance follow plain
    application of the writes, and settings read back the last value put. */
module ServerRuns {
  import opened Wrappers
  import opened LanceTables
  import opened PendingLog
  import opened OfflineCaching
  import opened ServerState

  // ── Runs ─────────────────────────────────────────────────────────────────

  ghost predicate CanRun(s: Server, events: seq<Event>)
    decreases |events|
  {
    events == [] || (Enabled(s, events[0]) && CanRun(Step(s, events[0]), events[1..]))
  }

  ghost function Run(s: Server, events: seq<Event>): Server
    requires CanRun(s, events)
    decreases |events|
  {
    if events == [] then s else Run(Step(s, events[0]), events[1..])
  }

  /** The articles after plain application of every write and every fetch of the run, one after the other. */
  function Plain(articles: map<string, Row>, events: seq<Event>): map<string, Row>
    decreases |events|
  {
    if events == [] then articles
    else Plain(PlainStep(articles, events[0]), events[1..])
  }

  function PlainStep(articles: map<string, Row>, e: Event): map<string, Row> {
    match e
    case Write(op, _) => Apply(Tables(articles, map[]), op).articles
    case FetcherAdds(a, feed) => articles[a := NewRow(feed)]
    case _ => articles
  }

  // ── Articles: what must be right ─────────────────────────────────────────

  /** Lance after the next complete flush, the cached copies and what is shown online all agree
      with the plain state `truth`. */
  ghost predicate Right(s: Server, truth: map<string, Row>) {
    && Replayed(s.lance, Ops(s.rows)).articles == truth
    && (forall a | a in s.cached :: a in truth && s.cached[a] == truth[a])
    && (!s.offline ==> View(s.lance, s.overlay) == truth)
  }

  /** How the overlay of one article stands to its row in Lance, the log and the plain state. */
  ghost predicate Sound(row: Row, ov: Override, log: seq<Op>, a: string, plain: Row) {
    && (ov.read.Some? ==> ov.read.value == plain.read)
    && (ov.star.Some? ==> ov.star.value == plain.star)
    && (ov.read == Some(false) ==> LastRead(log, a) == Some(false))
    && (ov.read.None? && LastRead(log, a).Some? ==> LastRead(log, a) == Some(row.read))
    && (ov.star.None? ==> row.star == plain.star)
  }

  /** Of an article that Lance does not have, the overlay has only what the log has. */
  ghost predicate Unborn(ov: Override, log: seq<Op>, a: string) {
    && (ov.read.Some? ==> LastRead(log, a) == ov.read)
    && (ov.star.Some? ==> LastStar(log, a) == ov.star)
  }

  ghost predicate Consistent(s: Server, truth: map<string, Row>) {
    && Right(s, truth)
    && (forall a | a in s.lance.articles ::
          Sound(s.lance.articles[a], OverrideOf(s.overlay, a), Ops(s.rows), a, truth[a]))
    && (forall a | a !in s.lance.articles :: Unborn(OverrideOf(s.overlay, a), Ops(s.rows), a))
  }

  // ── The exact conditions, event by event ─────────────────────────────────

  /** No article of the feed has `unread` as its last explicit pending state. */
  ghost predicate NoUnreadPending(s: Server, feed: string) {
    forall a | a in s.lance.articles && s.lance.articles[a].feed == feed :: LastRead(Ops(s.rows), a) != Some(false)
  }

  /** Every article of the feed is shown as read already. */
  ghost predicate AllShownRead(s: Server, feed: string) {
    forall a | a in s.lance.articles && s.lance.articles[a].feed == feed :: View(s.lance, s.overlay)[a].read
  }

  /** For every article that is unread in Lance, not overlaid, and of a feed marked in the log: the
      mark is among those applied, or else, when the log ends its read state with `unread`, the
      mark is not applied or the `unread` is too. */
  ghost predicate StopsHarmlessly(s: Server, at: Progress)
    requires at.marks <= |MarksOf(Ops(s.rows))|
  {
    forall a | a in s.lance.articles :: StopHarmless(s.lance.articles[a], OverrideOf(s.overlay, a), Ops(s.rows), at, a)
  }

  ghost predicate StopHarmless(row: Row, ov: Override, log: seq<Op>, at: Progress, a: string)
    requires at.marks <= |MarksOf(log)|
  {
    !row.read && ov.read.None? && MarkAllRead(row.feed) in log ==>
      if LastRead(log, a).None? then row.feed in MarksOf(log)[..at.marks]
      else row.feed !in MarksOf(log)[..at.marks] || a in at.articles
  }

  /** The pending rows repeat what Lance has. */
  ghost predicate PendingChangesNothing(s: Server) {
    forall a | a in s.lance.articles :: ChangesNothing(s.lance.articles[a], Ops(s.rows), a)
  }

  ghost predicate ChangesNothing(row: Row, log: seq<Op>, a: string) {
    && LastRead(log, a).GetOr(row.read || MarkAllRead(row.feed) in log) == row.read
    && LastStar(log, a).GetOr(row.star) == row.star
  }

  /** The article copies read by a snapshot are still what the next complete flush leaves. */
  ghost predicate PageFresh(s: Server) {
    forall a | a in s.page :: a in s.lance.articles && s.page[a] == Replayed(s.lance, Ops(s.rows)).articles[a]
  }

  /** A mark comes when no `unread` of its feed is pending, and when its query fails online
      everything of the feed is shown as read; what is pending changes nothing for an article that
      the fetcher adds; no article copy of a snapshot has been overtaken when it is written; a
      flush that stops stops harmlessly; and the process is restarted only when what is pending
      changes nothing. */
  ghost predicate Orderly(s: Server, e: Event)
    requires Enabled(s, e)
  {
    match e
    case Write(op, queryOk) =>
      op.MarkAllRead? ==> NoUnreadPending(s, op.feed) && (queryOk || s.offline || AllShownRead(s, op.feed))
    case FetcherAdds(a, feed) => ChangesNothing(NewRow(feed), Ops(s.rows), a)
    case ArticlesWrite => PageFresh(s)
    case Flush(end) => s.offline || s.rows == [] || end.Completes? || StopsHarmlessly(s, end.at)
    case Reconnect(end) => !s.offline || s.rows == [] || end.Completes? || StopsHarmlessly(s, end.at)
    case Restart => PendingChangesNothing(s)
    case _ => true
  }

  ghost predicate OrderlyRun(s: Server, events: seq<Event>)
    requires CanRun(s, events)
    decreases |events|
  {
    events == [] || (Orderly(s, events[0]) && OrderlyRun(Step(s, events[0]), events[1..]))
  }

  /** Everything is right after every event of the run. */
  ghost predicate AlwaysRight(s: Server, truth: map<string, Row>, events: seq<Event>)
    requires CanRun(s, events)
    decreases |events|
  {
    Right(s, truth) && (events == [] || AlwaysRight(Step(s, events[0]), PlainStep(truth, events[0]), events[1..]))
  }

  // ── Writes ───────────────────────────────────────────────────────────────

  lemma LoggedFacts(rows: seq<Pending>, row: Pending, a: string)
    ensures LastRead(Ops(Logged(rows, row)), a) ==
            if row.op.SetRead? && row.op.article == a then Some(row.op.read) else LastRead(Ops(rows), a)
    ensures LastStar(Ops(Logged(rows, row)), a) ==
            if row.op.SetStar? && row.op.article == a then Some(row.op.star) else LastStar(Ops(rows), a)
    ensures MarkAllRead(a) in Ops(Logged(rows, row)) <==> MarkAllRead(a) in Ops(rows) || row.op == MarkAllRead(a)
  {
    hide *;
    LoggedMeans(rows, row, a);
    SnocMeans(Ops(rows), row.op, a);
  }

  /** One more write, seen at one replayed article. */
  lemma ReplayedStep(t: Tables, rows: seq<Pending>, row: Pending, a: string)
    requires a in t.articles
    ensures Replayed(t, Ops(Logged(rows, row))).articles[a] ==
            var r := Replayed(t, Ops(rows)).articles[a];
            match row.op
            case SetRead(b, v) => if b == a then r.(read := v) else r
            case SetStar(b, v) => if b == a then r.(star := v) else r
            case MarkAllRead(f) => if f == r.feed && LastRead(Ops(rows), a).None? then r.(read := true) else r
            case PutSetting(_, _) => r
  {
    hide Logged, LastRead, LastStar;
    LoggedFacts(rows, row, a);
    LoggedFacts(rows, row, t.articles[a].feed);
  }

  /** A mark of the article's feed while its last explicit pending state is `unread`. */
  ghost predicate Undone(s: Server, op: Op, a: string)
    requires a in s.lance.articles
  {
    op == MarkAllRead(s.lance.articles[a].feed) && LastRead(Ops(s.rows), a) == Some(false)
  }

  /** A mark of the article's feed whose query fails although the article is not shown as read. */
  ghost predicate Unseen(s: Server, op: Op, queryOk: bool, a: string)
    requires a in s.lance.articles
  {
    op == MarkAllRead(s.lance.articles[a].feed) && !queryOk && !View(s.lance, s.overlay)[a].read
  }

  /** One write, seen at one article of the plain state, the replay and the overlay. */
  lemma WriteParts(s: Server, truth: map<string, Row>, op: Op, queryOk: bool, a: string)
    requires Consistent(s, truth) && a in s.lance.articles
    ensures a in truth && a in PlainStep(truth, Write(op, queryOk)) && truth[a].feed == s.lance.articles[a].feed
    ensures var n, plain := Step(s, Write(op, queryOk)), PlainStep(truth, Write(op, queryOk))[a];
      && Replayed(n.lance, Ops(n.rows)).articles[a] == (if Undone(s, op, a) then truth[a] else plain)
      && (Undone(s, op, a) ==> !truth[a].read && plain.read)
  {
    hide Logged, LastRead, LastStar, Apply, OverlayStep, Sound, View;
    assert truth[a] == Replayed(s.lance, Ops(s.rows)).articles[a];
    ReplayedStep(s.lance, s.rows, Pending(s.nextId, op), a);
    PendingLog.PlainStep(Tables(truth, map[]), op, a);
  }

  /** One write, seen at one article: the replay follows unless the write is undone, what is shown
      follows unless it is not seen, and the overlay stays sound. */
  lemma WriteAt(s: Server, truth: map<string, Row>, op: Op, queryOk: bool, a: string)
    requires Consistent(s, truth) && a in s.lance.articles
    ensures a in PlainStep(truth, Write(op, queryOk))
    ensures var n, plain := Step(s, Write(op, queryOk)), PlainStep(truth, Write(op, queryOk))[a];
      && (Replayed(n.lance, Ops(n.rows)).articles[a] == plain <==> !Undone(s, op, a))
      && (!Undone(s, op, a) ==> Sound(n.lance.articles[a], OverrideOf(n.overlay, a), Ops(n.rows), a, plain))
      && (!s.offline && !Undone(s, op, a) ==> (View(n.lance, n.overlay)[a] == plain <==> !Unseen(s, op, queryOk, a)))
  {
    hide Sound, View, Replayed, Logged, LastRead, OverlayStep, Apply;
    WriteParts(s, truth, op, queryOk, a);
    if !Undone(s, op, a) {
      WriteSound(s, truth, op, queryOk, a);
      WriteShown(s, truth, op, queryOk, a);
    }
  }

  lemma WriteSound(s: Server, truth: map<string, Row>, op: Op, queryOk: bool, a: string)
    requires Consistent(s, truth) && a in s.lance.articles && !Undone(s, op, a)
    ensures a in PlainStep(truth, Write(op, queryOk))
    ensures var n := Step(s, Write(op, queryOk));
      Sound(n.lance.articles[a], OverrideOf(n.overlay, a), Ops(n.rows), a, PlainStep(truth, Write(op, queryOk))[a])
  {
    hide Logged, LastRead, LastStar, Apply, OverlayStep, Replayed, View;
    WriteParts(s, truth, op, queryOk, a);
    LoggedFacts(s.rows, Pending(s.nextId, op), a);
    OverlayStepAt(s.lance, s.overlay, op, a);
    PendingLog.PlainStep(Tables(truth, map[]), op, a);
  }

  lemma WriteShown(s: Server, truth: map<string, Row>, op: Op, queryOk: bool, a: string)
    requires Consistent(s, truth) && a in s.lance.articles && !Undone(s, op, a)
    ensures a in PlainStep(truth, Write(op, queryOk))
    ensures var n := Step(s, Write(op, queryOk));
      !s.offline ==> (View(n.lance, n.overlay)[a] == PlainStep(truth, Write(op, queryOk))[a] <==> !Unseen(s, op, queryOk, a))
  {
    hide Logged, LastRead, LastStar, Apply, OverlayStep, Replayed;
    WriteParts(s, truth, op, queryOk, a);
    OverlayStepAt(s.lance, s.overlay, op, a);
    PendingLog.PlainStep(Tables(truth, map[]), op, a);
  }

  /** A write keeps the cached copies on the plain state. */
  lemma WriteCaches(s: Server, truth: map<string, Row>, e: Event)
    requires e.Write? && forall a | a in s.cached :: a in truth && s.cached[a] == truth[a]
    ensures forall a | a in Step(s, e).cached :: a in PlainStep(truth, e) && Step(s, e).cached[a] == PlainStep(truth, e)[a]
    ensures PlainStep(truth, e).Keys == truth.Keys
  {
    forall a | a in s.cached
      ensures a in PlainStep(truth, e) && Step(s, e).cached[a] == PlainStep(truth, e)[a]
    {
      PendingLog.PlainStep(Tables(truth, map[]), e.op, a);
      PendingLog.PlainStep(Tables(s.cached, map[]), e.op, a);
    }
    assert Step(s, e).cached.Keys == s.cached.Keys;
  }

  /** After a write everything is right exactly when the write was orderly. */
  lemma WriteExact(s: Server, truth: map<string, Row>, e: Event)
    requires e.Write? && Consistent(s, truth)
    ensures Right(Step(s, e), PlainStep(truth, e)) <==> Orderly(s, e)
    ensures Orderly(s, e) ==> Consistent(Step(s, e), PlainStep(truth, e))
  {
    hide Replayed, View, Sound, Unborn, Undone, Unseen, PlainStep;
    WriteCaches(s, truth, e);
    WriteUnborn(s, e);
    WriteReplays(s, truth, e);
    if NoneUndone(s, e.op) {
      WriteShows(s, truth, e);
    }
    OrderlyWrite(s, e);
  }

  ghost predicate NoneUndone(s: Server, op: Op) {
    forall a | a in s.lance.articles :: !Undone(s, op, a)
  }

  ghost predicate AllSeen(s: Server, op: Op, queryOk: bool) {
    forall a | a in s.lance.articles :: !Unseen(s, op, queryOk, a)
  }

  lemma OrderlyWrite(s: Server, e: Event)
    requires e.Write?
    ensures Orderly(s, e) <==> NoneUndone(s, e.op) && (s.offline || AllSeen(s, e.op, e.queryOk))
  {
    hide Logged, LastRead, View;
  }

  lemma WriteReplays(s: Server, truth: map<string, Row>, e: Event)
    requires e.Write? && Consistent(s, truth)
    ensures var n := Step(s, e);
      Replayed(n.lance, Ops(n.rows)).articles == PlainStep(truth, e) <==> NoneUndone(s, e.op)
  {
    hide Sound, Unborn, View, Undone, Apply, Logged, Consistent;
    TruthKeys(s, truth, e);
    var n, plain := Step(s, e), PlainStep(truth, e);
    forall a | a in s.lance.articles
      ensures Replayed(n.lance, Ops(n.rows)).articles[a] == plain[a] <==> !Undone(s, e.op, a)
    {
      WriteAt(s, truth, e.op, e.queryOk, a);
    }
    SameMap(Replayed(n.lance, Ops(n.rows)).articles, plain);
  }

  lemma WriteShows(s: Server, truth: map<string, Row>, e: Event)
    requires e.Write? && Consistent(s, truth) && NoneUndone(s, e.op)
    ensures PlainStep(truth, e).Keys == s.lance.articles.Keys
    ensures var n, plain := Step(s, e), PlainStep(truth, e);
      && (!s.offline ==> (View(n.lance, n.overlay) == plain <==> AllSeen(s, e.op, e.queryOk)))
      && (forall a | a in s.lance.articles ::
            Sound(n.lance.articles[a], OverrideOf(n.overlay, a), Ops(n.rows), a, plain[a]))
  {
    hide Sound, Unborn, Replayed, Undone, Unseen, Apply, Logged, OverlayStep, Consistent;
    TruthKeys(s, truth, e);
    var n, plain := Step(s, e), PlainStep(truth, e);
    forall a | a in s.lance.articles
      ensures Sound(n.lance.articles[a], OverrideOf(n.overlay, a), Ops(n.rows), a, plain[a])
      ensures !s.offline ==> (View(n.lance, n.overlay)[a] == plain[a] <==> !Unseen(s, e.op, e.queryOk, a))
    {
      WriteAt(s, truth, e.op, e.queryOk, a);
    }
    SameMap(View(n.lance, n.overlay), plain);
  }

  lemma TruthKeys(s: Server, truth: map<string, Row>, e: Event)
    requires e.Write? && Consistent(s, truth)
    ensures truth.Keys == PlainStep(truth, e).Keys == s.lance.articles.Keys
  {
    WriteCaches(s, truth, e);
  }

  lemma WriteUnborn(s: Server, e: Event)
    requires e.Write? && forall a | a !in s.lance.articles :: Unborn(OverrideOf(s.overlay, a), Ops(s.rows), a)
    ensures forall a | a !in s.lance.articles :: Unborn(OverrideOf(Step(s, e).overlay, a), Ops(Step(s, e).rows), a)
  {
    hide Logged, LastRead, LastStar, Apply;
    forall a | a !in s.lance.articles ensures Unborn(OverrideOf(Step(s, e).overlay, a), Ops(Step(s, e).rows), a) {
      assert Unborn(OverrideOf(s.overlay, a), Ops(s.rows), a);
      LoggedFacts(s.rows, Pending(s.nextId, e.op), a);
    }
  }

  lemma SameMap(m: map<string, Row>, n: map<string, Row>)
    requires m.Keys == n.Keys
    ensures m == n <==> forall a | a in n :: m[a] == n[a]
  {
    if forall a | a in n :: m[a] == n[a] {
      assert forall a | a in m :: m[a] == n[a];
    }
  }

  // ── Flushes ──────────────────────────────────────────────────────────────

  lemma EmptyReplay(t: Tables)
    ensures Replayed(t, []) == t && View(t, map[]) == t.articles
  {
    assert Replayed(t, []).articles == t.articles && Replayed(t, []).settings == t.settings;
  }

  /** A complete flush leaves the plain state in Lance and nothing pending or overlaid. */
  lemma CompletedConsistent(s: Server, truth: map<string, Row>, evicts: bool)
    requires Consistent(s, truth) && s.rows != []
    ensures Consistent(Flushed(s, Completes(evicts)).(offline := false), truth)
    ensures Consistent(Flushed(s, Completes(evicts)), truth)
  {
    var next := Flushed(s, Completes(evicts));
    assert forall a | a in next.cached :: a in s.cached && next.cached[a] == s.cached[a];
    ClearedConsistent(next, truth);
    ClearedConsistent(next.(offline := false), truth);
  }

  lemma ClearedConsistent(s: Server, truth: map<string, Row>)
    requires s.rows == [] && s.overlay == map[] && s.lance.articles == truth
    requires forall a | a in s.cached :: a in truth && s.cached[a] == truth[a]
    ensures Consistent(s, truth)
  {
    assert Ops(s.rows) == [];
    EmptyReplay(s.lance);
  }

  /** A flush stopped somewhere, seen at one article: it is shown as the plain state exactly when
      the stop is harmless for it, and then the overlay stays sound. */
  lemma StopAt(t: Tables, ov: Override, log: seq<Op>, at: Progress, a: string)
    requires at.marks <= |MarksOf(log)| && a in t.articles
    requires Sound(t.articles[a], ov, log, a, Replayed(t, log).articles[a])
    ensures var row, plain := ReplayedTo(t, log, at).articles[a], Replayed(t, log).articles[a];
      && (Merged(row, ov) == plain <==> StopHarmless(t.articles[a], ov, log, at, a))
      && (StopHarmless(t.articles[a], ov, log, at, a) ==> Sound(row, ov, log, a, plain))
  {
    hide LastRead, LastStar, MarksOf;
    MarksOfLog(log, t.articles[a].feed);
  }

  /** A flush stopped somewhere with the server online afterwards: everything is right exactly
      when the stop is harmless. */
  lemma StoppedExact(s: Server, truth: map<string, Row>, at: Progress)
    requires at.marks <= |MarksOf(Ops(s.rows))| && Consistent(s, truth)
    ensures var n := s.(lance := ReplayedTo(s.lance, Ops(s.rows), at), offline := false);
      && (Right(n, truth) <==> StopsHarmlessly(s, at))
      && (View(n.lance, n.overlay) == truth <==> StopsHarmlessly(s, at))
      && (StopsHarmlessly(s, at) ==> Consistent(n, truth))
  {
    hide LastRead, LastStar, MarksOf, StopHarmless, Sound, Merged;
    var log := Ops(s.rows);
    var n := s.(lance := ReplayedTo(s.lance, log, at), offline := false);
    ReplayAbsorbs(s.lance, log, at, []);
    assert log + [] == log;
    forall a | a in s.lance.articles
      ensures View(n.lance, n.overlay)[a] == truth[a] <==>
              StopHarmless(s.lance.articles[a], OverrideOf(s.overlay, a), log, at, a)
      ensures StopHarmless(s.lance.articles[a], OverrideOf(s.overlay, a), log, at, a) ==>
              Sound(n.lance.articles[a], OverrideOf(n.overlay, a), log, a, truth[a])
    {
      StopAt(s.lance, OverrideOf(s.overlay, a), log, at, a);
    }
    SameMap(View(n.lance, n.overlay), truth);
  }

  /** With nothing pending, the overlay and Lance show the plain state. */
  lemma NothingPending(s: Server, truth: map<string, Row>)
    requires Consistent(s, truth) && s.rows == []
    ensures s.lance.articles == truth && View(s.lance, s.overlay) == truth
  {
    assert Ops(s.rows) == [];
    EmptyReplay(s.lance);
    assert View(s.lance, s.overlay) == truth;
  }

  // ── The exact conditions for what is shown ───────────────────────────────

  /** A mark whose query fails online is shown exactly when every article of its feed was read. */
  lemma FailedMarkQueryShows(s: Server, truth: map<string, Row>, feed: string)
    requires Consistent(s, truth) && !s.offline
    ensures var e := Write(MarkAllRead(feed), false);
      Shown(Step(s, e)) == PlainStep(truth, e) <==> forall a | a in truth && truth[a].feed == feed :: truth[a].read
  {
    var e := Write(MarkAllRead(feed), false);
    WriteCaches(s, truth, e);
    forall a | a in truth
      ensures PlainStep(truth, e)[a] == if truth[a].feed == feed then truth[a].(read := true) else truth[a]
    {
      PendingLog.PlainStep(Tables(truth, map[]), e.op, a);
    }
    SameMap(truth, PlainStep(truth, e));
  }

  /** After a reconnect whose flush stopped, online reads show the plain state exactly when the
      stop is harmless. */
  lemma FailedReconnectShows(s: Server, truth: map<string, Row>, at: Progress)
    requires Consistent(s, truth) && s.offline && s.rows != [] && at.marks <= |MarksOf(Ops(s.rows))|
    ensures Shown(Step(s, Reconnect(StopsAt(at)))) == truth <==> StopsHarmlessly(s, at)
  {
    StoppedExact(s, truth, at);
  }

  /** After a restart, reads show the plain state exactly when what is pending changes nothing. */
  lemma RestartShows(s: Server, truth: map<string, Row>)
    requires Consistent(s, truth)
    ensures Shown(Step(s, Restart)) == truth <==> PendingChangesNothing(s)
    ensures PendingChangesNothing(s) <==> Replayed(s.lance, Ops(s.rows)).articles == s.lance.articles
    ensures PendingChangesNothing(s) ==> Consistent(Step(s, Restart), truth)
  {
    hide LastRead, LastStar;
    EmptyReplay(s.lance);
    SameMap(Replayed(s.lance, Ops(s.rows)).articles, s.lance.articles);
  }

  // ── Articles the fetcher adds, and snapshots ─────────────────────────────

  /** After the fetcher has added an article everything is right exactly when what is pending, a
      mark of its feed in particular, changes nothing for it. */
  lemma AddExact(s: Server, truth: map<string, Row>, a: string, feed: string)
    requires Consistent(s, truth) && a !in s.lance.articles
    ensures var e := FetcherAdds(a, feed);
      && (Right(Step(s, e), PlainStep(truth, e)) <==> ChangesNothing(NewRow(feed), Ops(s.rows), a))
      && (ChangesNothing(NewRow(feed), Ops(s.rows), a) ==> Consistent(Step(s, e), PlainStep(truth, e)))
  {
    hide LastRead, LastStar, Sound, Unborn, ChangesNothing, Merged, View, Replayed;
    var e := FetcherAdds(a, feed);
    var n, plain := Step(s, e), PlainStep(truth, e);
    AddedRow(s, a, feed);
    AddedReplay(s, truth, a, feed);
    assert forall x | x in s.cached :: x in plain && s.cached[x] == plain[x];
    if ChangesNothing(NewRow(feed), Ops(s.rows), a) && !s.offline {
      AddedView(s, a, feed);
    }
  }

  lemma AddedReplay(s: Server, truth: map<string, Row>, a: string, feed: string)
    requires a !in s.lance.articles && Replayed(s.lance, Ops(s.rows)).articles == truth
    ensures truth.Keys == s.lance.articles.Keys
    ensures var n := Step(s, FetcherAdds(a, feed));
      Replayed(n.lance, Ops(n.rows)).articles == truth[a := NewRow(feed)] <==>
      ChangesNothing(NewRow(feed), Ops(s.rows), a)
  {
    hide LastRead, LastStar;
    var n := Step(s, FetcherAdds(a, feed));
    var next := Replayed(n.lance, Ops(n.rows)).articles;
    assert n.lance.articles.Keys == s.lance.articles.Keys + {a};
    assert next[a] == NewRow(feed) <==> ChangesNothing(NewRow(feed), Ops(s.rows), a);
    OneMore(next, truth, a, NewRow(feed));
  }

  lemma OneMore(m: map<string, Row>, n: map<string, Row>, a: string, row: Row)
    requires m.Keys == n.Keys + {a} && a !in n && forall b | b in n :: m[b] == n[b]
    ensures m == n[a := row] <==> m[a] == row
  {
    SameMap(m, n[a := row]);
  }

  lemma AddedView(s: Server, a: string, feed: string)
    requires a !in s.lance.articles && Merged(NewRow(feed), OverrideOf(s.overlay, a)) == NewRow(feed)
    ensures View(Step(s, FetcherAdds(a, feed)).lance, s.overlay) == View(s.lance, s.overlay)[a := NewRow(feed)]
  {
  }

  lemma AddedRow(s: Server, a: string, feed: string)
    requires a !in s.lance.articles && Unborn(OverrideOf(s.overlay, a), Ops(s.rows), a)
    ensures var n := Step(s, FetcherAdds(a, feed));
      && (Replayed(n.lance, Ops(s.rows)).articles[a] == NewRow(feed) <==> ChangesNothing(NewRow(feed), Ops(s.rows), a))
      && (ChangesNothing(NewRow(feed), Ops(s.rows), a) ==>
            && Merged(NewRow(feed), OverrideOf(s.overlay, a)) == NewRow(feed)
            && Sound(NewRow(feed), OverrideOf(s.overlay, a), Ops(s.rows), a, NewRow(feed)))
  {
    hide LastRead, LastStar;
  }

  /** After a snapshot has written its articles everything is right exactly when none of them has
      been overtaken since it was read. */
  lemma PageExact(s: Server, truth: map<string, Row>)
    requires Consistent(s, truth)
    ensures Right(Step(s, ArticlesWrite), truth) <==> PageFresh(s)
    ensures PageFresh(s) ==> Consistent(Step(s, ArticlesWrite), truth)
  {
    var n := Step(s, ArticlesWrite);
    assert forall a | a in s.page :: a in n.cached && n.cached[a] == s.page[a];
  }

  /** The event leaves the articles that a snapshot has read alone. */
  predicate KeepsPage(e: Event) {
    !e.ArticlesRead? && !e.ArticlesWrite? && !e.Restart?
  }

  lemma {:induction false} PageKept(s: Server, events: seq<Event>)
    requires CanRun(s, events) && forall e | e in events :: KeepsPage(e)
    ensures Run(s, events).page == s.page
    decreases |events|
  {
    if events != [] {
      assert events[0] in events;
      PageKept(Step(s, events[0]), events[1..]);
    }
  }

  /** One snapshot of articles with any orderly events between its read and its write: the copy of
      an article goes stale exactly when the events in between have changed its plain state. */
  lemma StaleCopies(s: Server, truth: map<string, Row>, window: set<string>, between: seq<Event>, a: string)
    requires Consistent(s, truth) && s.page == map[] && a in window && a in Shown(s)
    requires var read := Step(s, ArticlesRead(window)); CanRun(read, between) && OrderlyRun(read, between)
    requires forall e | e in between :: KeepsPage(e)
    ensures var read := Step(s, ArticlesRead(window));
      var now, after := Plain(truth, between), Step(Run(read, between), ArticlesWrite);
      && a in after.cached && a in now && after.page == map[]
      && (after.cached[a] == now[a] <==> now[a] == truth[a])
  {
    hide Replayed, Sound, Unborn, View;
    var read := Step(s, ArticlesRead(window));
    assert Consistent(read, truth);
    RightExactlyWhenOrderly(read, truth, between);
    PageKept(read, between);
    PlainKeeps(truth, between, a);
    assert read.page[a] == Shown(s)[a] == truth[a];
  }

  lemma {:induction false} PlainKeeps(articles: map<string, Row>, events: seq<Event>, a: string)
    requires a in articles
    ensures a in Plain(articles, events)
    decreases |events|
  {
    if events != [] {
      if events[0].Write? {
        PendingLog.PlainStep(Tables(articles, map[]), events[0].op, a);
      }
      PlainKeeps(PlainStep(articles, events[0]), events[1..], a);
    }
  }

  // ── Runs ─────────────────────────────────────────────────────────────────

  lemma StepExact(s: Server, truth: map<string, Row>, e: Event)
    requires Enabled(s, e) && Consistent(s, truth)
    ensures Right(Step(s, e), PlainStep(truth, e)) <==> Orderly(s, e)
    ensures Orderly(s, e) ==> Consistent(Step(s, e), PlainStep(truth, e))
  {
    hide Sound, Unborn, StopsHarmlessly, PendingChangesNothing, ChangesNothing, PageFresh, LastRead, LastStar;
    match e
    case Write(_, _) => WriteExact(s, truth, e);
    case FetcherAdds(a, feed) => AddExact(s, truth, a, feed);
    case ArticlesRead(_) =>
    case ArticlesWrite => PageExact(s, truth);
    case SettingsRead =>
    case SettingsWrite =>
    case Flush(end) =>
      if !s.offline && s.rows != [] {
        FlushExact(s, truth, end);
      }
    case GoOffline =>
    case Reconnect(end) =>
      if s.offline && s.rows == [] {
        NothingPending(s, truth);
      } else if s.offline {
        FlushExact(s, truth, end);
      }
    case Restart => RestartShows(s, truth);
  }

  lemma FlushExact(s: Server, truth: map<string, Row>, end: FlushEnd)
    requires Feasible(s, end) && s.rows != [] && Consistent(s, truth)
    ensures var n := Flushed(s, end).(offline := false);
      && (Right(n, truth) <==> end.Completes? || StopsHarmlessly(s, end.at))
      && (end.Completes? || StopsHarmlessly(s, end.at) ==> Consistent(n, truth))
  {
    match end
    case Completes(evicts) => CompletedConsistent(s, truth, evicts);
    case StopsAt(at) => StoppedExact(s, truth, at);
  }

  /** Over every run: everything is right after each event if and only if each event is orderly. */
  lemma {:induction false} RightExactlyWhenOrderly(s: Server, truth: map<string, Row>, events: seq<Event>)
    requires CanRun(s, events) && Consistent(s, truth)
    ensures AlwaysRight(s, truth, events) <==> OrderlyRun(s, events)
    ensures OrderlyRun(s, events) ==> Consistent(Run(s, events), Plain(truth, events))
    decreases |events|
  {
    hide Consistent, Right, Orderly, Step, PlainStep;
    RightWhenConsistent(s, truth);
    if events != [] {
      StepExact(s, truth, events[0]);
      var n, now := Step(s, events[0]), PlainStep(truth, events[0]);
      if Orderly(s, events[0]) {
        RightExactlyWhenOrderly(n, now, events[1..]);
      } else {
        NotAlwaysRight(n, now, events[1..]);
      }
    }
  }

  lemma RightWhenConsistent(s: Server, truth: map<string, Row>)
    requires Consistent(s, truth)
    ensures Right(s, truth)
  {
  }

  lemma NotAlwaysRight(s: Server, truth: map<string, Row>, events: seq<Event>)
    requires CanRun(s, events) && !Right(s, truth)
    ensures !AlwaysRight(s, truth, events)
  {
  }

  /** A server that has just started on a flushed cache file. */
  ghost predicate Fresh(s: Server) {
    s.overlay == map[] && s.rows == [] && s.cached == map[] && s.page == map[] && !s.offline
  }

  /** Over every run of a fresh server, the orderly runs are exactly those in which, after every
      event, the cached copies are the plain state, the article queries online show it, and the
      next complete flush leaves it in Lance. */
  lemma RunsFollowWrites(s: Server, events: seq<Event>)
    requires Fresh(s) && CanRun(s, events)
    ensures AlwaysRight(s, s.lance.articles, events) <==> OrderlyRun(s, events)
  {
    ClearedConsistent(s, s.lance.articles);
    RightExactlyWhenOrderly(s, s.lance.articles, events);
  }

  /** What that means at the end of an orderly run: each cached copy and each shown article is the
      plain state, and the next complete flush leaves exactly the plain state in Lance. */
  lemma OrderlyRunsShowWrites(s: Server, events: seq<Event>, evicts: bool)
    requires Fresh(s) && CanRun(s, events) && OrderlyRun(s, events)
    ensures var now, truth := Run(s, events), Plain(s.lance.articles, events);
            && (forall a | a in now.cached :: a in truth && now.cached[a] == truth[a])
            && (forall a | a in Shown(now) :: a in truth && Shown(now)[a] == truth[a])
            && (!now.offline ==> Shown(now) == truth)
            && Flushed(now, Completes(evicts)).lance.articles == truth
  {
    ClearedConsistent(s, s.lance.articles);
    RightExactlyWhenOrderly(s, s.lance.articles, events);
    var now := Run(s, events);
    if now.rows == [] {
      NothingPending(now, Plain(s.lance.articles, events));
    }
  }

  // ── Each condition of an orderly run is needed ───────────────────────────

  const ONE_UNREAD := Tables(map["a" := Row("f", false, false)], map[])

  function Started(t: Tables): Server {
    Server(t, map[], [], 1, map[], map[], false, None, map[])
  }

  lemma RunCons(s: Server, e: Event, rest: seq<Event>, articles: map<string, Row>)
    requires Enabled(s, e) && CanRun(Step(s, e), rest)
    ensures CanRun(s, [e] + rest)
    ensures Run(s, [e] + rest) == Run(Step(s, e), rest)
    ensures Plain(articles, [e] + rest) == Plain(PlainStep(articles, e), rest)
  {
    assert ([e] + rest)[1..] == rest;
  }

  lemma RunOfTwo(s: Server, e1: Event, e2: Event, articles: map<string, Row>)
    requires Enabled(s, e1) && Enabled(Step(s, e1), e2)
    ensures CanRun(s, [e1, e2])
    ensures Run(s, [e1, e2]) == Step(Step(s, e1), e2)
    ensures Plain(articles, [e1, e2]) == PlainStep(PlainStep(articles, e1), e2)
  {
    RunCons(Step(s, e1), e2, [], PlainStep(articles, e1));
    RunCons(s, e1, [e2], articles);
    assert [e2] + [] == [e2] && [e1] + [e2] == [e1, e2];
  }

  lemma RunOfThree(s: Server, e1: Event, e2: Event, e3: Event, articles: map<string, Row>)
    requires Enabled(s, e1) && Enabled(Step(s, e1), e2) && Enabled(Step(Step(s, e1), e2), e3)
    ensures CanRun(s, [e1, e2, e3])
    ensures Run(s, [e1, e2, e3]) == Step(Step(Step(s, e1), e2), e3)
    ensures Plain(articles, [e1, e2, e3]) == PlainStep(PlainStep(PlainStep(articles, e1), e2), e3)
  {
    RunOfTwo(Step(s, e1), e2, e3, PlainStep(articles, e1));
    RunCons(s, e1, [e2, e3], articles);
    assert [e1] + [e2, e3] == [e1, e2, e3];
  }

  /** A mark after an unflushed `unread`: the flush undoes the mark. */
  lemma MarkAfterUnreadIsLost()
    ensures var s := Started(ONE_UNREAD);
            var events := [Write(SetRead("a", false), true), Write(MarkAllRead("f"), true), Flush(Completes(false))];
            && CanRun(s, events)
            && Plain(s.lance.articles, events)["a"].read
            && !Run(s, events).lance.articles["a"].read
  {
    var s := Started(ONE_UNREAD);
    var w1, w2 := Write(SetRead("a", false), true), Write(MarkAllRead("f"), true);
    RunOfThree(s, w1, w2, Flush(Completes(false)), s.lance.articles);
    var s2 := Step(Step(s, w1), w2);
    var log := [SetRead("a", false), MarkAllRead("f")];
    assert Ops(s2.rows) == log;
    assert log[..1] == [SetRead("a", false)];
    assert LastRead(log[..1], "a") == Some(false);
    assert LastRead(log, "a") == Some(false);
  }

  /** A mark whose query fails while online: the next snapshot caches the unread state. */
  lemma FailedMarkQueryIsCached()
    ensures var s := Started(ONE_UNREAD);
            var events := [Write(MarkAllRead("f"), false), ArticlesRead({"a"}), ArticlesWrite];
            && CanRun(s, events)
            && Plain(s.lance.articles, events)["a"].read
            && "a" in Run(s, events).cached && !Run(s, events).cached["a"].read
  {
    RunOfThree(Started(ONE_UNREAD), Write(MarkAllRead("f"), false), ArticlesRead({"a"}), ArticlesWrite, ONE_UNREAD.articles);
  }

  /** A reconnect whose flush fails after an offline mark: online reads show the old state. */
  lemma FailedReconnectFlushShows()
    ensures var s := Started(ONE_UNREAD);
            var events := [GoOffline, Write(MarkAllRead("f"), false), Reconnect(StopsAt(Progress(0, {}, {})))];
            && CanRun(s, events)
            && Plain(s.lance.articles, events)["a"].read
            && !Run(s, events).offline
            && "a" in Shown(Run(s, events)) && !Shown(Run(s, events))["a"].read
  {
    RunOfThree(Started(ONE_UNREAD), GoOffline, Write(MarkAllRead("f"), false), Reconnect(StopsAt(Progress(0, {}, {}))),
               ONE_UNREAD.articles);
  }

  /** A restart with an unflushed write: the overlay is gone and reads show the old state. */
  lemma RestartHidesUnflushed()
    ensures var s := Started(ONE_UNREAD);
            var events := [Write(SetRead("a", true), true), Restart];
            && CanRun(s, events)
            && Plain(s.lance.articles, events)["a"].read
            && "a" in Shown(Run(s, events)) && !Shown(Run(s, events))["a"].read
  {
    RunOfTwo(Started(ONE_UNREAD), Write(SetRead("a", true), true), Restart, ONE_UNREAD.articles);
  }

  /** An article that the fetcher adds between a mark of its feed and the flush is marked too. */
  lemma MarkReadsLaterArticle()
    ensures var s := Started(ONE_UNREAD);
            var events := [Write(MarkAllRead("f"), true), FetcherAdds("b", "f"), Flush(Completes(false))];
            && CanRun(s, events)
            && "b" in Plain(s.lance.articles, events) && !Plain(s.lance.articles, events)["b"].read
            && "b" in Run(s, events).lance.articles && Run(s, events).lance.articles["b"].read
  {
    var s := Started(ONE_UNREAD);
    var mark := Write(MarkAllRead("f"), true);
    RunOfThree(s, mark, FetcherAdds("b", "f"), Flush(Completes(false)), s.lance.articles);
    var log := [MarkAllRead("f")];
    assert Ops(Step(s, mark).rows) == log && log[..0] == [];
    assert LastRead(log[..0], "b") == None;
  }

  // ── Offline reads after a flush ──────────────────────────────────────────

  /** At the end of an orderly run, after a complete flush of something and the loss of Lance: the
      articles shown are exactly the cached ones that the writes leave unread, as the writes leave
      them; when the eviction fails, all cached ones. */
  lemma OfflineShowsUnread(s: Server, events: seq<Event>, evicts: bool)
    requires Fresh(s) && CanRun(s, events) && OrderlyRun(s, events)
    requires Run(s, events).rows != [] && !Run(s, events).offline
    ensures var now, truth := Run(s, events), Plain(s.lance.articles, events);
            var shown := Shown(Step(Step(now, Flush(Completes(evicts))), GoOffline));
      && (forall a :: a in shown <==> a in now.cached && (!evicts || (a in truth && !truth[a].read)))
      && (forall a | a in shown :: a in truth && shown[a] == truth[a])
  {
    hide Consistent, AlwaysRight, OrderlyRun, Run, Plain;
    ClearedConsistent(s, s.lance.articles);
    RightExactlyWhenOrderly(s, s.lance.articles, events);
    OfflineAfterFlush(Run(s, events), Plain(s.lance.articles, events), evicts);
  }

  lemma OfflineAfterFlush(s: Server, truth: map<string, Row>, evicts: bool)
    requires Consistent(s, truth) && s.rows != [] && !s.offline
    ensures var shown := Shown(Step(Step(s, Flush(Completes(evicts))), GoOffline));
      && (forall a :: a in shown <==> a in s.cached && (!evicts || (a in truth && !truth[a].read)))
      && (forall a | a in shown :: a in truth && shown[a] == truth[a])
  {
    hide Sound, Unborn, View, Replayed;
  }

  // ── Settings ─────────────────────────────────────────────────────────────

  /** Nothing but Lance's value of the key is remembered, read by a snapshot, or pending. */
  ghost predicate OnlyLances(s: Server, key: string) {
    && (key in s.settings ==> key in s.lance.settings && s.settings[key] == s.lance.settings[key])
    && (s.taken.Some? && key in s.taken.value ==>
          key in s.lance.settings && s.taken.value[key] == s.lance.settings[key])
    && LastPut(Ops(s.rows), key) == None
  }

  lemma StepOnlyLances(s: Server, e: Event, key: string)
    requires Enabled(s, e) && OnlyLances(s, key) && !(e.Write? && e.op.PutSetting? && e.op.key == key)
    ensures OnlyLances(Step(s, e), key)
    ensures key in Step(s, e).lance.settings <==> key in s.lance.settings
    ensures key in s.lance.settings ==> Step(s, e).lance.settings[key] == s.lance.settings[key]
  {
    hide LastPut, Logged, Apply, OverlayStep, Flushed, Ops;
    match e
    case Write(op, _) =>
      LoggedMeans(s.rows, Pending(s.nextId, op), key);
      SnocMeans(Ops(s.rows), op, key);
    case Flush(end) => FlushedOnlyLances(s, end, key);
    case Reconnect(end) => FlushedOnlyLances(s, end, key);
    case _ =>
  }

  lemma FlushedOnlyLances(s: Server, end: FlushEnd, key: string)
    requires Feasible(s, end) && OnlyLances(s, key)
    ensures OnlyLances(Flushed(s, end), key)
    ensures Flushed(s, end).lance.settings.Keys == s.lance.settings.Keys
    ensures key in s.lance.settings ==> Flushed(s, end).lance.settings[key] == s.lance.settings[key]
  {
    hide LastRead, LastStar, MarksOf;
    assert Ops([]) == [];
  }

  /** Over every run, restarts, snapshots and failures included: a setting that is never put, and
      of which nothing but Lance's value is remembered, reads back online exactly as Lance has it. */
  lemma {:induction false} UnputReadsLance(s: Server, events: seq<Event>, key: string)
    requires CanRun(s, events) && OnlyLances(s, key)
    requires forall e | e in events :: !(e.Write? && e.op.PutSetting? && e.op.key == key)
    ensures var now := Run(s, events);
            var shown := ShownSettings(now, true);
      && OnlyLances(now, key)
      && (key in now.lance.settings <==> key in s.lance.settings)
      && (key in s.lance.settings ==> now.lance.settings[key] == s.lance.settings[key])
      && (!now.offline ==> (key in shown <==> key in s.lance.settings))
      && (key in shown ==> key in s.lance.settings && shown[key] == s.lance.settings[key])
    decreases |events|
  {
    hide OnlyLances, Step;
    if events == [] {
      ShownOfLance(s, key);
    } else {
      StepOnlyLances(s, events[0], key);
      UnputReadsLance(Step(s, events[0]), events[1..], key);
    }
  }

  lemma ShownOfLance(s: Server, key: string)
    requires OnlyLances(s, key)
    ensures var shown := ShownSettings(s, true);
      && (!s.offline ==> (key in shown <==> key in s.lance.settings))
      && (key in shown ==> key in s.lance.settings && shown[key] == s.lance.settings[key])
  {
  }

  /** A restart forgets a value that is put and not flushed: Lance's own is shown until the flush. */
  lemma RestartForgetsPut(s: Server, key: string)
    ensures var shown := ShownSettings(Step(s, Restart), true);
      && (key in shown <==> key in s.lance.settings)
      && (key in shown ==> shown[key] == s.lance.settings[key])
  {
  }

  /** The writes of a run, in order. */
  function Writes(events: seq<Event>): seq<Op> {
    if events == [] then []
    else (if events[0].Write? then [events[0].op] else []) + Writes(events[1..])
  }

  /** No write of the key while a snapshot has read the settings and not yet written them. */
  ghost predicate SnapshotsApart(s: Server, events: seq<Event>, key: string)
    requires CanRun(s, events)
    decreases |events|
  {
    events == [] ||
    (var e := events[0];
     && (e.Write? && e.op.PutSetting? && e.op.key == key ==> s.taken.None?)
     && SnapshotsApart(Step(s, e), events[1..], key))
  }

  ghost predicate Lookup(m: map<string, string>, key: string, v: Option<string>) {
    if v.Some? then key in m && m[key] == v.value else true
  }

  lemma {:induction false} SettingsRemembered(s: Server, events: seq<Event>, key: string, before: Option<string>)
    requires CanRun(s, events) && SnapshotsApart(s, events, key) && Restart !in events
    requires Lookup(s.settings, key, before) && (s.taken.Some? ==> Lookup(s.taken.value, key, before))
    ensures Lookup(Run(s, events).settings, key,
                   if LastPut(Writes(events), key).Some? then LastPut(Writes(events), key) else before)
    decreases |events|
  {
    if events != [] {
      var e, rest := events[0], events[1..];
      var now := if e.Write? && e.op.PutSetting? && e.op.key == key then Some(e.op.value) else before;
      SettingsRemembered(Step(s, e), rest, key, now);
      if e.Write? {
        LastOfConcat([e.op], Writes(rest), key);
        assert [e.op][..0] == [];
        assert LastPut([e.op], key) == if e.op.PutSetting? && e.op.key == key then Some(e.op.value) else None;
      } else {
        assert Writes(events) == Writes(rest);
      }
    }
  }

  /** Within one process, GetSetting and GetSettings return the last value put for the key,
      online or offline, whether or not the query reaches Lance. */
  lemma LastPutIsReturned(s: Server, events: seq<Event>, key: string, reachable: bool)
    requires CanRun(s, events) && SnapshotsApart(s, events, key) && Restart !in events
    requires s.taken.None? && LastPut(Writes(events), key).Some?
    ensures var shown := ShownSettings(Run(s, events), reachable);
            key in shown && shown[key] == LastPut(Writes(events), key).value
  {
    SettingsRemembered(s, events, key, None);
  }

  /** One snapshot of the settings with any writes of other kinds and puts in between: afterwards
      the last put of a key is returned exactly when the snapshot had read that same value. */
  lemma {:induction false} SnapshotOverwrites(s: Server, between: seq<Event>, key: string)
    requires s.taken.None?
    requires forall e | e in between :: e.Write?
    ensures CanRun(Step(s, SettingsRead), between)
    ensures Run(Step(s, SettingsRead), between).taken == Some(ShownSettings(s, true))
    ensures LastPut(Writes(between), key).Some? ==>
            var after := Step(Run(Step(s, SettingsRead), between), SettingsWrite);
            (Lookup(after.settings, key, LastPut(Writes(between), key)) <==>
             Lookup(ShownSettings(s, true), key, LastPut(Writes(between), key)))
  {
    OnlyWrites(Step(s, SettingsRead), between);
  }

  lemma {:induction false} OnlyWrites(s: Server, events: seq<Event>)
    requires forall e | e in events :: e.Write?
    ensures CanRun(s, events) && Run(s, events).taken == s.taken
    decreases |events|
  {
    if events != [] {
      OnlyWrites(Step(s, events[0]), events[1..]);
    }
  }

  /** The pending log never holds two setting rows for one key, and its ids stay increasing. */
  lemma {:induction false} LogKeepsOnePutPerKey(s: Server, events: seq<Event>)
    requires CanRun(s, events)
    requires RowsOrdered(s.rows, s.nextId) && OnePutPerKey(s.rows)
    ensures RowsOrdered(Run(s, events).rows, Run(s, events).nextId) && OnePutPerKey(Run(s, events).rows)
    decreases |events|
  {
    hide RowsOrdered, OnePutPerKey, Step;
    if events != [] {
      StepKeepsOnePut(s, events[0]);
      LogKeepsOnePutPerKey(Step(s, events[0]), events[1..]);
    }
  }

  lemma StepKeepsOnePut(s: Server, e: Event)
    requires Enabled(s, e) && RowsOrdered(s.rows, s.nextId) && OnePutPerKey(s.rows)
    ensures RowsOrdered(Step(s, e).rows, Step(s, e).nextId) && OnePutPerKey(Step(s, e).rows)
  {
    if e.Write? {
      LoggedKeeps(s.rows, Pending(s.nextId, e.op), s.nextId);
    }
  }

  /** After a successful flush Lance has the last put of a key exactly when it had a row for the
      key; a key without a row gets none. */
  lemma FlushedSettingNeedsRow(s: Server, key: string)
    requires s.rows != [] && LastPut(Ops(s.rows), key).Some?
    ensures var stored := Flushed(s, Completes(true)).lance.settings;
            && (key in stored <==> key in s.lance.settings)
            && (key in stored ==> stored[key] == LastPut(Ops(s.rows), key).value)
  {
  }
}
