/** The state of one server as the user's writes, the background flush, the snapshots and the
    offline switch change it, as functions on values; the store's methods are proved against them. */
module ServerState {
  import opened Wrappers
  import opened LanceTables
  import opened PendingLog
  import opened OfflineCaching

  /** `taken` and `page` hold the settings and the articles a running snapshot has read and not yet
      written. */
  datatype Server = Server(
    lance: Tables,
    overlay: map<string, Override>,
    rows: seq<Pending>,
    nextId: nat,
    cached: map<string, Row>,
    settings: map<string, string>,
    offline: bool,
    taken: Option<map<string, string>>,
    page: map<string, Row>)

  /** How a flush ends: everything applied and cleared, or stopped on the way. */
  datatype FlushEnd = Completes(evicts: bool) | StopsAt(at: Progress)

  datatype Event =
    | Write(op: Op, queryOk: bool)
    | FetcherAdds(article: string, feed: string)
    | ArticlesRead(window: set<string>)
    | ArticlesWrite
    | SettingsRead
    | SettingsWrite
    | Flush(end: FlushEnd)
    | GoOffline
    | Reconnect(end: FlushEnd)
    | Restart

  /** What the article queries show. */
  function Shown(s: Server): map<string, Row> {
    if s.offline then s.cached else View(s.lance, s.overlay)
  }

  /** What the settings query shows; while online `reachable` says whether the query succeeds. */
  function ShownSettings(s: Server, reachable: bool): map<string, string> {
    if s.offline || !reachable then s.settings else s.lance.settings + s.settings
  }

  function Window(articles: map<string, Row>, window: set<string>): map<string, Row> {
    map a | a in articles && a in window :: articles[a]
  }

  /** An article as the fetcher stores it. */
  function NewRow(feed: string): Row {
    Row(feed, false, false)
  }

  predicate Feasible(s: Server, end: FlushEnd) {
    end.StopsAt? ==> end.at.marks <= |MarksOf(Ops(s.rows))|
  }

  function Flushed(s: Server, end: FlushEnd): Server
    requires Feasible(s, end)
  {
    if s.rows == [] then s
    else match end
      case Completes(evicts) =>
        s.(lance := Replayed(s.lance, Ops(s.rows)), overlay := map[], rows := [],
           cached := if evicts then Evicted(s.cached) else s.cached)
      case StopsAt(at) => s.(lance := ReplayedTo(s.lance, Ops(s.rows), at))
  }

  predicate Enabled(s: Server, e: Event) {
    match e
    case Flush(end) => Feasible(s, end)
    case Reconnect(end) => Feasible(s, end)
    case FetcherAdds(a, _) => a !in s.lance.articles
    case SettingsRead => s.taken.None?
    case SettingsWrite => s.taken.Some?
    case _ => true
  }

  function Step(s: Server, e: Event): Server
    requires Enabled(s, e)
  {
    match e
    case Write(op, queryOk) =>
      s.(overlay := if op.MarkAllRead? && !queryOk then s.overlay else OverlayStep(s.lance, s.overlay, op),
         rows := Logged(s.rows, Pending(s.nextId, op)),
         nextId := s.nextId + 1,
         cached := Apply(Tables(s.cached, map[]), op).articles,
         settings := if op.PutSetting? then s.settings[op.key := op.value] else s.settings)
    case FetcherAdds(a, feed) => s.(lance := s.lance.(articles := s.lance.articles[a := NewRow(feed)]))
    case ArticlesRead(window) => s.(page := s.page + Window(Shown(s), window))
    case ArticlesWrite => s.(cached := s.cached + s.page, page := map[])
    case SettingsRead => s.(taken := Some(ShownSettings(s, true)))
    case SettingsWrite => s.(settings := s.taken.value, taken := None)
    case Flush(end) => if s.offline then s else Flushed(s, end)
    case GoOffline => s.(offline := true)
    case Reconnect(end) => if s.offline then Flushed(s, end).(offline := false) else s
    case Restart => s.(overlay := map[], settings := map[], offline := false, taken := None, page := map[])
  }
}
