/** Runs of the log pipeline: adds, any number of flushes in flight, failing tiers, drains taken
    apart into their steps, appends that land although they are reported failed, and a log table
    that comes and goes.  Which steps lose an entry, and which entries no run loses. */
module LogRuns {
  import opened Wrappers
  import opened LogBuffering
  import opened LogPipeline

  /** A drain under way: the entries it read, and whether Lance already has them. */
  datatype Drain = Drain(entries: seq<Entry>, inserted: bool)

  /** `accepted` and `dropped` are the history: the entries taken in, and those the cap dropped. */
  datatype State = State(
    buffer: Buffer<Entry>,
    inflight: seq<seq<Entry>>,
    cached: map<string, Entry>,
    lance: seq<Entry>,
    drains: seq<Drain>,
    accepted: seq<Entry>,
    dropped: seq<Entry>)

  /** `stored` says how often an append has reached the table: not at all although it is reported
      done when there is no table, and up to twice through the Python process, whatever is reported. */
  datatype Event =
    | Add(e: Entry)
    | FlushStart
    | FlushEnd(i: nat, tier: Tier, stored: nat)
    | DrainRead(entries: seq<Entry>)
    | DrainInsert(i: nat, works: bool, stored: nat)
    | DrainDelete(i: nat, works: bool)
    | Close

  function Without<T>(s: seq<T>, i: nat): seq<T>
    requires i < |s|
  {
    s[..i] + s[i + 1..]
  }

  function Times<T>(n: nat, s: seq<T>): seq<T> {
    if n == 0 then [] else Times(n - 1, s) + s
  }

  lemma TimesOne<T>(s: seq<T>)
    ensures Times(1, s) == s
  {
    assert Times(0, s) + s == s;
  }

  lemma {:induction false} TimesIn<T>(n: nat, s: seq<T>, x: T)
    ensures x in Times(n, s) <==> n > 0 && x in s
  {
    if n > 0 {
      TimesIn(n - 1, s, x);
    }
  }

  /** A drain reads distinct rows of the table and deletes only after they are reported inserted. */
  predicate Enabled(s: State, e: Event) {
    match e
    case FlushEnd(i, _, _) => i < |s.inflight|
    case DrainRead(entries) =>
      && entries != []
      && (forall x | x in entries :: x.id in s.cached && s.cached[x.id] == x)
      && (forall i, j | 0 <= i < j < |entries| :: entries[i].id != entries[j].id)
    case DrainInsert(i, _, _) => i < |s.drains| && !s.drains[i].inserted
    case DrainDelete(i, _) => i < |s.drains| && s.drains[i].inserted
    case _ => true
  }

  function Step(cap: nat, s: State, e: Event): State
    requires Enabled(s, e)
  {
    match e
    case Add(x) =>
      if s.buffer.stopped then s else s.(buffer := Added(s.buffer, x), accepted := s.accepted + [x])
    case FlushStart =>
      if s.buffer.entries == [] then s.(buffer := Taken(s.buffer))
      else s.(buffer := Taken(s.buffer), inflight := s.inflight + [s.buffer.entries])
    case FlushEnd(i, tier, stored) =>
      var batch := s.inflight[i];
      var t := s.(inflight := Without(s.inflight, i), lance := s.lance + Times(stored, batch));
      (match tier
       case ToLance => t
       case ToCache => t.(cached := CachedWith(s.cached, batch))
       case ToMemory =>
         var all := batch + s.buffer.entries;
         var excess := |all| - |Newest(all, cap)|;
         t.(buffer := Restored(s.buffer, batch, cap), dropped := s.dropped + all[..excess]))
    case DrainRead(entries) => s.(drains := s.drains + [Drain(entries, false)])
    case DrainInsert(i, works, stored) =>
      var d := s.drains[i];
      s.(lance := s.lance + Times(stored, d.entries),
         drains := if works then s.drains[i := d.(inserted := true)] else Without(s.drains, i))
    case DrainDelete(i, works) =>
      var d := s.drains[i];
      s.(cached := if works then WithoutIds(s.cached, IdsOf(d.entries)) else s.cached, drains := Without(s.drains, i))
    case Close => s.(buffer := s.buffer.(stopped := true))
  }

  const STARTED := State(Buffer([], false, false), [], map[], [], [], [], [])

  // ── Runs ─────────────────────────────────────────────────────────────────

  ghost predicate CanRun(cap: nat, s: State, events: seq<Event>)
    decreases |events|
  {
    events == [] || (Enabled(s, events[0]) && CanRun(cap, Step(cap, s, events[0]), events[1..]))
  }

  ghost function Run(cap: nat, s: State, events: seq<Event>): State
    requires CanRun(cap, s, events)
    decreases |events|
  {
    if events == [] then s else Run(cap, Step(cap, s, events[0]), events[1..])
  }

  // ── Where an entry can be ────────────────────────────────────────────────

  ghost predicate IsCached(s: State, e: Entry) {
    e.id in s.cached && s.cached[e.id] == e
  }

  ghost predicate InFlight(s: State, e: Entry) {
    exists i | 0 <= i < |s.inflight| :: e in s.inflight[i]
  }

  ghost predicate Somewhere(s: State, e: Entry) {
    IsCached(s, e) || Uncached(s, e)
  }

  /** In memory or in Lance, or dropped by the cap. */
  ghost predicate Uncached(s: State, e: Entry) {
    e in s.buffer.entries || InFlight(s, e) || e in s.lance || e in s.dropped
  }

  /** The same without the i-th batch in flight. */
  ghost predicate UncachedWithout(s: State, i: nat, e: Entry)
    requires i < |s.inflight|
  {
    Uncached(s.(inflight := Without(s.inflight, i)), e)
  }

  /** Everything anywhere was accepted. */
  ghost predicate Known(s: State) {
    && (forall e | Uncached(s, e) :: e in s.accepted)
    && (forall id | id in s.cached :: s.cached[id].id == id && s.cached[id] in s.accepted)
    && (forall i, e | 0 <= i < |s.drains| && e in s.drains[i].entries :: e in s.accepted)
  }

  // ── Replacing rows of the cache ──────────────────────────────────────────

  /** The last of the entries with the id: the one that stays in the cache. */
  function LastWithId(entries: seq<Entry>, id: string): (r: Option<Entry>)
    ensures r.Some? <==> exists e | e in entries :: e.id == id
    ensures r.Some? ==> r.value in entries && r.value.id == id
  {
    if entries == [] then None
    else
      var last := entries[|entries| - 1];
      if last.id == id then Some(last)
      else
        assert entries == entries[..|entries| - 1] + [last];
        LastWithId(entries[..|entries| - 1], id)
  }

  lemma {:induction false} CachedWithIs(cached: map<string, Entry>, entries: seq<Entry>, id: string)
    ensures id in CachedWith(cached, entries) <==> id in cached || LastWithId(entries, id).Some?
    ensures id in CachedWith(cached, entries) ==>
            CachedWith(cached, entries)[id] == if LastWithId(entries, id).Some? then LastWithId(entries, id).value else cached[id]
  {
    if entries != [] {
      CachedWithIs(cached, entries[..|entries| - 1], id);
    }
  }

  /** Diverting a batch to the cache, whatever is there already: an entry is there afterwards
      exactly when it is the last of the batch with its id, or was there and the batch has none. */
  lemma CacheAfterFlush(cap: nat, s: State, i: nat, stored: nat, e: Entry)
    requires i < |s.inflight|
    ensures IsCached(Step(cap, s, FlushEnd(i, ToCache, stored)), e) <==>
            var last := LastWithId(s.inflight[i], e.id); last == Some(e) || (last.None? && IsCached(s, e))
  {
    CachedWithIs(s.cached, s.inflight[i], e.id);
  }

  /** The delete of a drain removes exactly the cached entries whose ids were drained, read or not. */
  lemma CacheAfterDelete(cap: nat, s: State, i: nat, e: Entry)
    requires Enabled(s, DrainDelete(i, true))
    ensures IsCached(Step(cap, s, DrainDelete(i, true)), e) <==>
            IsCached(s, e) && !exists d | d in s.drains[i].entries :: d.id == e.id
  {
    InIdsOf(s.drains[i].entries, e.id);
  }

  lemma InIdsOf(entries: seq<Entry>, id: string)
    ensures id in IdsOf(entries) <==> exists e | e in entries :: e.id == id
  {
    if id in IdsOf(entries) {
      var i :| 0 <= i < |entries| && IdsOf(entries)[i] == id;
      assert entries[i] in entries;
    }
    if e :| e in entries && e.id == id {
      var i :| 0 <= i < |entries| && entries[i] == e;
      assert IdsOf(entries)[i] == id;
    }
  }

  ghost predicate Holds(cached: map<string, Entry>, e: Entry) {
    e.id in cached && cached[e.id] == e
  }

  /** All entries of a diverted batch and all rows that were there are in the cache afterwards
      exactly when no two different ones of them share an id. */
  lemma DivertedBatchKept(cached: map<string, Entry>, entries: seq<Entry>)
    requires forall id | id in cached :: cached[id].id == id
    ensures (forall e | e in entries || Holds(cached, e) :: Holds(CachedWith(cached, entries), e)) <==>
            (forall e, b | (e in entries || Holds(cached, e)) && b in entries && e.id == b.id :: e == b)
  {
    forall e ensures Holds(CachedWith(cached, entries), e) <==>
                     var last := LastWithId(entries, e.id); last == Some(e) || (last.None? && Holds(cached, e)) {
      CachedWithIs(cached, entries, e.id);
    }
    if forall e | e in entries || Holds(cached, e) :: Holds(CachedWith(cached, entries), e) {
      forall e, b | (e in entries || Holds(cached, e)) && b in entries && e.id == b.id ensures e == b {
        assert Holds(CachedWith(cached, entries), e) && Holds(CachedWith(cached, entries), b);
      }
    }
  }

  // ── The steps that lose an entry ─────────────────────────────────────────

  /** The step takes the entry out of the only place it is in: a flush reported done that has
      stored nothing, a flush to the cache with a later entry of the same id, or a delete of a
      drained id. */
  ghost predicate Loses(s: State, ev: Event, e: Entry)
    requires Enabled(s, ev)
  {
    match ev
    case FlushEnd(i, ToLance, stored) => stored == 0 && e in s.inflight[i] && !IsCached(s, e) && !UncachedWithout(s, i, e)
    case FlushEnd(i, ToCache, stored) =>
      && (e in s.inflight[i] || IsCached(s, e)) && !(e in s.inflight[i] && stored > 0)
      && LastWithId(s.inflight[i], e.id) !in {None, Some(e)} && !UncachedWithout(s, i, e)
    case DrainDelete(i, true) => IsCached(s, e) && (exists d | d in s.drains[i].entries :: d.id == e.id) && !Uncached(s, e)
    case _ => false
  }

  lemma WithoutIn(s: State, i: nat, e: Entry)
    requires i < |s.inflight|
    ensures Uncached(s, e) <==> e in s.inflight[i] || UncachedWithout(s, i, e)
  {
    var rest := Without(s.inflight, i);
    if k :| 0 <= k < |s.inflight| && e in s.inflight[k] && k != i {
      assert e in rest[if k < i then k else k - 1];
    }
    if k :| 0 <= k < |rest| && e in rest[k] {
      assert e in s.inflight[if k < i then k else k + 1];
    }
  }

  lemma FlushEndLoses(cap: nat, s: State, i: nat, tier: Tier, stored: nat, e: Entry)
    requires i < |s.inflight| && Somewhere(s, e)
    ensures !Somewhere(Step(cap, s, FlushEnd(i, tier, stored)), e) <==> Loses(s, FlushEnd(i, tier, stored), e)
  {
    hide Times;
    FlushEndMoves(cap, s, i, tier, stored, e);
    WithoutIn(s, i, e);
    if tier == ToCache {
      CacheAfterFlush(cap, s, i, stored, e);
    }
  }

  lemma FlushEndMoves(cap: nat, s: State, i: nat, tier: Tier, stored: nat, e: Entry)
    requires i < |s.inflight|
    ensures var t := Step(cap, s, FlushEnd(i, tier, stored));
      && (tier != ToCache ==> IsCached(t, e) == IsCached(s, e))
      && (Uncached(t, e) <==> UncachedWithout(s, i, e) || (e in s.inflight[i] && (stored > 0 || tier == ToMemory)))
  {
    hide Times;
    TimesIn(stored, s.inflight[i], e);
    if tier == ToMemory {
      var all := s.inflight[i] + s.buffer.entries;
      var kept := Newest(all, cap);
      assert all == all[..|all| - |kept|] + kept;
      assert e in all <==> e in all[..|all| - |kept|] || e in kept;
      assert e in all <==> e in s.inflight[i] || e in s.buffer.entries;
    }
  }

  lemma FlushStartMoves(cap: nat, s: State, e: Entry)
    ensures var t := Step(cap, s, FlushStart);
      IsCached(t, e) == IsCached(s, e) && (Uncached(t, e) <==> Uncached(s, e))
  {
    var t := Step(cap, s, FlushStart);
    if s.buffer.entries != [] {
      if e in s.buffer.entries {
        assert e in t.inflight[|s.inflight|];
      }
      if i :| 0 <= i < |s.inflight| && e in s.inflight[i] {
        assert e in t.inflight[i];
      }
      if i :| 0 <= i < |t.inflight| && e in t.inflight[i] && i < |s.inflight| {
        assert e in s.inflight[i];
      }
    }
  }

  /** An entry that is somewhere is nowhere after a step exactly when the step loses it. */
  lemma StepLoses(cap: nat, s: State, ev: Event, e: Entry)
    requires Enabled(s, ev) && Somewhere(s, e)
    ensures !Somewhere(Step(cap, s, ev), e) <==> Loses(s, ev, e)
  {
    match ev
    case Add(x) =>
    case FlushStart => FlushStartMoves(cap, s, e);
    case FlushEnd(i, tier, stored) => FlushEndLoses(cap, s, i, tier, stored, e);
    case DrainInsert(i, _, stored) => TimesIn(stored, s.drains[i].entries, e);
    case DrainDelete(i, works) =>
      if works {
        CacheAfterDelete(cap, s, i, e);
      }
    case _ =>
  }

  lemma StepKnown(cap: nat, s: State, ev: Event)
    requires Enabled(s, ev) && Known(s)
    ensures Known(Step(cap, s, ev))
  {
    var t := Step(cap, s, ev);
    forall e | Uncached(t, e) ensures e in t.accepted {
      match ev {
        case FlushStart => FlushStartMoves(cap, s, e);
        case FlushEnd(i, tier, stored) =>
          WithoutIn(s, i, e);
          FlushEndMoves(cap, s, i, tier, stored, e);
        case DrainInsert(i, _, stored) => TimesIn(stored, s.drains[i].entries, e);
        case _ =>
      }
    }
    if ev.FlushEnd? && ev.tier == ToCache {
      ToCacheKnown(cap, s, ev.i, ev.stored);
    }
  }

  lemma ToCacheKnown(cap: nat, s: State, i: nat, stored: nat)
    requires Known(s) && i < |s.inflight|
    ensures var t := Step(cap, s, FlushEnd(i, ToCache, stored));
      forall id | id in t.cached :: t.cached[id].id == id && t.cached[id] in t.accepted
  {
    var t := Step(cap, s, FlushEnd(i, ToCache, stored));
    forall id | id in t.cached ensures t.cached[id].id == id && t.cached[id] in t.accepted {
      CachedWithIs(s.cached, s.inflight[i], id);
      assert forall e | e in s.inflight[i] :: Uncached(s, e);
    }
  }

  // ── Theorem: what a run keeps ────────────────────────────────────────────

  /** After every event, the entry is somewhere if it was accepted. */
  ghost predicate Kept(cap: nat, s: State, events: seq<Event>, e: Entry)
    requires CanRun(cap, s, events)
    decreases |events|
  {
    && (e in s.accepted ==> Somewhere(s, e))
    && (events == [] || Kept(cap, Step(cap, s, events[0]), events[1..], e))
  }

  ghost predicate NoneLoses(cap: nat, s: State, events: seq<Event>, e: Entry)
    requires CanRun(cap, s, events)
    decreases |events|
  {
    events == [] ||
    (!Loses(s, events[0], e) && NoneLoses(cap, Step(cap, s, events[0]), events[1..], e))
  }

  /** Over every run, whatever the ids and whether or not there is a table: an accepted entry is kept
      throughout if and only if no event loses it. */
  lemma {:induction false} KeptUnlessLost(cap: nat, s: State, events: seq<Event>, e: Entry)
    requires Known(s) && CanRun(cap, s, events)
    requires e in s.accepted ==> Somewhere(s, e)
    ensures Kept(cap, s, events, e) <==> NoneLoses(cap, s, events, e)
    decreases |events|
  {
    hide Loses, Somewhere, Uncached, Step;
    if events != [] {
      StepKeeps(cap, s, events[0], e);
      StepKnown(cap, s, events[0]);
      if !Loses(s, events[0], e) {
        KeptUnlessLost(cap, Step(cap, s, events[0]), events[1..], e);
      }
    }
  }

  lemma StepKeeps(cap: nat, s: State, ev: Event, e: Entry)
    requires Known(s) && Enabled(s, ev) && (e in s.accepted ==> Somewhere(s, e))
    ensures var t := Step(cap, s, ev); (e in t.accepted ==> Somewhere(t, e)) <==> !Loses(s, ev, e)
  {
    if e in s.accepted {
      StepLoses(cap, s, ev, e);
    } else {
      assert !Somewhere(s, e);
      StepKnown(cap, s, ev);
    }
  }

  /** No different accepted entry has the entry's id. */
  ghost predicate OwnId(accepted: seq<Entry>, e: Entry) {
    forall x | x in accepted && x.id == e.id :: x == e
  }

  /** An append that is reported done has reached the table. */
  predicate Lands(ev: Event) {
    match ev
    case FlushEnd(_, ToLance, stored) => stored > 0
    case DrainInsert(_, true, stored) => stored > 0
    case _ => true
  }

  /** What a drain has inserted is in Lance. */
  ghost predicate DrainsLanded(s: State) {
    forall i, e | 0 <= i < |s.drains| && s.drains[i].inserted && e in s.drains[i].entries :: e in s.lance
  }

  lemma StepLanded(cap: nat, s: State, ev: Event)
    requires Enabled(s, ev) && DrainsLanded(s) && Lands(ev)
    ensures DrainsLanded(Step(cap, s, ev))
  {
    if ev.DrainInsert? && ev.works {
      forall e | e in s.drains[ev.i].entries ensures e in Times(ev.stored, s.drains[ev.i].entries) {
        TimesIn(ev.stored, s.drains[ev.i].entries, e);
      }
    }
  }

  /** With a table, an event loses only entries that share their id with another one. */
  lemma OwnIdNotLost(s: State, ev: Event, e: Entry)
    requires Known(s) && DrainsLanded(s) && Enabled(s, ev) && Lands(ev) && OwnId(s.accepted, e)
    ensures !Loses(s, ev, e)
  {
    match ev
    case FlushEnd(i, ToCache, _) =>
      if LastWithId(s.inflight[i], e.id).Some? {
        assert Uncached(s, LastWithId(s.inflight[i], e.id).value);
      }
    case DrainDelete(i, true) =>
      if IsCached(s, e) {
        assert forall d | d in s.drains[i].entries && d.id == e.id :: d == e;
      }
    case _ =>
  }

  lemma {:induction false} AcceptedGrows(cap: nat, s: State, events: seq<Event>)
    requires CanRun(cap, s, events)
    ensures s.accepted <= Run(cap, s, events).accepted
    decreases |events|
  {
    if events != [] {
      AcceptedGrows(cap, Step(cap, s, events[0]), events[1..]);
    }
  }

  lemma {:induction false} RunKeepsOwnIds(cap: nat, s: State, events: seq<Event>, e: Entry)
    requires Known(s) && DrainsLanded(s) && CanRun(cap, s, events) && OwnId(Run(cap, s, events).accepted, e)
    requires forall i | 0 <= i < |events| :: Lands(events[i])
    requires e in s.accepted ==> Somewhere(s, e)
    ensures NoneLoses(cap, s, events, e)
    ensures e in Run(cap, s, events).accepted ==> Somewhere(Run(cap, s, events), e)
    decreases |events|
  {
    if events != [] {
      AcceptedGrows(cap, s, events);
      OwnIdNotLost(s, events[0], e);
      StepKeeps(cap, s, events[0], e);
      StepKnown(cap, s, events[0]);
      StepLanded(cap, s, events[0]);
      RunKeepsOwnIds(cap, Step(cap, s, events[0]), events[1..], e);
    }
  }

  /** With the table present, over every run, every accepted entry whose id no different accepted
      entry has is in the buffer, in a batch in flight, in the cache or in Lance, or the cap
      dropped it; overlapping flushes and drains and failures of any tier and delete included,
      and appends that land although they are reported failed. */
  lemma NoEntryDisappears(cap: nat, events: seq<Event>, e: Entry)
    requires CanRun(cap, STARTED, events) && forall i | 0 <= i < |events| :: Lands(events[i])
    requires e in Run(cap, STARTED, events).accepted && OwnId(Run(cap, STARTED, events).accepted, e)
    ensures Somewhere(Run(cap, STARTED, events), e)
  {
    RunKeepsOwnIds(cap, STARTED, events, e);
  }

  // ── Runs that lose an entry ──────────────────────────────────────────────

  lemma Runs(cap: nat, s: State, e: Event, rest: seq<Event>)
    requires Enabled(s, e) && CanRun(cap, Step(cap, s, e), rest)
    ensures CanRun(cap, s, [e] + rest)
    ensures Run(cap, s, [e] + rest) == Run(cap, Step(cap, s, e), rest)
  {
    assert ([e] + rest)[1..] == rest;
  }

  const NO_BUFFER: Buffer<Entry> := Buffer([], false, false)

  /** From a state with an empty, open buffer and nothing in flight, an entry is accepted and flushed. */
  function Flushing(e: Entry, tier: Tier): seq<Event> {
    [Add(e), FlushStart, FlushEnd(0, tier, 0)]
  }

  function WithCached(s: State, e: Entry): State {
    s.(cached := s.cached[e.id := e], accepted := s.accepted + [e])
  }

  lemma DivertSteps(s: State, e: Entry)
    requires s.buffer == NO_BUFFER && s.inflight == []
    ensures var s1 := s.(buffer := Buffer([e], true, false), accepted := s.accepted + [e]);
            var s2 := s.(inflight := [[e]], accepted := s.accepted + [e]);
      && Enabled(s, Add(e)) && Step(1, s, Add(e)) == s1
      && Enabled(s1, FlushStart) && Step(1, s1, FlushStart) == s2
      && Enabled(s2, FlushEnd(0, ToCache, 0)) && Step(1, s2, FlushEnd(0, ToCache, 0)) == WithCached(s, e)
  {
    var batches := [[e]];
    assert [e][..0] == [] && Without(batches, 0) == [];
    assert CachedWith(s.cached, [e]) == s.cached[e.id := e];
  }

  lemma EntryDiverted(s: State, e: Entry, rest: seq<Event>)
    requires s.buffer == NO_BUFFER && s.inflight == [] && CanRun(1, WithCached(s, e), rest)
    ensures CanRun(1, s, Flushing(e, ToCache) + rest)
    ensures Run(1, s, Flushing(e, ToCache) + rest) == Run(1, WithCached(s, e), rest)
  {
    DivertSteps(s, e);
    var s1 := s.(buffer := Buffer([e], true, false), accepted := s.accepted + [e]);
    var s2 := s.(inflight := [[e]], accepted := s.accepted + [e]);
    assert Flushing(e, ToCache) + rest == [Add(e)] + ([FlushStart] + ([FlushEnd(0, ToCache, 0)] + rest));
    hide *;
    Runs(1, s2, FlushEnd(0, ToCache, 0), rest);
    Runs(1, s1, FlushStart, [FlushEnd(0, ToCache, 0)] + rest);
    Runs(1, s, Add(e), [FlushStart] + ([FlushEnd(0, ToCache, 0)] + rest));
  }

  /** Of any two different entries with one id that are diverted one after the other, the first is lost. */
  lemma SharedIdReplaces(a: Entry, b: Entry)
    requires a != b && a.id == b.id
    ensures var events := Flushing(a, ToCache) + (Flushing(b, ToCache) + []);
      && CanRun(1, STARTED, events)
      && a in Run(1, STARTED, events).accepted && !Somewhere(Run(1, STARTED, events), a)
  {
    var s := WithCached(STARTED, a);
    var t := WithCached(s, b);
    EntryDiverted(s, b, []);
    EntryDiverted(STARTED, a, Flushing(b, ToCache) + []);
    assert Run(1, STARTED, Flushing(a, ToCache) + (Flushing(b, ToCache) + [])) == t;
    assert a in t.accepted;
  }

  /** A drain reads a cached entry and stores it. */
  lemma DrainSteps(s: State, a: Entry)
    requires s.drains == [] && IsCached(s, a)
    ensures var s2 := s.(drains := [Drain([a], false)]);
            var s3 := s.(drains := [Drain([a], true)], lance := s.lance + [a]);
      && Enabled(s, DrainRead([a])) && Step(1, s, DrainRead([a])) == s2
      && Enabled(s2, DrainInsert(0, true, 1)) && Step(1, s2, DrainInsert(0, true, 1)) == s3
  {
    TimesOne([a]);
    assert [] + [Drain([a], false)] == [Drain([a], false)];
    assert [Drain([a], false)][0 := Drain([a], true)] == [Drain([a], true)];
  }

  lemma EntryDrained(s: State, a: Entry, rest: seq<Event>)
    requires s.drains == [] && IsCached(s, a)
    requires CanRun(1, s.(drains := [Drain([a], true)], lance := s.lance + [a]), rest)
    ensures var events := [DrainRead([a])] + ([DrainInsert(0, true, 1)] + rest);
      CanRun(1, s, events) && Run(1, s, events) == Run(1, s.(drains := [Drain([a], true)], lance := s.lance + [a]), rest)
  {
    DrainSteps(s, a);
    hide *;
    Runs(1, s.(drains := [Drain([a], false)]), DrainInsert(0, true, 1), rest);
    Runs(1, s, DrainRead([a]), [DrainInsert(0, true, 1)] + rest);
  }

  lemma DeletedById(s: State, a: Entry, b: Entry)
    requires s.drains == [Drain([a], true)] && a.id == b.id && !Uncached(s, b) && b in s.accepted
    ensures CanRun(1, s, [DrainDelete(0, true)] + [])
    ensures var t := Run(1, s, [DrainDelete(0, true)] + []); b in t.accepted && !Somewhere(t, b)
  {
    var t := Step(1, s, DrainDelete(0, true));
    assert a in s.drains[0].entries;
    CacheAfterDelete(1, s, 0, b);
    Runs(1, s, DrainDelete(0, true), []);
  }

  /** A drain that has read the first of them deletes the second, which it never read. */
  lemma DeleteTakesUnread(a: Entry, b: Entry)
    requires a != b && a.id == b.id
    ensures var events := Flushing(a, ToCache)
                          + ([DrainRead([a])] + ([DrainInsert(0, true, 1)] + (Flushing(b, ToCache) + ([DrainDelete(0, true)] + []))));
      && CanRun(1, STARTED, events)
      && b in Run(1, STARTED, events).accepted && !Somewhere(Run(1, STARTED, events), b)
  {
    hide Step, Run, CanRun, Flushing;
    var s1 := WithCached(STARTED, a);
    var s3 := s1.(drains := [Drain([a], true)], lance := [] + [a]);
    var s4 := WithCached(s3, b);
    var rest := [DrainDelete(0, true)] + [];
    DeletedById(s4, a, b);
    EntryDiverted(s3, b, rest);
    EntryDrained(s1, a, Flushing(b, ToCache) + rest);
    EntryDiverted(STARTED, a, [DrainRead([a])] + ([DrainInsert(0, true, 1)] + (Flushing(b, ToCache) + rest)));
  }

  /** An entry flushed while there is no log table: the flush is reported done and the entry is gone. */
  lemma AbsentTableLoses(e: Entry)
    ensures var events := [Add(e)] + ([FlushStart] + ([FlushEnd(0, ToLance, 0)] + []));
      && CanRun(1, STARTED, events)
      && e in Run(1, STARTED, events).accepted && !Somewhere(Run(1, STARTED, events), e)
  {
    var s1 := STARTED.(buffer := Buffer([e], true, false), accepted := [e]);
    var s2 := STARTED.(inflight := [[e]], accepted := [e]);
    var s3 := STARTED.(accepted := [e]);
    assert Step(1, STARTED, Add(e)) == s1;
    assert Step(1, s1, FlushStart) == s2;
    assert Step(1, s2, FlushEnd(0, ToLance, 0)) == s3;
    Runs(1, s2, FlushEnd(0, ToLance, 0), []);
    Runs(1, s1, FlushStart, [FlushEnd(0, ToLance, 0)] + []);
    Runs(1, STARTED, Add(e), [FlushStart] + ([FlushEnd(0, ToLance, 0)] + []));
  }

  /** An entry drained while there is no log table: the insert is reported done, the delete follows,
      and the entry is gone although no other entry has its id. */
  lemma AbsentTableDrainLoses(e: Entry)
    ensures var events := Flushing(e, ToCache) + ([DrainRead([e])] + ([DrainInsert(0, true, 0)] + ([DrainDelete(0, true)] + [])));
      && CanRun(1, STARTED, events)
      && e in Run(1, STARTED, events).accepted && !Somewhere(Run(1, STARTED, events), e)
  {
    var s1 := WithCached(STARTED, e);
    var s2 := s1.(drains := [Drain([e], false)]);
    var s3 := s1.(drains := [Drain([e], true)]);
    var s4 := Step(1, s3, DrainDelete(0, true));
    assert Step(1, s1, DrainRead([e])) == s2;
    assert Step(1, s2, DrainInsert(0, true, 0)) == s3;
    CacheAfterDelete(1, s3, 0, e);
    assert e in s4.accepted && !Somewhere(s4, e);
    assert CanRun(1, s4, []) && Run(1, s4, []) == s4;
    Runs(1, s3, DrainDelete(0, true), []);
    Runs(1, s2, DrainInsert(0, true, 0), [DrainDelete(0, true)] + []);
    Runs(1, s1, DrainRead([e]), [DrainInsert(0, true, 0)] + ([DrainDelete(0, true)] + []));
    EntryDiverted(STARTED, e, [DrainRead([e])] + ([DrainInsert(0, true, 0)] + ([DrainDelete(0, true)] + [])));
  }
}
