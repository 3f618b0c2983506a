/** In how many places a log entry is: in memory or in the cache at most once, in memory and in
    Lance only after a flush that has landed was reported failed, and in Lance twice exactly when
    an append stores what is there already or stores it twice. */
module LogPlaces {
  import opened Wrappers
  import opened LogBuffering
  import opened LogPipeline
  import opened LogRuns

  // ── Counting ─────────────────────────────────────────────────────────────

  function InBatches(batches: seq<seq<Entry>>, e: Entry): nat {
    if batches == [] then 0
    else InBatches(batches[..|batches| - 1], e) + multiset(batches[|batches| - 1])[e]
  }

  lemma {:induction false} InBatchesWithout(batches: seq<seq<Entry>>, i: nat, e: Entry)
    requires i < |batches|
    ensures InBatches(Without(batches, i), e) + multiset(batches[i])[e] == InBatches(batches, e)
  {
    var n := |batches| - 1;
    if i == n {
      assert Without(batches, i) == batches[..n];
    } else {
      InBatchesWithout(batches[..n], i, e);
      var w := Without(batches, i);
      assert w[..|w| - 1] == Without(batches[..n], i);
      assert w[|w| - 1] == batches[n];
    }
  }

  /** How often the entry is in memory, or was dropped from there. */
  function InMemory(s: State, e: Entry): nat {
    multiset(s.buffer.entries)[e] + InBatches(s.inflight, e) + multiset(s.dropped)[e]
  }

  function InLance(s: State, e: Entry): nat {
    multiset(s.lance)[e]
  }

  ghost predicate Stored(s: State, e: Entry) {
    IsCached(s, e) || InLance(s, e) > 0
  }

  lemma CountIn<T>(s: seq<T>, x: T)
    ensures x in s <==> multiset(s)[x] > 0
  {
    assert x in s <==> x in multiset(s);
  }

  lemma {:induction false} CountTimes<T>(n: nat, s: seq<T>, x: T)
    requires multiset(s)[x] <= 1
    ensures multiset(Times(n, s))[x] == if x in s then n else 0
  {
    CountIn(s, x);
    if n > 0 {
      CountTimes(n - 1, s, x);
      CountConcat(Times(n - 1, s), s, x);
    }
  }

  lemma CountConcat<T>(s: seq<T>, t: seq<T>, x: T)
    ensures multiset(s + t)[x] == multiset(s)[x] + multiset(t)[x]
  {
  }

  ghost predicate DistinctIds(entries: seq<Entry>) {
    forall i, j | 0 <= i < j < |entries| :: entries[i].id != entries[j].id
  }

  lemma {:induction false} CountDistinct(entries: seq<Entry>, e: Entry)
    requires DistinctIds(entries)
    ensures multiset(entries)[e] == if e in entries then 1 else 0
  {
    if entries != [] {
      var n := |entries| - 1;
      CountDistinct(entries[..n], e);
      assert entries == entries[..n] + [entries[n]];
      CountConcat(entries[..n], [entries[n]], e);
    }
  }

  // ── One kind of place ────────────────────────────────────────────────────

  /** Accepted once, and no different accepted entry has its id. */
  ghost predicate Once(accepted: seq<Entry>, e: Entry) {
    OwnId(accepted, e) && multiset(accepted)[e] <= 1
  }

  function InCache(s: State, e: Entry): nat {
    if e.id in s.cached && s.cached[e.id] == e then 1 else 0
  }

  /** An entry is in memory or in the cache at most once, and not in memory once a drain has read it. */
  ghost predicate Placed(s: State, e: Entry) {
    && Known(s)
    && (forall i | 0 <= i < |s.drains| ::
          DistinctIds(s.drains[i].entries) && (e in s.drains[i].entries ==> InMemory(s, e) == 0))
    && InMemory(s, e) + InCache(s, e) <= 1
  }

  lemma AddPlaced(cap: nat, s: State, x: Entry, e: Entry)
    requires Placed(s, e) && Once(Step(cap, s, Add(x)).accepted, e)
    ensures Placed(Step(cap, s, Add(x)), e)
  {
    StepKnown(cap, s, Add(x));
    if !s.buffer.stopped {
      CountConcat(s.buffer.entries, [x], e);
      CountConcat(s.accepted, [x], e);
      CountIn(s.accepted, e);
      if e == x {
        assert e !in s.accepted;
        assert !Uncached(s, e) && !IsCached(s, e);
        NotInMemory(s, e);
      }
    }
  }

  lemma {:induction false} InSomeBatch(batches: seq<seq<Entry>>, e: Entry)
    requires InBatches(batches, e) > 0
    ensures exists i | 0 <= i < |batches| :: e in batches[i]
  {
    var n := |batches| - 1;
    CountIn(batches[n], e);
    if e !in batches[n] {
      InSomeBatch(batches[..n], e);
      var i :| 0 <= i < n && e in batches[..n][i];
      assert e in batches[i];
    }
  }

  lemma NotInMemory(s: State, e: Entry)
    requires !Uncached(s, e)
    ensures InMemory(s, e) == 0
  {
    CountIn(s.buffer.entries, e);
    CountIn(s.dropped, e);
    if InBatches(s.inflight, e) > 0 {
      InSomeBatch(s.inflight, e);
    }
  }

  lemma FlushStartPlaced(cap: nat, s: State, e: Entry)
    requires Placed(s, e)
    ensures Placed(Step(cap, s, FlushStart), e) && InMemory(Step(cap, s, FlushStart), e) == InMemory(s, e)
  {
    var t := Step(cap, s, FlushStart);
    StepKnown(cap, s, FlushStart);
    if s.buffer.entries != [] {
      assert t.inflight[..|t.inflight| - 1] == s.inflight;
    }
  }

  lemma BatchOnly(s: State, i: nat, e: Entry)
    requires Placed(s, e) && i < |s.inflight| && e in s.inflight[i]
    ensures multiset(s.inflight[i])[e] == 1 && InMemory(s, e) == 1 && !IsCached(s, e) && e in s.accepted
  {
    InBatchesWithout(s.inflight, i, e);
    CountIn(s.inflight[i], e);
    assert InFlight(s, e);
  }

  /** How the end of a flush moves an entry. */
  lemma FlushEndPlaced(cap: nat, s: State, i: nat, tier: Tier, stored: nat, e: Entry)
    requires Placed(s, e) && i < |s.inflight| && OwnId(s.accepted, e)
    ensures var t := Step(cap, s, FlushEnd(i, tier, stored));
      && Placed(t, e)
      && InLance(t, e) == InLance(s, e) + (if e in s.inflight[i] then stored else 0)
      && InMemory(t, e) == InMemory(s, e) - (if e in s.inflight[i] && tier != ToMemory then 1 else 0)
      && InCache(t, e) == InCache(s, e) + (if e in s.inflight[i] && tier == ToCache then 1 else 0)
  {
    hide Times, Newest, InMemory, Known;
    StepKnown(cap, s, FlushEnd(i, tier, stored));
    if e in s.inflight[i] {
      BatchOnly(s, i, e);
    }
    CountIn(s.inflight[i], e);
    MemoryAfter(cap, s, i, tier, stored, e);
    assert multiset(s.inflight[i])[e] <= 1;
    CountTimes(stored, s.inflight[i], e);
    CountConcat(s.lance, Times(stored, s.inflight[i]), e);
    if tier == ToCache {
      ToCacheKeeps(cap, s, i, stored, e);
    }
  }

  lemma MemoryAfter(cap: nat, s: State, i: nat, tier: Tier, stored: nat, e: Entry)
    requires i < |s.inflight|
    ensures InMemory(Step(cap, s, FlushEnd(i, tier, stored)), e)
         == InMemory(s, e) - if tier == ToMemory then 0 else multiset(s.inflight[i])[e]
  {
    hide Times, Newest;
    InBatchesWithout(s.inflight, i, e);
    PutBackCounts(s.inflight[i], s.buffer.entries, s.dropped, cap, e);
  }

  lemma ToCacheKeeps(cap: nat, s: State, i: nat, stored: nat, e: Entry)
    requires Known(s) && i < |s.inflight| && OwnId(s.accepted, e)
    ensures IsCached(Step(cap, s, FlushEnd(i, ToCache, stored)), e) <==> IsCached(s, e) || e in s.inflight[i]
  {
    hide Times;
    CacheAfterFlush(cap, s, i, stored, e);
    var last := LastWithId(s.inflight[i], e.id);
    if last.Some? {
      assert InFlight(s, last.value);
      assert last == Some(e);
    }
  }

  lemma PutBackCounts(batch: seq<Entry>, entries: seq<Entry>, dropped: seq<Entry>, cap: nat, e: Entry)
    ensures var all := batch + entries;
            var excess := |all| - |Newest(all, cap)|;
            multiset(Newest(all, cap))[e] + multiset(dropped + all[..excess])[e]
            == multiset(batch)[e] + multiset(entries)[e] + multiset(dropped)[e]
  {
    var all := batch + entries;
    var excess := |all| - |Newest(all, cap)|;
    assert all == all[..excess] + Newest(all, cap);
    CountConcat(all[..excess], Newest(all, cap), e);
    CountConcat(batch, entries, e);
    CountConcat(dropped, all[..excess], e);
  }

  lemma MemoryUnmoved(s: State, t: State, e: Entry)
    requires t.buffer == s.buffer && t.inflight == s.inflight && t.dropped == s.dropped
    ensures InMemory(t, e) == InMemory(s, e)
  {
  }

  lemma DrainInsertPlaced(cap: nat, s: State, i: nat, works: bool, stored: nat, e: Entry)
    requires Placed(s, e) && Enabled(s, DrainInsert(i, works, stored))
    ensures var t := Step(cap, s, DrainInsert(i, works, stored));
      Placed(t, e) && InLance(t, e) == InLance(s, e) + if e in s.drains[i].entries then stored else 0
  {
    hide Times, InMemory, Known, DistinctIds;
    StepKnown(cap, s, DrainInsert(i, works, stored));
    MemoryUnmoved(s, Step(cap, s, DrainInsert(i, works, stored)), e);
    CountDistinct(s.drains[i].entries, e);
    CountTimes(stored, s.drains[i].entries, e);
    CountConcat(s.lance, Times(stored, s.drains[i].entries), e);
  }

  lemma StepPlaced(cap: nat, s: State, ev: Event, e: Entry)
    requires Placed(s, e) && Enabled(s, ev) && Once(Step(cap, s, ev).accepted, e)
    ensures Placed(Step(cap, s, ev), e)
  {
    match ev
    case Add(x) => AddPlaced(cap, s, x, e);
    case FlushStart => FlushStartPlaced(cap, s, e);
    case FlushEnd(i, tier, stored) => FlushEndPlaced(cap, s, i, tier, stored, e);
    case DrainRead(_) => StepKnown(cap, s, ev);
    case DrainInsert(i, works, stored) => DrainInsertPlaced(cap, s, i, works, stored, e);
    case DrainDelete(i, works) => StepKnown(cap, s, ev);
    case Close => StepKnown(cap, s, ev);
  }

  lemma OnceBefore(accepted: seq<Entry>, more: seq<Entry>, e: Entry)
    requires accepted <= more && Once(more, e)
    ensures Once(accepted, e)
  {
    assert more == accepted + more[|accepted|..];
    CountConcat(accepted, more[|accepted|..], e);
  }

  lemma OnceThroughout(cap: nat, s: State, events: seq<Event>, e: Entry)
    requires CanRun(cap, s, events) && Once(Run(cap, s, events).accepted, e)
    ensures Once(s.accepted, e)
    ensures events != [] ==> Once(Step(cap, s, events[0]).accepted, e)
  {
    AcceptedGrows(cap, s, events);
    OnceBefore(s.accepted, Run(cap, s, events).accepted, e);
    if events != [] {
      AcceptedGrows(cap, Step(cap, s, events[0]), events[1..]);
      OnceBefore(Step(cap, s, events[0]).accepted, Run(cap, s, events).accepted, e);
    }
  }

  lemma StartsPlaced(e: Entry)
    ensures Placed(STARTED, e)
  {
  }

  /** A flush puts the entry back in memory although its append has landed. */
  ghost predicate Returns(s: State, ev: Event, e: Entry)
    requires Enabled(s, ev)
  {
    ev.FlushEnd? && ev.tier == ToMemory && ev.stored > 0 && e in s.inflight[ev.i]
  }

  ghost predicate NoneReturns(cap: nat, s: State, events: seq<Event>, e: Entry)
    requires CanRun(cap, s, events)
    decreases |events|
  {
    events == [] ||
    (!Returns(s, events[0], e) && NoneReturns(cap, Step(cap, s, events[0]), events[1..], e))
  }

  ghost predicate Apart(s: State, e: Entry) {
    InMemory(s, e) == 0 || InLance(s, e) == 0
  }

  /** After every event the entry is not both in memory and in Lance. */
  ghost predicate AlwaysApart(cap: nat, s: State, events: seq<Event>, e: Entry)
    requires CanRun(cap, s, events)
    decreases |events|
  {
    Apart(s, e) && (events == [] || AlwaysApart(cap, Step(cap, s, events[0]), events[1..], e))
  }

  lemma StepApart(cap: nat, s: State, ev: Event, e: Entry)
    requires Placed(s, e) && Enabled(s, ev) && Once(Step(cap, s, ev).accepted, e) && Apart(s, e)
    ensures Apart(Step(cap, s, ev), e) <==> !Returns(s, ev, e)
  {
    hide Times, Newest;
    match ev
    case Add(x) => AddApart(cap, s, x, e);
    case FlushStart => FlushStartPlaced(cap, s, e);
    case FlushEnd(i, tier, stored) =>
      OnceBefore(s.accepted, s.accepted, e);
      FlushEndPlaced(cap, s, i, tier, stored, e);
      if e in s.inflight[i] {
        BatchOnly(s, i, e);
      }
    case DrainInsert(i, works, stored) => DrainInsertPlaced(cap, s, i, works, stored, e);
    case _ =>
  }

  lemma AddApart(cap: nat, s: State, x: Entry, e: Entry)
    requires Placed(s, e) && Once(Step(cap, s, Add(x)).accepted, e) && Apart(s, e)
    ensures Apart(Step(cap, s, Add(x)), e)
  {
    if !s.buffer.stopped {
      CountConcat(s.buffer.entries, [x], e);
      CountConcat(s.accepted, [x], e);
      CountIn(s.accepted, e);
      CountIn(s.lance, e);
    }
  }

  /** Over every run: an entry accepted once under an id of its own is never both in memory and in
      Lance if and only if no flush puts it back although its append has landed. */
  lemma {:induction false} ApartUnlessReturned(cap: nat, s: State, events: seq<Event>, e: Entry)
    requires Placed(s, e) && Apart(s, e) && CanRun(cap, s, events) && Once(Run(cap, s, events).accepted, e)
    ensures AlwaysApart(cap, s, events, e) <==> NoneReturns(cap, s, events, e)
    ensures NoneReturns(cap, s, events, e) ==> Apart(Run(cap, s, events), e)
    ensures Placed(Run(cap, s, events), e)
    decreases |events|
  {
    hide Placed, Once, Step, Returns, Apart;
    if events != [] {
      OnceThroughout(cap, s, events, e);
      StepPlaced(cap, s, events[0], e);
      StepApart(cap, s, events[0], e);
      if !Returns(s, events[0], e) {
        ApartUnlessReturned(cap, Step(cap, s, events[0]), events[1..], e);
      } else {
        RunPlaced(cap, Step(cap, s, events[0]), events[1..], e);
      }
    }
  }

  lemma {:induction false} RunPlaced(cap: nat, s: State, events: seq<Event>, e: Entry)
    requires Placed(s, e) && CanRun(cap, s, events) && Once(Run(cap, s, events).accepted, e)
    ensures Placed(Run(cap, s, events), e)
    decreases |events|
  {
    hide Placed, Once, Step;
    if events != [] {
      OnceThroughout(cap, s, events, e);
      StepPlaced(cap, s, events[0], e);
      RunPlaced(cap, Step(cap, s, events[0]), events[1..], e);
    }
  }

  /** Over every run, flushes and drains overlapping freely, any of them failing, with or without
      effect: an entry accepted once under an id of its own is in memory, dropped or cached at most
      once.  It is never in memory beside Lance if and only if no flush puts it back although its
      append has landed; and then, if what is reported done is done, it is in memory or dropped
      exactly once and not stored, or stored and not in memory. */
  lemma InMemoryOrStored(cap: nat, events: seq<Event>, e: Entry)
    requires CanRun(cap, STARTED, events)
    requires var accepted := Run(cap, STARTED, events).accepted; e in accepted && Once(accepted, e)
    ensures var s := Run(cap, STARTED, events);
      && InMemory(s, e) + InCache(s, e) <= 1
      && (AlwaysApart(cap, STARTED, events, e) <==> NoneReturns(cap, STARTED, events, e))
      && (NoneReturns(cap, STARTED, events, e) && (forall i | 0 <= i < |events| :: Lands(events[i])) ==>
            InMemory(s, e) == if Stored(s, e) then 0 else 1)
  {
    StartsPlaced(e);
    ApartUnlessReturned(cap, STARTED, events, e);
    var s := Run(cap, STARTED, events);
    if forall i | 0 <= i < |events| :: Lands(events[i]) {
      NoEntryDisappears(cap, events, e);
      MemoryCounted(s, e);
    }
  }

  lemma MemoryCounted(s: State, e: Entry)
    ensures Uncached(s, e) ==> InMemory(s, e) + InLance(s, e) > 0
  {
    CountIn(s.lance, e);
    CountIn(s.buffer.entries, e);
    CountIn(s.dropped, e);
    if i :| 0 <= i < |s.inflight| && e in s.inflight[i] {
      CountIn(s.inflight[i], e);
      InBatchesWithout(s.inflight, i, e);
    }
  }

  // ── At most once in Lance ────────────────────────────────────────────────

  /** How often the event stores the entry in Lance. */
  function Stores(s: State, ev: Event, e: Entry): nat
    requires Enabled(s, ev)
  {
    match ev
    case FlushEnd(i, _, stored) => if e in s.inflight[i] then stored else 0
    case DrainInsert(i, _, stored) => if e in s.drains[i].entries then stored else 0
    case _ => 0
  }

  /** An append stores the entry although Lance has it, or stores it twice. */
  ghost predicate Repeats(s: State, ev: Event, e: Entry)
    requires Enabled(s, ev)
  {
    Stores(s, ev, e) >= 2 || (Stores(s, ev, e) == 1 && e in s.lance)
  }

  ghost predicate NoneRepeats(cap: nat, s: State, events: seq<Event>, e: Entry)
    requires CanRun(cap, s, events)
    decreases |events|
  {
    events == [] ||
    (!Repeats(s, events[0], e) && NoneRepeats(cap, Step(cap, s, events[0]), events[1..], e))
  }

  /** After every event Lance has the entry at most once. */
  ghost predicate NeverTwice(cap: nat, s: State, events: seq<Event>, e: Entry)
    requires CanRun(cap, s, events)
    decreases |events|
  {
    InLance(s, e) <= 1 && (events == [] || NeverTwice(cap, Step(cap, s, events[0]), events[1..], e))
  }

  lemma StepStores(cap: nat, s: State, ev: Event, e: Entry)
    requires Placed(s, e) && Enabled(s, ev) && OwnId(s.accepted, e)
    ensures InLance(Step(cap, s, ev), e) == InLance(s, e) + Stores(s, ev, e)
  {
    match ev
    case FlushEnd(i, tier, stored) => FlushEndPlaced(cap, s, i, tier, stored, e);
    case DrainInsert(i, works, stored) => DrainInsertPlaced(cap, s, i, works, stored, e);
    case _ =>
  }

  lemma StepRepeats(cap: nat, s: State, ev: Event, e: Entry)
    requires Placed(s, e) && Enabled(s, ev) && OwnId(s.accepted, e) && InLance(s, e) <= 1
    ensures InLance(Step(cap, s, ev), e) <= 1 <==> !Repeats(s, ev, e)
  {
    StepStores(cap, s, ev, e);
    CountIn(s.lance, e);
  }

  /** Over every run: Lance never has an entry twice that was accepted once under an id of its own
      if and only if no append stores it while Lance has it, or stores it twice. */
  lemma {:induction false} TwiceExactlyWhenRepeated(cap: nat, s: State, events: seq<Event>, e: Entry)
    requires Placed(s, e) && InLance(s, e) <= 1
    requires CanRun(cap, s, events) && Once(Run(cap, s, events).accepted, e)
    ensures NeverTwice(cap, s, events, e) <==> NoneRepeats(cap, s, events, e)
    decreases |events|
  {
    hide Placed, Once, Step, Repeats, InLance;
    if events != [] {
      OnceThroughout(cap, s, events, e);
      StepRepeats(cap, s, events[0], e);
      StepPlaced(cap, s, events[0], e);
      if !Repeats(s, events[0], e) {
        TwiceExactlyWhenRepeated(cap, Step(cap, s, events[0]), events[1..], e);
      }
    }
  }

  /** The same for a whole run whose entries all have ids of their own. */
  lemma LanceHasEachOnce(cap: nat, events: seq<Event>)
    requires CanRun(cap, STARTED, events) && DistinctIds(Run(cap, STARTED, events).accepted)
    ensures forall e :: NeverTwice(cap, STARTED, events, e) <==> NoneRepeats(cap, STARTED, events, e)
  {
    hide NeverTwice, NoneRepeats;
    var accepted := Run(cap, STARTED, events).accepted;
    forall e ensures NeverTwice(cap, STARTED, events, e) <==> NoneRepeats(cap, STARTED, events, e) {
      StartsPlaced(e);
      if e in accepted {
        CountDistinct(accepted, e);
        DistinctOwnId(accepted, e);
        TwiceExactlyWhenRepeated(cap, STARTED, events, e);
      } else {
        NeverAccepted(cap, STARTED, events, e);
      }
    }
  }

  lemma DistinctOwnId(accepted: seq<Entry>, e: Entry)
    requires DistinctIds(accepted) && e in accepted
    ensures OwnId(accepted, e)
  {
    forall x | x in accepted && x.id == e.id ensures x == e {
      var i :| 0 <= i < |accepted| && accepted[i] == x;
      var j :| 0 <= j < |accepted| && accepted[j] == e;
    }
  }

  lemma {:induction false} NeverAccepted(cap: nat, s: State, events: seq<Event>, e: Entry)
    requires Known(s) && CanRun(cap, s, events) && e !in Run(cap, s, events).accepted
    ensures NeverTwice(cap, s, events, e) && NoneRepeats(cap, s, events, e)
    decreases |events|
  {
    AcceptedGrows(cap, s, events);
    CountIn(s.lance, e);
    assert !Uncached(s, e);
    if events != [] {
      StepKnown(cap, s, events[0]);
      NeverAccepted(cap, Step(cap, s, events[0]), events[1..], e);
    }
  }

  // ── Drains one at a time ─────────────────────────────────────────────────

  /** An append is carried out once if it is reported done and otherwise not at all; one drain at a
      time, and its delete works. */
  ghost predicate Careful(s: State, ev: Event) {
    match ev
    case FlushEnd(_, tier, stored) => stored == if tier == ToLance then 1 else 0
    case DrainRead(_) => s.drains == []
    case DrainInsert(_, works, stored) => stored == if works then 1 else 0
    case DrainDelete(_, works) => works
    case _ => true
  }

  ghost predicate CarefulRun(cap: nat, s: State, events: seq<Event>)
    requires CanRun(cap, s, events)
    decreases |events|
  {
    events == [] || (Careful(s, events[0]) && CarefulRun(cap, Step(cap, s, events[0]), events[1..]))
  }

  /** Cached and in Lance only while the one drain has inserted it and not yet deleted it. */
  ghost predicate Tidy(s: State, e: Entry) {
    && |s.drains| <= 1 && InLance(s, e) <= 1 && Apart(s, e) && DrainsLanded(s)
    && (forall d | d in s.drains && e in d.entries :: IsCached(s, e))
    && (IsCached(s, e) && InLance(s, e) > 0 ==> exists d | d in s.drains :: d.inserted && e in d.entries)
  }

  lemma FlushEndTidy(cap: nat, s: State, i: nat, tier: Tier, e: Entry)
    requires Tidy(s, e) && Placed(s, e) && i < |s.inflight| && Once(s.accepted, e)
    ensures var ev := FlushEnd(i, tier, if tier == ToLance then 1 else 0);
      !Repeats(s, ev, e) && Tidy(Step(cap, s, ev), e)
  {
    hide Times, Newest;
    var stored := if tier == ToLance then 1 else 0;
    FlushEndPlaced(cap, s, i, tier, stored, e);
    StepApart(cap, s, FlushEnd(i, tier, stored), e);
    StepLanded(cap, s, FlushEnd(i, tier, stored));
    CountIn(s.lance, e);
    if e in s.inflight[i] {
      BatchOnly(s, i, e);
    }
  }

  lemma DrainInsertTidy(cap: nat, s: State, i: nat, works: bool, e: Entry)
    requires Tidy(s, e) && Placed(s, e) && Once(s.accepted, e)
    requires Enabled(s, DrainInsert(i, works, if works then 1 else 0))
    ensures var ev := DrainInsert(i, works, if works then 1 else 0);
      !Repeats(s, ev, e) && Tidy(Step(cap, s, ev), e)
  {
    hide Times;
    var stored := if works then 1 else 0;
    var t := Step(cap, s, DrainInsert(i, works, stored));
    var d := s.drains[0];
    assert s.drains == [d] && d in s.drains;
    CountIn(s.lance, e);
    DrainInsertPlaced(cap, s, i, works, stored, e);
    StepApart(cap, s, DrainInsert(i, works, stored), e);
    StepLanded(cap, s, DrainInsert(i, works, stored));
    if works {
      assert t.drains == [d.(inserted := true)] && t.drains[0] in t.drains;
    } else {
      assert t.drains == [];
    }
  }

  lemma DrainDeleteTidy(cap: nat, s: State, i: nat, e: Entry)
    requires Tidy(s, e) && Placed(s, e) && Enabled(s, DrainDelete(i, true))
    ensures Tidy(Step(cap, s, DrainDelete(i, true)), e)
  {
    assert s.drains == [s.drains[0]];
    CountIn(s.lance, e);
    CacheAfterDelete(cap, s, i, e);
  }

  lemma OtherTidy(cap: nat, s: State, ev: Event, e: Entry)
    requires Tidy(s, e) && Placed(s, e) && Enabled(s, ev) && Careful(s, ev) && Once(Step(cap, s, ev).accepted, e)
    requires ev.Add? || ev.FlushStart? || ev.DrainRead? || ev.Close?
    ensures Tidy(Step(cap, s, ev), e)
  {
    hide Placed, Apart, Once;
    StepApart(cap, s, ev, e);
  }

  lemma StepTidy(cap: nat, s: State, ev: Event, e: Entry)
    requires Tidy(s, e) && Placed(s, e) && Enabled(s, ev) && Careful(s, ev) && Once(Step(cap, s, ev).accepted, e)
    ensures !Repeats(s, ev, e) && !Returns(s, ev, e) && Tidy(Step(cap, s, ev), e)
  {
    hide Tidy, Placed;
    match ev
    case FlushEnd(i, tier, _) => FlushEndTidy(cap, s, i, tier, e);
    case DrainInsert(i, works, _) => DrainInsertTidy(cap, s, i, works, e);
    case DrainDelete(i, works) => DrainDeleteTidy(cap, s, i, e);
    case _ => OtherTidy(cap, s, ev, e);
  }

  lemma {:induction false} RunTidy(cap: nat, s: State, events: seq<Event>, e: Entry)
    requires Tidy(s, e) && Placed(s, e) && CanRun(cap, s, events) && CarefulRun(cap, s, events)
    requires Once(Run(cap, s, events).accepted, e)
    ensures NoneRepeats(cap, s, events, e) && NoneReturns(cap, s, events, e)
    ensures forall i | 0 <= i < |events| :: Lands(events[i])
    ensures Tidy(Run(cap, s, events), e)
    decreases |events|
  {
    hide Placed, Once, Step, Repeats, Returns, Tidy;
    if events != [] {
      OnceThroughout(cap, s, events, e);
      StepTidy(cap, s, events[0], e);
      StepPlaced(cap, s, events[0], e);
      RunTidy(cap, Step(cap, s, events[0]), events[1..], e);
    }
  }

  /** Cached, and not already inserted into Lance by a running drain. */
  ghost predicate Waiting(s: State, e: Entry) {
    IsCached(s, e) && !exists d | d in s.drains :: d.inserted && e in d.entries
  }

  /** While appends do as reported, drains do not overlap and their deletes work, no entry is
      repeated, and each entry accepted once under an id of its own is in exactly one place
      exactly once. */
  lemma EveryEntryInOnePlace(cap: nat, events: seq<Event>, e: Entry)
    requires CanRun(cap, STARTED, events) && CarefulRun(cap, STARTED, events)
    requires var accepted := Run(cap, STARTED, events).accepted; e in accepted && Once(accepted, e)
    ensures NoneRepeats(cap, STARTED, events, e)
    ensures var s := Run(cap, STARTED, events);
            InMemory(s, e) + InLance(s, e) + (if Waiting(s, e) then 1 else 0) == 1
  {
    StartsPlaced(e);
    RunTidy(cap, STARTED, events, e);
    InMemoryOrStored(cap, events, e);
    var s := Run(cap, STARTED, events);
    CountIn(s.lance, e);
    if d :| d in s.drains && d.inserted && e in d.entries {
      var i :| 0 <= i < |s.drains| && s.drains[i] == d;
    }
  }

  /** The background drain and the drain of a reconnect can both read an entry before either
      deletes it: Lance then has it twice although no delete has failed. */
  lemma OverlappingDrainsDuplicate(e: Entry)
    ensures var events := Flushing(e, ToCache)
                          + ([DrainRead([e])] + ([DrainRead([e])] + ([DrainInsert(0, true, 1)] + ([DrainInsert(1, true, 1)] + []))));
            CanRun(1, STARTED, events) && InLance(Run(1, STARTED, events), e) == 2
  {
    var s1 := WithCached(STARTED, e);
    var s2 := s1.(drains := [Drain([e], false)]);
    var s3 := s1.(drains := [Drain([e], false), Drain([e], false)]);
    BothDrainsInsert(s1, e);
    assert Step(1, s1, DrainRead([e])) == s2;
    assert Step(1, s2, DrainRead([e])) == s3;
    var rest := [DrainInsert(0, true, 1)] + ([DrainInsert(1, true, 1)] + []);
    Runs(1, s2, DrainRead([e]), rest);
    Runs(1, s1, DrainRead([e]), [DrainRead([e])] + rest);
    EntryDiverted(STARTED, e, [DrainRead([e])] + ([DrainRead([e])] + rest));
  }

  lemma BothDrainsInsert(s: State, e: Entry)
    requires s.lance == []
    ensures var events := [DrainInsert(0, true, 1)] + ([DrainInsert(1, true, 1)] + []);
            var both := s.(drains := [Drain([e], false), Drain([e], false)]);
            CanRun(1, both, events) && InLance(Run(1, both, events), e) == 2
  {
    var both := s.(drains := [Drain([e], false), Drain([e], false)]);
    var one := s.(drains := [Drain([e], true), Drain([e], false)], lance := [e]);
    TimesOne([e]);
    assert Step(1, both, DrainInsert(0, true, 1)) == one;
    assert Step(1, one, DrainInsert(1, true, 1)).lance == [e, e];
    Runs(1, one, DrainInsert(1, true, 1), []);
    Runs(1, both, DrainInsert(0, true, 1), [DrainInsert(1, true, 1)] + []);
  }

  lemma LandedSteps(s: State, e: Entry)
    requires s.inflight == [[e]] && s.buffer == NO_BUFFER
    ensures var s3 := s.(inflight := [], buffer := Buffer([e], false, false), lance := s.lance + [e]);
            var s4 := s.(lance := s.lance + [e]);
      && Step(1, s, FlushEnd(0, ToMemory, 1)) == s3
      && Step(1, s3, FlushStart) == s4
      && InLance(Step(1, s4, FlushEnd(0, ToLance, 1)), e) == InLance(s, e) + 2
  {
    TimesOne([e]);
    assert [e] + [] == [e] && [e][..0] == [];
    assert Without(s.inflight, 0) == [];
  }

  lemma BatchTaken(e: Entry, rest: seq<Event>)
    requires CanRun(1, STARTED.(inflight := [[e]], accepted := [e]), rest)
    ensures var events := [Add(e)] + ([FlushStart] + rest);
      CanRun(1, STARTED, events) && Run(1, STARTED, events) == Run(1, STARTED.(inflight := [[e]], accepted := [e]), rest)
  {
    DivertSteps(STARTED, e);
    var s1 := STARTED.(buffer := Buffer([e], true, false), accepted := [e]);
    assert STARTED.accepted + [e] == [e];
    Runs(1, s1, FlushStart, rest);
    Runs(1, STARTED, Add(e), [FlushStart] + rest);
  }

  /** A flush whose append has landed although it was reported failed puts the entry back, and the
      next flush stores it again. */
  lemma LandedFlushDuplicates(e: Entry)
    ensures var events := [Add(e)] + ([FlushStart] + ([FlushEnd(0, ToMemory, 1)] + ([FlushStart] + ([FlushEnd(0, ToLance, 1)] + []))));
            CanRun(1, STARTED, events) && InLance(Run(1, STARTED, events), e) == 2
  {
    hide Step;
    var s2 := STARTED.(inflight := [[e]], accepted := [e]);
    var s3 := s2.(inflight := [], buffer := Buffer([e], false, false), lance := s2.lance + [e]);
    var s4 := s2.(lance := s2.lance + [e]);
    LandedSteps(s2, e);
    Runs(1, s4, FlushEnd(0, ToLance, 1), []);
    Runs(1, s3, FlushStart, [FlushEnd(0, ToLance, 1)] + []);
    Runs(1, s2, FlushEnd(0, ToMemory, 1), [FlushStart] + ([FlushEnd(0, ToLance, 1)] + []));
    BatchTaken(e, [FlushEnd(0, ToMemory, 1)] + ([FlushStart] + ([FlushEnd(0, ToLance, 1)] + [])));
  }
}
