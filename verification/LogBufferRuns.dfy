/** Runs of the log buffer with one flush at a time: what the buffer holds, how long it gets,
    and when its timer is armed. */
module LogBufferRuns {
  import opened LogBuffering

  /** Entries are numbered as they are accepted.  `batch` is in flight while `flushing`; `due`
      says that an add has asked for a flush that has not started.  The history: how many entries
      were accepted, which of them a successful flush has written, those the cap has dropped, and
      how many flushes failed. */
  datatype State = State(buffer: Buffer<nat>, flushing: bool, batch: seq<nat>, due: bool,
                         accepted: nat, written: set<nat>, dropped: seq<nat>, failures: nat)

  datatype Event = Add | FlushStart | FlushOk | FlushFail | Close

  predicate Enabled(s: State, e: Event) {
    match e
    case FlushStart => !s.flushing
    case FlushOk => s.flushing
    case FlushFail => s.flushing
    case _ => true
  }

  function Elements(b: seq<nat>): set<nat> {
    set i | i in b
  }

  function Step(cfg: Config, s: State, e: Event): State
    requires cfg.memoryCap > 0
  {
    match e
    case Add =>
      if s.buffer.stopped then s
      else s.(buffer := Added(s.buffer, s.accepted), accepted := s.accepted + 1,
              due := s.due || |s.buffer.entries| + 1 >= cfg.flushThreshold)
    case FlushStart =>
      s.(buffer := Taken(s.buffer), flushing := s.buffer.entries != [], batch := s.buffer.entries, due := false)
    case FlushOk => s.(flushing := false, batch := [], written := s.written + Elements(s.batch))
    case FlushFail =>
      var all := s.batch + s.buffer.entries;
      var excess := |all| - |Newest(all, cfg.memoryCap)|;
      s.(buffer := Restored(s.buffer, s.batch, cfg.memoryCap), flushing := false, batch := [],
         dropped := s.dropped + all[..excess], failures := s.failures + 1)
    case Close => s.(buffer := s.buffer.(stopped := true))
  }

  const STARTED := State(Buffer([], false, false), false, [], false, 0, {}, [], 0)

  ghost predicate CanRun(cfg: Config, s: State, events: seq<Event>)
    requires cfg.memoryCap > 0
    decreases |events|
  {
    events == [] || (Enabled(s, events[0]) && CanRun(cfg, Step(cfg, s, events[0]), events[1..]))
  }

  ghost function Run(cfg: Config, s: State, events: seq<Event>): State
    requires cfg.memoryCap > 0 && CanRun(cfg, s, events)
    decreases |events|
  {
    if events == [] then s else Run(cfg, Step(cfg, s, events[0]), events[1..])
  }

  function Max(a: int, b: int): int {
    if a < b then b else a
  }

  /** The accepted entries that no successful flush has written, in order of acceptance. */
  function Unflushed(accepted: nat, written: set<nat>): seq<nat> {
    if accepted == 0 then []
    else Unflushed(accepted - 1, written) + if accepted - 1 in written then [] else [accepted - 1]
  }

  ghost predicate Increasing(s: seq<nat>) {
    forall i, j | 0 <= i < j < |s| :: s[i] < s[j]
  }

  lemma {:induction false} UnflushedIs(accepted: nat, written: set<nat>)
    ensures Increasing(Unflushed(accepted, written))
    ensures forall i: nat :: i in Unflushed(accepted, written) <==> i < accepted && i !in written
  {
    if accepted > 0 {
      UnflushedIs(accepted - 1, written);
      var before := Unflushed(accepted - 1, written);
      assert forall i | 0 <= i < |before| :: before[i] in before;
    }
  }

  lemma EmptyOrNot(s: seq<nat>)
    ensures s == [] <==> forall i: nat :: i !in s
  {
    if s != [] {
      assert s[0] in s;
    }
  }

  lemma InitOf(s: seq<nat>)
    requires Increasing(s) && s != []
    ensures Increasing(s[..|s| - 1])
    ensures forall i: nat :: i in s[..|s| - 1] <==> i in s && i < s[|s| - 1]
    ensures forall i: nat | i in s :: i <= s[|s| - 1]
  {
    var init := s[..|s| - 1];
    forall i: nat ensures i in init <==> i in s && i < s[|s| - 1] {
      assert s == init + [s[|s| - 1]];
    }
  }

  lemma {:induction false} IncreasingUnique(s: seq<nat>, t: seq<nat>)
    requires Increasing(s) && Increasing(t)
    requires forall i: nat :: i in s <==> i in t
    ensures s == t
  {
    EmptyOrNot(s);
    EmptyOrNot(t);
    if s != [] && t != [] {
      var m, n := |s| - 1, |t| - 1;
      InitOf(s);
      InitOf(t);
      assert s[m] in s && t[n] in t;
      assert s[m] == t[n];
      forall i: nat ensures i in s[..m] <==> i in t[..n] {
        assert i in s[..m] <==> i in s && i < s[m];
        assert i in t[..n] <==> i in t && i < t[n];
      }
      IncreasingUnique(s[..m], t[..n]);
      assert s == s[..m] + [s[m]] && t == t[..n] + [t[n]];
    }
  }

  /** Writing a batch from the middle takes exactly the batch out. */
  lemma WrittenBatch(accepted: nat, written: set<nat>, d: seq<nat>, b: seq<nat>, e: seq<nat>)
    requires Unflushed(accepted, written) == d + b + e
    ensures Unflushed(accepted, written + Elements(b)) == d + e
  {
    UnflushedIs(accepted, written);
    UnflushedIs(accepted, written + Elements(b));
    var all := d + b + e;
    assert forall i | 0 <= i < |d| :: (d + e)[i] == all[i];
    assert forall i | |d| <= i < |d + e| :: (d + e)[i] == all[i + |b|];
    assert forall l | 0 <= l < |b| :: b[l] == all[|d| + l];
    forall i: nat ensures i in d + e <==> i in all && i !in b {
      if i in d + e {
        var k :| 0 <= k < |d + e| && (d + e)[k] == i;
        var k' := if k < |d| then k else k + |b|;
        assert all[k'] == i;
      }
    }
    IncreasingUnique(Unflushed(accepted, written + Elements(b)), d + e);
  }

  // ── What every run keeps ─────────────────────────────────────────────────

  ghost predicate HoldsSuffix(s: State) {
    && Unflushed(s.accepted, s.written) == s.dropped + s.batch + s.buffer.entries
    && (forall i | i in s.written :: i < s.accepted)
    && (!s.flushing ==> s.batch == [])
  }

  ghost predicate Bounded(cfg: Config, s: State) {
    && (!s.due && (s.flushing || s.failures == 0) ==> |s.buffer.entries| <= cfg.flushThreshold - 1)
    && (!s.due && !s.flushing ==> |s.buffer.entries| <= Max(cfg.memoryCap, cfg.flushThreshold - 1))
  }

  ghost predicate TimerRight(s: State) {
    && (s.buffer.timerArmed ==> s.buffer.entries != [])
    && (s.failures == 0 || s.flushing ==> (s.buffer.entries != [] ==> s.buffer.timerArmed))
    && (s.flushing ==> s.batch != [])
    && (s.failures == 0 ==> s.dropped == [])
  }

  ghost predicate Sound(cfg: Config, s: State) {
    HoldsSuffix(s) && Bounded(cfg, s) && TimerRight(s)
  }

  lemma AddHolds(cfg: Config, s: State)
    requires Checked(cfg) == cfg && HoldsSuffix(s)
    ensures HoldsSuffix(Step(cfg, s, Add))
  {
    assert s.dropped + s.batch + s.buffer.entries + [s.accepted] == s.dropped + s.batch + (s.buffer.entries + [s.accepted]);
  }

  lemma FlushFailHolds(cfg: Config, s: State)
    requires Checked(cfg) == cfg && HoldsSuffix(s)
    ensures HoldsSuffix(Step(cfg, s, FlushFail))
  {
    var all := s.batch + s.buffer.entries;
    var kept := Newest(all, cfg.memoryCap);
    assert all == all[..|all| - |kept|] + kept;
    assert s.dropped + s.batch + s.buffer.entries == s.dropped + all[..|all| - |kept|] + [] + kept;
  }

  lemma StepHolds(cfg: Config, s: State, e: Event)
    requires Checked(cfg) == cfg && HoldsSuffix(s) && Enabled(s, e)
    ensures HoldsSuffix(Step(cfg, s, e))
  {
    match e
    case Add => AddHolds(cfg, s);
    case FlushStart =>
      assert s.dropped + [] + s.buffer.entries == s.dropped + s.buffer.entries + [];
    case FlushOk => {
      WrittenBatch(s.accepted, s.written, s.dropped, s.batch, s.buffer.entries);
      UnflushedIs(s.accepted, s.written);
      assert s.dropped + [] + s.buffer.entries == s.dropped + s.buffer.entries;
      forall i | i in s.batch ensures i < s.accepted {
        assert i in s.dropped + s.batch + s.buffer.entries;
      }
    }
    case FlushFail => FlushFailHolds(cfg, s);
    case Close =>
  }

  lemma StepSound(cfg: Config, s: State, e: Event)
    requires Checked(cfg) == cfg && Sound(cfg, s) && Enabled(s, e)
    ensures Sound(cfg, Step(cfg, s, e))
  {
    StepHolds(cfg, s, e);
  }

  lemma {:induction false} RunSound(cfg: Config, s: State, events: seq<Event>)
    requires Checked(cfg) == cfg && Sound(cfg, s) && CanRun(cfg, s, events)
    ensures Sound(cfg, Run(cfg, s, events))
    decreases |events|
  {
    if events != [] {
      StepSound(cfg, s, events[0]);
      RunSound(cfg, Step(cfg, s, events[0]), events[1..]);
    }
  }

  /** The buffer always holds, in order, the last of the entries that are not flushed; what is
      missing in front is in flight or was dropped by the cap.  When no flush runs or is due, its
      length is bounded; and until a flush fails nothing is dropped and the buffer is non-empty
      exactly when the timer is armed. */
  lemma BufferHoldsSuffix(cfg: Config, events: seq<Event>)
    requires Checked(cfg) == cfg && CanRun(cfg, STARTED, events)
    ensures var s := Run(cfg, STARTED, events);
            && Unflushed(s.accepted, s.written) == s.dropped + s.batch + s.buffer.entries
            && (!s.flushing && !s.due ==> |s.buffer.entries| <= Max(cfg.memoryCap, cfg.flushThreshold - 1))
            && (s.failures == 0 ==> s.dropped == [] && (s.buffer.entries != [] <==> s.buffer.timerArmed))
  {
    RunSound(cfg, STARTED, events);
  }

  // ── When the timer is left off ───────────────────────────────────────────

  ghost predicate TimerOff(s: State) {
    s.buffer.entries != [] && !s.buffer.timerArmed
  }

  predicate Decides(e: Event) {
    e.FlushStart? || e.FlushFail?
  }

  /** The last flush to start or fail is a failure, and no entry was accepted while it ran. */
  ghost predicate LeftOff(cfg: Config, s: State, events: seq<Event>)
    requires cfg.memoryCap > 0 && CanRun(cfg, s, events)
    decreases |events|
  {
    events != [] &&
    (if exists e | e in events[1..] :: Decides(e)
     then LeftOff(cfg, Step(cfg, s, events[0]), events[1..])
     else events[0].FlushFail? && s.buffer.entries == [])
  }

  /** With no flush started or failed, the timer stays off exactly when it was. */
  lemma {:induction false} QuietKeepsTimer(cfg: Config, s: State, events: seq<Event>)
    requires Checked(cfg) == cfg && Sound(cfg, s) && CanRun(cfg, s, events)
    requires forall e | e in events :: !Decides(e)
    ensures TimerOff(Run(cfg, s, events)) <==> TimerOff(s)
    decreases |events|
  {
    if events != [] {
      assert events[0] in events;
      StepSound(cfg, s, events[0]);
      QuietKeepsTimer(cfg, Step(cfg, s, events[0]), events[1..]);
    }
  }

  /** Entries wait without a timer exactly when the last flush to start or fail is a failure
      during which nothing was accepted. */
  lemma {:induction false} TimerOffExactly(cfg: Config, s: State, events: seq<Event>)
    requires Checked(cfg) == cfg && Sound(cfg, s) && CanRun(cfg, s, events)
    requires TimerOff(s) ==> exists e | e in events :: Decides(e)
    ensures TimerOff(Run(cfg, s, events)) <==> LeftOff(cfg, s, events)
    decreases |events|
  {
    if events != [] {
      var e, rest := events[0], events[1..];
      StepSound(cfg, s, e);
      if exists r | r in rest :: Decides(r) {
        TimerOffExactly(cfg, Step(cfg, s, e), rest);
      } else {
        QuietKeepsTimer(cfg, Step(cfg, s, e), rest);
        assert events == [e] + rest;
      }
    }
  }
}
