/** The buffered log writer: entries wait in memory and leave in batches; a batch that could not
    be written is put back in front, and the oldest entries are dropped above the memory cap. */
module LogBuffering {
  datatype Config = Config(flushThreshold: int, flushIntervalSecs: int, memoryCap: int)

  /** Non-positive values are replaced by the defaults. */
  function Checked(cfg: Config): Config {
    Config(if cfg.flushThreshold <= 0 then 20 else cfg.flushThreshold,
           if cfg.flushIntervalSecs <= 0 then 30 else cfg.flushIntervalSecs,
           if cfg.memoryCap <= 0 then 100000 else cfg.memoryCap)
  }

  function Newest<T>(entries: seq<T>, n: nat): seq<T> {
    if |entries| > n then entries[|entries| - n..] else entries
  }

  class LogBuffer<T> {
    const cfg: Config
    var entries: seq<T>
    var timerArmed: bool
    var stopped: bool

    constructor (cfg: Config)
      ensures this.cfg == Checked(cfg) && entries == [] && !timerArmed && !stopped
      ensures this.cfg.flushThreshold == (if cfg.flushThreshold > 0 then cfg.flushThreshold else 20)
      ensures this.cfg.flushIntervalSecs == (if cfg.flushIntervalSecs > 0 then cfg.flushIntervalSecs else 30)
      ensures this.cfg.memoryCap == (if cfg.memoryCap > 0 then cfg.memoryCap else 100000)
      ensures Valid()
    {
      this.cfg := Checked(cfg);
      entries, timerArmed, stopped := [], false, false;
    }

    ghost predicate Valid() {
      cfg.flushThreshold > 0 && cfg.flushIntervalSecs > 0 && cfg.memoryCap > 0
    }

    ghost function Abs(): Buffer<T>
      reads this
    {
      Buffer(entries, timerArmed, stopped)
    }

    /** Accepts an entry unless closed; `shouldFlush` asks the caller to flush. */
    method Add(entry: T) returns (shouldFlush: bool)
      requires Valid()
      modifies this
      ensures Abs() == Added(old(Abs()), entry)
      ensures entries == if stopped then old(entries) else old(entries) + [entry]
      ensures shouldFlush == (!old(stopped) && |old(entries)| + 1 >= cfg.flushThreshold)
    {
      if stopped {
        return false;
      }
      entries := entries + [entry];
      shouldFlush := |entries| >= cfg.flushThreshold;
      StartTimerLocked();
    }

    method StartTimerLocked()
      modifies `timerArmed
      ensures timerArmed == (old(timerArmed) || (|entries| == 1 && cfg.flushIntervalSecs > 0))
    {
      if |entries| == 1 && !timerArmed && cfg.flushIntervalSecs > 0 {
        timerArmed := true;
      }
    }

    /** The first half of a flush: takes everything out of the buffer. */
    method TakeBatch() returns (batch: seq<T>)
      modifies this
      ensures Abs() == Taken(old(Abs()))
      ensures batch == old(entries)
    {
      if timerArmed {
        timerArmed := false;
      }
      batch := entries;
      entries := [];
    }

    /** The second half of a failed flush: puts the batch back in front and enforces the cap. */
    method PutBack(batch: seq<T>)
      requires Valid()
      modifies this
      ensures Abs() == Restored(old(Abs()), batch, cfg.memoryCap)
      ensures var all := batch + old(entries);
        && |entries| == (if |all| < cfg.memoryCap then |all| else cfg.memoryCap)
        && entries == all[|all| - |entries|..]
    {
      entries := batch + entries;
      if cfg.memoryCap > 0 && |entries| > cfg.memoryCap {
        var dropped := |entries| - cfg.memoryCap;
        entries := entries[dropped..];
      }
    }

    /** Closing twice does nothing; the first time the rest is taken for a last flush. */
    method Close() returns (batch: seq<T>)
      modifies this
      ensures stopped
      ensures batch == if old(stopped) then [] else old(entries)
      ensures Abs() == if old(stopped) then old(Abs()) else Taken(old(Abs()).(stopped := true))
    {
      if stopped {
        return [];
      }
      stopped := true;
      batch := TakeBatch();
    }
  }

  datatype Buffer<T> = Buffer(entries: seq<T>, timerArmed: bool, stopped: bool)

  function Added<T>(b: Buffer<T>, e: T): Buffer<T> {
    if b.stopped then b else Buffer(b.entries + [e], b.timerArmed || b.entries == [], false)
  }

  function Taken<T>(b: Buffer<T>): Buffer<T> {
    Buffer([], false, b.stopped)
  }

  function Restored<T>(b: Buffer<T>, batch: seq<T>, cap: nat): Buffer<T> {
    b.(entries := Newest(batch + b.entries, cap))
  }
}
