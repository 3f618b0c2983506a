/** The protocol with the query process: a statement and a sentinel are sent and two replies are
    read, by their order alone; a process that fails is restarted and the statement sent once more. */
module QueryProcess {
  import opened Wrappers

  type Row = map<string, string>
  type Rows = seq<Row>

  /** What the engine makes of a statement: rows, an error that prints nothing, or text that does
      not parse. */
  datatype Answer = Found(rows: Rows) | Rejected | Garbled

  /** What the reader hands on: rows, a text that did not parse, or the end of the output. */
  datatype Reply = Data(rows: Rows) | Bad | Broken

  datatype Result = Ok(rows: Rows) | Failed

  /** The engine's answer to the n-th statement sent to it. */
  type Engine = (nat, string) -> Answer

  const SENTINEL: Rows := [map["_s" := "__SENTINEL__"]]

  predicate IsSentinel(rows: Rows) {
    |rows| == 1 && "_s" in rows[0] && rows[0]["_s"] == "__SENTINEL__"
  }

  /** The answer of a process that has loaded the extension. */
  predicate SaysLance(rows: Rows) {
    rows != [] && "extension_name" in rows[0] && rows[0]["extension_name"] == "lance"
  }

  ghost predicate NoSentinelRows(engine: Engine) {
    forall n, sql | engine(n, sql).Found? ::
      var rows := engine(n, sql).rows;
      !(|rows| == 1 && "_s" in rows[0] && rows[0]["_s"] == "__SENTINEL__")
  }

  /** What happens while a statement is worked on: everything arrives in time; only the first
      `k` outstanding replies do, and the process lives; or the process dies after some replies
      and the reader hands on one or more errors for the end. */
  datatype Fate = Lives | Late(k: nat) | Dies(replies: nat, errors: nat)

  /** How a start goes: not at all; or the process is started, of the `written` last replies of
      the killed process and the error for its end the last `leaked` arrive only after the channel
      has been emptied, and the bootstrap and the two version queries meet their fates. */
  datatype Boot = NoStart(written: nat) | Starts(written: nat, leaked: nat, boot: Fate, v1: Fate, v2: Fate)

  /** `alive` and `stopped` are what the server believes; `running` is the process itself;
      `channel` holds the replies handed on and not read, `owed` those not handed on yet, and
      `sent` counts the statements. */
  datatype Proc = Proc(alive: bool, stopped: bool, running: bool, channel: seq<Reply>, owed: seq<Reply>, sent: nat)

  function ReplyOf(a: Answer): seq<Reply> {
    match a
    case Found(rows) => [Data(rows)]
    case Rejected => []
    case Garbled => [Bad]
  }

  function Take<T>(s: seq<T>, n: nat): seq<T> {
    if n < |s| then s[..n] else s
  }

  function Drop<T>(s: seq<T>, n: nat): seq<T> {
    if n < |s| then s[n..] else []
  }

  function Last<T>(s: seq<T>, n: nat): seq<T> {
    if n < |s| then s[|s| - n..] else s
  }

  function Ends(errors: nat): seq<Reply> {
    seq(errors, i => Broken) + [Broken]
  }

  /** The process after a statement that it answers with the given replies. */
  function Worked(p: Proc, replies: seq<Reply>, fate: Fate): Proc {
    var due := p.owed + replies;
    match fate
    case Lives => p.(channel := p.channel + due, owed := [], sent := p.sent + 1)
    case Late(k) => p.(channel := p.channel + Take(due, k), owed := Drop(due, k), sent := p.sent + 1)
    case Dies(k, errors) =>
      p.(channel := p.channel + p.owed + Take(replies, k) + Ends(errors), owed := [], sent := p.sent + 1, running := false)
  }

  /** The statement and the sentinel query. */
  function Sent(engine: Engine, p: Proc, sql: string, fate: Fate): Proc {
    Worked(p, ReplyOf(engine(p.sent, sql)) + [Data(SENTINEL)], fate)
  }

  /** Takes the next reply; an empty channel is a timeout. */
  function Read(p: Proc): (Option<Reply>, Proc) {
    if p.channel == [] then (None, p) else (Some(p.channel[0]), p.(channel := p.channel[1..]))
  }

  /** Reading the two replies of an exchange. */
  function Collected(s: Proc): (Result, Proc) {
    var (first, q) := Read(s);
    match first
    case Some(Data(rows)) =>
      if IsSentinel(rows) then (Ok([]), q)
      else
        var (second, r) := Read(q);
        (Ok(rows), match second case Some(Data(_)) => r case _ => r.(alive := false))
    case _ => (Failed, q)
  }

  function Exchanged(engine: Engine, p: Proc, sql: string, fate: Fate): (Result, Proc) {
    if !p.running then (Failed, p) else Collected(Sent(engine, p, sql, fate))
  }

  /** Killing a process: its reader still owes what was written, and the error for the end. */
  function Killed(p: Proc, written: nat): Proc {
    if p.running then p.(alive := false, running := false, owed := Take(p.owed, written) + [Broken])
    else p.(alive := false)
  }

  const VERIFY := "SELECT extension_name"
  const VERSION := "SELECT version() AS v"
  const EXTENSION := "SELECT extension_version"

  /** A new process over an emptied channel into which the old reader may still write. */
  function Launched(p: Proc, leaked: nat): Proc {
    p.(alive := true, running := true, channel := Last(p.owed, leaked), owed := [])
  }

  /** The bootstrap: one statement without a sentinel, whose answer must name the extension. */
  function Booted(engine: Engine, p: Proc, fate: Fate): (bool, Proc) {
    var (r, q) := Read(Worked(p, ReplyOf(engine(p.sent, VERIFY)), fate));
    if r.Some? && r.value.Data? && SaysLance(r.value.rows) then (true, q) else (false, Killed(q, |q.owed|))
  }

  /** The version queries may fail unnoticed. */
  function Versioned(engine: Engine, p: Proc, v1: Fate, v2: Fate): Proc {
    Exchanged(engine, Exchanged(engine, p, VERSION, v1).1, EXTENSION, v2).1
  }

  function Started(engine: Engine, p: Proc, boot: Boot): (bool, Proc) {
    match boot
    case NoStart(_) => (false, p)
    case Starts(_, leaked, fate, v1, v2) =>
      var (ok, q) := Booted(engine, Launched(p, leaked), fate);
      if ok then (true, Versioned(engine, q, v1, v2)) else (false, q)
  }

  function Restarted(engine: Engine, p: Proc, boot: Boot): (bool, Proc) {
    if p.alive then (true, p) else Started(engine, Killed(p, boot.written), boot)
  }

  /** The environment of one query: the start before it if needed, the first attempt, the
      restart after a failed attempt, and the second attempt. */
  datatype Env = Env(before: Boot, first: Fate, between: Boot, second: Fate)

  /** What the second attempt is made on, if there is one. */
  function Retried(engine: Engine, p: Proc, sql: string, env: Env): Option<Proc> {
    var (up, q) := Restarted(engine, p, env.before);
    if p.stopped || !up then None
    else
      var (r, q1) := Exchanged(engine, q, sql, env.first);
      if r.Ok? then None
      else
        var (up2, q2) := Restarted(engine, q1.(alive := false), env.between);
        if up2 then Some(q2) else None
  }

  function Queried(engine: Engine, p: Proc, sql: string, env: Env): (Result, Proc) {
    if p.stopped then (Failed, p)
    else
      var (up, q) := Restarted(engine, p, env.before);
      if !up then (Failed, q)
      else
        var (r1, q1) := Exchanged(engine, q, sql, env.first);
        if r1.Ok? then (r1, q1)
        else
          var (up2, q2) := Restarted(engine, q1.(alive := false), env.between);
          if !up2 then (Failed, q2)
          else Exchanged(engine, q2, sql, env.second)
  }

  // ── The process object ───────────────────────────────────────────────────

  class DuckDBProcess {
    var alive: bool
    var stoppedForUpgrade: bool
    var running: bool
    var resultCh: seq<Reply>
    var owed: seq<Reply>
    var sent: nat
    const engine: Engine

    constructor (engine: Engine)
      ensures this.engine == engine && Abs() == NEVER_STARTED
    {
      this.engine := engine;
      alive, stoppedForUpgrade, running, resultCh, owed, sent := false, false, false, [], [], 0;
    }

    ghost function Abs(): Proc
      reads this
    {
      Proc(alive, stoppedForUpgrade, running, resultCh, owed, sent)
    }

    method ReadResultTimeout() returns (r: Option<Reply>)
      modifies `resultCh
      ensures (r, Abs()) == Read(old(Abs()))
    {
      if |resultCh| == 0 {
        return None;
      }
      r := Some(resultCh[0]);
      resultCh := resultCh[1..];
    }

    /** The process works on what was written to it, and the reader hands on its replies. */
    method Work(replies: seq<Reply>, fate: Fate)
      modifies `resultCh, `owed, `sent, `running
      ensures Abs() == Worked(old(Abs()), replies, fate)
    {
      sent := sent + 1;
      var due := owed + replies;
      match fate {
        case Lives =>
          resultCh, owed := resultCh + due, [];
        case Late(k) =>
          resultCh, owed := resultCh + Take(due, k), Drop(due, k);
        case Dies(k, errors) =>
          resultCh, owed := resultCh + owed + Take(replies, k) + Ends(errors), [];
          running := false;
      }
    }

    method SendAndRead(sql: string, fate: Fate) returns (r: Result)
      modifies this
      ensures (r, Abs()) == Exchanged(engine, old(Abs()), sql, fate)
    {
      if !running {
        return Failed;
      }
      Work(ReplyOf(engine(sent, sql)) + [Data(SENTINEL)], fate);
      var realResult := ReadResultTimeout();
      if realResult.None? || !realResult.value.Data? {
        return Failed;
      }
      if IsSentinel(realResult.value.rows) {
        return Ok([]);
      }
      var sentinel := ReadResultTimeout();
      if sentinel.None? || !sentinel.value.Data? {
        alive := false;
      }
      return Ok(realResult.value.rows);
    }

    method Kill(written: nat)
      modifies `alive, `running, `owed
      ensures Abs() == Killed(old(Abs()), written)
    {
      if running {
        owed := Take(owed, written) + [Broken];
      }
      alive, running := false, false;
    }

    method Start(boot: Boot) returns (ok: bool)
      modifies this
      ensures (ok, Abs()) == Started(engine, old(Abs()), boot)
    {
      if boot.NoStart? {
        return false;
      }
      alive, running := true, true;
      while |resultCh| > 0
        invariant Abs() == old(Abs()).(alive := true, running := true, channel := resultCh)
        decreases |resultCh|
      {
        resultCh := resultCh[1..];
      }
      resultCh, owed := Last(owed, boot.leaked), [];
      Work(ReplyOf(engine(sent, VERIFY)), boot.boot);
      var result := ReadResultTimeout();
      if result.None? || !result.value.Data? {
        Kill(|owed|);
        return false;
      }
      if !SaysLance(result.value.rows) {
        Kill(|owed|);
        return false;
      }
      var version := SendAndRead(VERSION, boot.v1);
      var extension := SendAndRead(EXTENSION, boot.v2);
      return true;
    }

    method Restart(boot: Boot) returns (ok: bool)
      modifies this
      ensures (ok, Abs()) == Restarted(engine, old(Abs()), boot)
    {
      if alive {
        return true;
      }
      Kill(boot.written);
      ok := Start(boot);
    }

    method Query(sql: string, env: Env) returns (r: Result)
      modifies this
      ensures (r, Abs()) == Queried(engine, old(Abs()), sql, env)
    {
      if stoppedForUpgrade {
        return Failed;
      }
      if !alive {
        var up := Restart(env.before);
        if !up {
          return Failed;
        }
      }
      r := SendAndRead(sql, env.first);
      if r.Failed? {
        alive := false;
        var up := Restart(env.between);
        if !up {
          return Failed;
        }
        r := SendAndRead(sql, env.second);
      }
    }

    method GracefulRestart(boot: Boot) returns (ok: bool)
      modifies this
      ensures (ok, Abs()) == Restarted(engine, old(Abs()).(alive := false, stopped := false), boot)
    {
      alive := false;
      stoppedForUpgrade := false;
      ok := Restart(boot);
    }

    method StopForUpgrade(written: nat)
      modifies this
      ensures Abs() == Killed(old(Abs()), written).(stopped := true)
    {
      Kill(written);
      stoppedForUpgrade := true;
    }

    method StartAfterUpgrade(boot: Boot) returns (ok: bool)
      modifies this
      ensures !old(stoppedForUpgrade) ==> !ok && Abs() == old(Abs())
      ensures old(stoppedForUpgrade) ==> (ok, Abs()) == Restarted(engine, old(Abs()).(stopped := false), boot)
    {
      if !stoppedForUpgrade {
        return false;
      }
      stoppedForUpgrade := false;
      ok := Restart(boot);
    }
  }

  // ── One exchange ─────────────────────────────────────────────────────────

  /** While the process runs, every reply has been read. */
  ghost predicate Quiet(p: Proc) {
    p.running ==> p.channel == [] && p.owed == []
  }

  /** Nothing is unread of a process that is believed alive. */
  ghost predicate InStep(p: Proc) {
    p.alive ==> Quiet(p)
  }

  /** The statement is answered with text that parses, and all of it in time; or the process dies. */
  predicate Smooth(a: Answer, fate: Fate) {
    match fate
    case Lives => !a.Garbled?
    case Late(k) => !a.Garbled? && k >= |ReplyOf(a)| + 1
    case Dies(_, _) => true
  }

  /** The answer does not parse, or nothing arrives in time, and the process lives. */
  predicate Hangs(a: Answer, fate: Fate) {
    !fate.Dies? && (a.Garbled? || fate == Late(0))
  }

  /** One exchange with a process that owes nothing: it is left quiet exactly when the exchange is
      smooth, and it is left unread and believed alive exactly when the exchange hangs; the rows
      are the engine's answer to this statement, none when it is rejected. */
  lemma ExchangeExact(engine: Engine, p: Proc, sql: string, fate: Fate)
    requires NoSentinelRows(engine) && p.running && Quiet(p)
    ensures var (r, q) := Exchanged(engine, p, sql, fate);
      var a := engine(p.sent, sql);
      && q.stopped == p.stopped && q.sent == p.sent + 1 && q.running == !fate.Dies?
      && (Quiet(q) <==> Smooth(a, fate))
      && (p.alive ==> (InStep(q) <==> !Hangs(a, fate)))
      && (r.Ok? ==> !a.Garbled? && r.rows == if a.Found? then a.rows else [])
      && (r.Ok? ==> !Hangs(a, fate)) && (!fate.Dies? ==> (r.Failed? <==> Hangs(a, fate)))
  {
    match fate
    case Lives => ExchangeAlive(engine, p, sql, fate, 2);
    case Late(k) => ExchangeAlive(engine, p, sql, fate, k);
    case Dies(k, errors) => ExchangeDead(engine, p, sql, k, errors);
  }

  lemma ExchangeAlive(engine: Engine, p: Proc, sql: string, fate: Fate, k: nat)
    requires NoSentinelRows(engine) && p.running && Quiet(p) && fate == (if fate.Lives? && k == 2 then Lives else Late(k))
    ensures var (r, q) := Exchanged(engine, p, sql, fate);
      var a := engine(p.sent, sql);
      && q.stopped == p.stopped && q.sent == p.sent + 1 && q.running
      && (Quiet(q) <==> Smooth(a, fate))
      && (p.alive ==> (InStep(q) <==> !Hangs(a, fate)))
      && (r.Ok? <==> !Hangs(a, fate)) && (r.Ok? ==> r.rows == if a.Found? then a.rows else [])
  {
    hide Collected;
    var a := engine(p.sent, sql);
    var replies := ReplyOf(a) + [Data(SENTINEL)];
    var s := Sent(engine, p, sql, fate);
    assert p.owed + replies == replies;
    assert s.channel == Take(replies, k) && s.owed == Drop(replies, k);
    CollectLate(s, a, k);
  }

  lemma ExchangeDead(engine: Engine, p: Proc, sql: string, k: nat, errors: nat)
    requires NoSentinelRows(engine) && p.running && Quiet(p)
    ensures var (r, q) := Exchanged(engine, p, sql, Dies(k, errors));
      var a := engine(p.sent, sql);
      && q.stopped == p.stopped && q.sent == p.sent + 1 && !q.running
      && (r.Ok? ==> !a.Garbled? && r.rows == if a.Found? then a.rows else [])
  {
    hide Collected;
    var a := engine(p.sent, sql);
    var replies := ReplyOf(a) + [Data(SENTINEL)];
    var s := Sent(engine, p, sql, Dies(k, errors));
    assert s.channel == Take(replies, k) + Ends(errors);
    CollectDead(s, a, k, errors);
  }

  lemma CollectLate(s: Proc, a: Answer, k: nat)
    requires var replies := ReplyOf(a) + [Data(SENTINEL)]; s.channel == Take(replies, k) && s.owed == Drop(replies, k)
    requires a.Found? ==> !IsSentinel(a.rows)
    ensures var (r, q) := Collected(s);
      var hangs := a.Garbled? || k == 0;
      && q.stopped == s.stopped && q.sent == s.sent && q.running == s.running
      && (q.channel == [] && q.owed == [] <==> !a.Garbled? && k >= |ReplyOf(a)| + 1)
      && (r.Ok? <==> !hangs) && (r.Ok? ==> r.rows == if a.Found? then a.rows else [])
      && q.alive == (s.alive && !(a.Found? && k == 1))
  {
    ReplyTails(a);
  }

  lemma CollectDead(s: Proc, a: Answer, k: nat, errors: nat)
    requires s.channel == Take(ReplyOf(a) + [Data(SENTINEL)], k) + Ends(errors)
    requires a.Found? ==> !IsSentinel(a.rows)
    ensures var (r, q) := Collected(s);
      && q.stopped == s.stopped && q.sent == s.sent && q.running == s.running
      && (r.Ok? ==> !a.Garbled? && k > 0 && r.rows == if a.Found? then a.rows else [])
  {
    var replies := ReplyOf(a) + [Data(SENTINEL)];
    if k == 0 {
      assert s.channel[0] == Ends(errors)[0] == Broken;
    } else {
      assert s.channel[0] == replies[0];
    }
  }

  lemma ReplyTails(a: Answer)
    ensures var replies := ReplyOf(a) + [Data(SENTINEL)];
      && replies[1..] == (if a.Rejected? then [] else [Data(SENTINEL)])
      && (!a.Rejected? ==> replies[1..][1..] == [] && Take(replies, 1) == [replies[0]])
  {
    assert [Data(SENTINEL)][1..] == [];
  }

  // ── Out of step ──────────────────────────────────────────────────────────

  /** A running process owes replies; the last of them is the answer to a sentinel. */
  ghost predicate Behind(p: Proc) {
    var due := p.channel + p.owed;
    p.running && due != [] && due[|due| - 1] == Data(SENTINEL)
  }

  /** A process that is behind stays behind while it lives, and what a query on it returns was
      printed for an earlier statement: no rows when that was a sentinel's, and otherwise rows. */
  lemma BehindStays(engine: Engine, p: Proc, sql: string, fate: Fate)
    requires Behind(p) && !fate.Dies?
    ensures var (r, q) := Exchanged(engine, p, sql, fate);
      && Behind(q)
      && (r.Ok? ==> var first := (p.channel + p.owed)[0];
                    first.Data? && r.rows == if IsSentinel(first.rows) then [] else first.rows)
  {
    hide Collected, Worked, ReplyOf;
    var replies := ReplyOf(engine(p.sent, sql)) + [Data(SENTINEL)];
    var due, s := p.channel + p.owed, Sent(engine, p, sql, fate);
    WorkedDue(p, replies, fate);
    var n := CollectedRest(s);
    assert IsSentinel(SENTINEL);
    FirstDue(s.channel, s.owed, due, replies);
    ShiftedDue(s.channel, s.owed, due, replies, n);
  }

  lemma FirstDue(channel: seq<Reply>, owed: seq<Reply>, due: seq<Reply>, replies: seq<Reply>)
    requires channel + owed == due + replies && due != []
    ensures channel != [] ==> channel[0] == due[0]
  {
    assert channel != [] ==> channel[0] == (channel + owed)[0];
    assert due[0] == (due + replies)[0];
  }

  lemma ShiftedDue(channel: seq<Reply>, owed: seq<Reply>, due: seq<Reply>, replies: seq<Reply>, n: nat)
    requires channel + owed == due + replies && n <= |channel| && n <= |due| && replies != []
    ensures var rest := channel[n..] + owed; rest != [] && rest[|rest| - 1] == replies[|replies| - 1]
  {
    assert channel[n..] + owed == (channel + owed)[n..];
    assert (due + replies)[n..] == due[n..] + replies;
  }

  lemma WorkedDue(p: Proc, replies: seq<Reply>, fate: Fate)
    requires !fate.Dies?
    ensures var s := Worked(p, replies, fate);
      s.running == p.running && s.channel + s.owed == p.channel + p.owed + replies
  {
    if fate.Late? {
      TakeDrop(p.owed + replies, fate.k);
    }
    assert p.channel + (p.owed + replies) == p.channel + p.owed + replies;
  }

  /** How many replies are read, and what the result is. */
  lemma CollectedRest(s: Proc) returns (n: nat)
    ensures var (r, q) := Collected(s);
      && n <= |s.channel| && q.channel == s.channel[n..] && q.owed == s.owed && q.running == s.running && n <= 2
      && (n == 2 ==> s.channel[0].Data? && !IsSentinel(s.channel[0].rows))
      && (r.Ok? ==> n > 0 && s.channel[0].Data?
                    && r.rows == if IsSentinel(s.channel[0].rows) then [] else s.channel[0].rows)
  {
    n := |s.channel| - |Collected(s).1.channel|;
  }

  lemma TakeDrop<T>(s: seq<T>, n: nat)
    ensures Take(s, n) + Drop(s, n) == s
  {
  }

  // ── Starts ───────────────────────────────────────────────────────────────

  /** The first reply of the old reader that arrives after the channel has been emptied. */
  function FirstLeaked(p: Proc, boot: Boot): Option<Reply>
    requires boot.Starts?
  {
    var ch := Last(Killed(p, boot.written).owed, boot.leaked);
    if ch == [] then None else Some(ch[0])
  }

  predicate Accepted(r: Reply) {
    r.Data? && SaysLance(r.rows)
  }

  /** The new process dies on the way; or no late reply of the old reader passes for the answer of
      the bootstrap, and if the bootstrap is answered the version queries are smooth. */
  predicate Clean(engine: Engine, p: Proc, boot: Boot) {
    match boot
    case NoStart(_) => true
    case Starts(_, _, fate, v1, v2) =>
      fate.Dies? || v1.Dies? || v2.Dies? ||
      (match FirstLeaked(p, boot)
       case Some(late) => !Accepted(late)
       case None =>
         var a := engine(p.sent, VERIFY);
         !(a.Found? && SaysLance(a.rows)) || fate == Late(0) ||
         (Smooth(engine(p.sent + 1, VERSION), v1) && Smooth(engine(p.sent + 2, EXTENSION), v2)))
  }

  lemma BootExact(engine: Engine, p: Proc, leaked: nat, fate: Fate)
    requires !p.running
    ensures var (ok, q) := Booted(engine, Launched(p, leaked), fate);
      var late := Last(p.owed, leaked);
      var a := engine(p.sent, VERIFY);
      && q.stopped == p.stopped && q.sent == p.sent + 1
      && (!ok ==> !q.running)
      && (late != [] ==> (ok <==> late[0].Data? && SaysLance(late[0].rows)))
      && (late == [] && ok ==> a.Found? && SaysLance(a.rows) && q.alive && q.running == !fate.Dies? && Quiet(q))
      && (late == [] && !ok ==> !(a.Found? && SaysLance(a.rows)) || fate == Late(0) || fate.Dies?)
      && (late == [] && a.Found? && SaysLance(a.rows) && !fate.Dies? ==> (ok <==> fate != Late(0)))
  {
    hide SaysLance, ReplyOf, Worked, Last, Read;
    var launched := Launched(p, leaked);
    var s := Worked(launched, ReplyOf(engine(p.sent, VERIFY)), fate);
    WorkedKeeps(launched, ReplyOf(engine(p.sent, VERIFY)), fate);
    ReadKeeps(s);
    if launched.channel == [] {
      FirstReply(launched, engine(p.sent, VERIFY), fate);
    }
  }

  lemma WorkedKeeps(p: Proc, replies: seq<Reply>, fate: Fate)
    ensures var s := Worked(p, replies, fate);
      && s.alive == p.alive && s.stopped == p.stopped && s.sent == p.sent + 1 && s.running == (p.running && !fate.Dies?)
      && (p.channel != [] ==> s.channel != [] && s.channel[0] == p.channel[0])
  {
  }

  lemma ReadKeeps(p: Proc)
    ensures var (r, q) := Read(p);
      && q == p.(channel := q.channel) && (r.Some? <==> p.channel != []) && (r.Some? ==> r.value == p.channel[0])
  {
  }

  /** What arrives first at an empty channel, and what is left then. */
  lemma FirstReply(p: Proc, a: Answer, fate: Fate)
    requires p.running && p.channel == [] && p.owed == []
    ensures var (r, q) := Read(Worked(p, ReplyOf(a), fate));
      && (r.Some? && r.value.Data? ==> a.Found? && r.value == Data(a.rows) && (q.running ==> q.channel == [] && q.owed == []))
      && (a.Found? && !fate.Dies? ==> r == if fate == Late(0) then None else Some(Data(a.rows)))
  {
    var replies := ReplyOf(a);
    var s := Worked(p, replies, fate);
    match fate
    case Lives => assert s.channel == replies && s.owed == [];
    case Late(k) => assert s.channel == Take(replies, k) && s.owed == Drop(replies, k);
    case Dies(k, errors) =>
      assert s.channel == Take(replies, k) + Ends(errors);
      assert |Take(replies, k)| == 0 ==> s.channel[0] == Ends(errors)[0] == Broken;
  }

  /** The version queries of a process that owes nothing leave it owing nothing, or behind. */
  lemma VersionsExact(engine: Engine, p: Proc, v1: Fate, v2: Fate)
    requires NoSentinelRows(engine) && Quiet(p)
    ensures var q := Versioned(engine, p, v1, v2);
      var quiet := !p.running || v1.Dies? || v2.Dies? ||
                   (Smooth(engine(p.sent, VERSION), v1) && Smooth(engine(p.sent + 1, EXTENSION), v2));
      && q.stopped == p.stopped && q.sent >= p.sent
      && (quiet ==> Quiet(q)) && (!quiet ==> Behind(q))
  {
    hide Exchanged, Smooth, Behind;
    NotRunning(engine, p, VERSION, v1);
    if p.running {
      QuietOrBehind(engine, p, VERSION, v1);
      VersionAfter(engine, Exchanged(engine, p, VERSION, v1).1, EXTENSION, v2);
    } else {
      NotRunning(engine, p, EXTENSION, v2);
    }
  }

  lemma NotRunning(engine: Engine, p: Proc, sql: string, fate: Fate)
    ensures !p.running ==> Exchanged(engine, p, sql, fate) == (Failed, p)
  {
  }

  lemma VersionAfter(engine: Engine, p: Proc, sql: string, fate: Fate)
    requires NoSentinelRows(engine) && (Quiet(p) || Behind(p))
    ensures var q := Exchanged(engine, p, sql, fate).1;
      var quiet := !p.running || fate.Dies? || (Quiet(p) && Smooth(engine(p.sent, sql), fate));
      && q.stopped == p.stopped && q.sent >= p.sent
      && (quiet ==> Quiet(q)) && (!quiet ==> Behind(q))
  {
    hide Smooth;
    NotRunning(engine, p, sql, fate);
    if p.running && Quiet(p) {
      QuietOrBehind(engine, p, sql, fate);
    } else if p.running {
      SentCounts(engine, p, sql, fate);
      if !fate.Dies? {
        BehindStays(engine, p, sql, fate);
      }
    }
  }

  lemma SentCounts(engine: Engine, p: Proc, sql: string, fate: Fate)
    requires p.running
    ensures var q := Exchanged(engine, p, sql, fate).1;
      q.stopped == p.stopped && q.sent == p.sent + 1 && q.running == !fate.Dies?
  {
  }

  lemma QuietOrBehind(engine: Engine, p: Proc, sql: string, fate: Fate)
    requires NoSentinelRows(engine) && p.running && Quiet(p)
    ensures var q := Exchanged(engine, p, sql, fate).1;
      && q.stopped == p.stopped && q.sent == p.sent + 1 && q.running == !fate.Dies?
      && (Smooth(engine(p.sent, sql), fate) ==> Quiet(q)) && (!Smooth(engine(p.sent, sql), fate) ==> Behind(q))
  {
    ExchangeExact(engine, p, sql, fate);
    var q := Exchanged(engine, p, sql, fate).1;
    if !Smooth(engine(p.sent, sql), fate) {
      RestBehind(engine, p, sql, fate);
    }
  }

  lemma RestBehind(engine: Engine, p: Proc, sql: string, fate: Fate)
    requires p.running && p.channel == [] && p.owed == [] && !fate.Dies?
    ensures var q := Exchanged(engine, p, sql, fate).1; q.channel + q.owed == [] || Behind(q)
  {
    hide Collected, Worked, ReplyOf;
    var replies := ReplyOf(engine(p.sent, sql)) + [Data(SENTINEL)];
    var s := Sent(engine, p, sql, fate);
    WorkedDue(p, replies, fate);
    var n := CollectedRest(s);
    assert [] + replies == replies;
    assert s.channel[n..] + s.owed == (s.channel + s.owed)[n..];
  }

  /** A running process owes replies, and more than one reply of rows. */
  ghost predicate Backlog(p: Proc) {
    var due := p.channel + p.owed;
    p.running && due != [] && (|due| == 1 ==> !due[0].Data? || IsSentinel(due[0].rows))
  }

  lemma BacklogStays(engine: Engine, p: Proc, sql: string, fate: Fate)
    requires Backlog(p) && !fate.Dies?
    ensures Behind(Exchanged(engine, p, sql, fate).1) && Backlog(Exchanged(engine, p, sql, fate).1)
  {
    hide Collected, Worked, ReplyOf;
    var replies := ReplyOf(engine(p.sent, sql)) + [Data(SENTINEL)];
    var due, s := p.channel + p.owed, Sent(engine, p, sql, fate);
    WorkedDue(p, replies, fate);
    var n := CollectedRest(s);
    assert IsSentinel(SENTINEL);
    FirstDue(s.channel, s.owed, due, replies);
    ShiftedDue(s.channel, s.owed, due, replies, n);
  }

  /** The last reply that the reader of a dead process still owes is the error for its end. */
  ghost predicate OwedEnds(p: Proc) {
    !p.running && p.owed != [] ==> p.owed[|p.owed| - 1] == Broken
  }

  /** A late reply taken for the answer of the bootstrap leaves a backlog behind it. */
  lemma LeakBacklog(engine: Engine, p: Proc, leaked: nat, fate: Fate)
    requires !p.running && OwedEnds(p) && !fate.Dies?
    requires var late := Last(p.owed, leaked); late != [] && Accepted(late[0])
    ensures Booted(engine, Launched(p, leaked), fate).0 && Backlog(Booted(engine, Launched(p, leaked), fate).1)
  {
    var late := Last(p.owed, leaked);
    var replies := ReplyOf(engine(p.sent, VERIFY));
    var launched := Launched(p, leaked);
    var s := Worked(launched, replies, fate);
    var q := Booted(engine, launched, fate).1;
    WorkedDue(launched, replies, fate);
    assert late[|late| - 1] == p.owed[|p.owed| - 1] == Broken;
    assert late + [] == late && s.channel + s.owed == late + replies;
    assert s.channel != [] && s.channel[0] == late[0];
    assert q.channel + q.owed == (s.channel + s.owed)[1..];
    assert (late + replies)[1..] == late[1..] + replies;
    assert late[1..][|late| - 2] == Broken;
  }

  /** After a start the process owes nothing if the start was clean, and is behind if it was not. */
  lemma StartExact(engine: Engine, p: Proc, boot: Boot)
    requires NoSentinelRows(engine) && !p.alive && OwedEnds(p)
    ensures var q := Restarted(engine, p, boot).1;
      (Clean(engine, p, boot) ==> Quiet(q)) && (!Clean(engine, p, boot) ==> Behind(q))
    ensures Quiet(Restarted(engine, p, boot).1) <==> Clean(engine, p, boot)
    ensures InStep(Restarted(engine, p, boot).1) <==> Clean(engine, p, boot) || !Restarted(engine, p, boot).1.alive
  {
    hide Smooth, Booted, Exchanged, Accepted;
    var dead := Killed(p, boot.written);
    if Clean(engine, p, boot) {
      StartQuiet(engine, p, boot);
    } else {
      BootExact(engine, dead, boot.leaked, boot.boot);
      var (ok, q) := Booted(engine, Launched(dead, boot.leaked), boot.boot);
      if FirstLeaked(p, boot).Some? {
        LeakBacklog(engine, dead, boot.leaked, boot.boot);
        BacklogStays(engine, q, VERSION, boot.v1);
        BacklogStays(engine, Exchanged(engine, q, VERSION, boot.v1).1, EXTENSION, boot.v2);
      } else {
        VersionsExact(engine, q, boot.v1, boot.v2);
      }
    }
  }

  /** After a clean start the process owes nothing. */
  lemma StartQuiet(engine: Engine, p: Proc, boot: Boot)
    requires NoSentinelRows(engine) && !p.alive && Clean(engine, p, boot)
    ensures var (up, q) := Restarted(engine, p, boot);
      Quiet(q) && q.stopped == p.stopped && q.sent >= p.sent && (!up ==> !q.running)
  {
    hide Smooth, Booted, Exchanged;
    var dead := Killed(p, boot.written);
    match boot
    case NoStart(_) =>
    case Starts(_, leaked, fate, v1, v2) => {
      BootExact(engine, dead, leaked, fate);
      var (ok, q) := Booted(engine, Launched(dead, leaked), fate);
      if ok {
        if FirstLeaked(p, boot).Some? {
          DyingStart(engine, dead, leaked, fate, v1, v2);
        } else {
          VersionsExact(engine, q, v1, v2);
        }
      }
    }
  }

  /** A process that dies on the way is not running after the start. */
  lemma DyingStart(engine: Engine, p: Proc, leaked: nat, fate: Fate, v1: Fate, v2: Fate)
    requires !p.running && (fate.Dies? || v1.Dies? || v2.Dies?)
    ensures var (ok, q) := Booted(engine, Launched(p, leaked), fate);
      ok ==> var r := Versioned(engine, q, v1, v2); !r.running && r.stopped == p.stopped && r.sent >= p.sent
  {
    hide Exchanged;
    var q := Booted(engine, Launched(p, leaked), fate).1;
    NotRunning(engine, q, VERSION, v1);
    if q.running {
      SentCounts(engine, q, VERSION, v1);
    }
    var r := Exchanged(engine, q, VERSION, v1).1;
    NotRunning(engine, r, EXTENSION, v2);
    if r.running {
      SentCounts(engine, r, EXTENSION, v2);
    }
  }

  // ── Queries ──────────────────────────────────────────────────────────────

  /** The rows answer this very statement, sent in the given range. */
  ghost predicate OwnRows(engine: Engine, lo: nat, hi: nat, sql: string, rows: Rows) {
    exists n | lo <= n < hi :: engine(n, sql) == Found(rows) || (engine(n, sql) == Rejected && rows == [])
  }

  /** The starts that the query makes are clean. */
  predicate CleanQuery(engine: Engine, p: Proc, sql: string, env: Env) {
    p.stopped ||
    (&& (!p.alive ==> Clean(engine, p, env.before))
     && var (up, q) := Restarted(engine, p, env.before);
        var (r, q1) := Exchanged(engine, q, sql, env.first);
        (up && r.Failed? ==> Clean(engine, q1.(alive := false), env.between)))
  }

  /** There is a second attempt, on a running process, and it hangs. */
  predicate SecondHangs(engine: Engine, p: Proc, sql: string, env: Env) {
    match Retried(engine, p, sql, env)
    case Some(q) => q.alive && q.running && Hangs(engine(q.sent, sql), env.second)
    case None => false
  }

  /** One query over clean starts, through any crash, timeout, unparsable text, restart and retry:
      the rows answer this statement; and the process is left in step exactly when there is no
      second attempt that hangs. */
  lemma QueryExact(engine: Engine, p: Proc, sql: string, env: Env)
    requires NoSentinelRows(engine) && InStep(p) && CleanQuery(engine, p, sql, env)
    ensures var (r, q) := Queried(engine, p, sql, env);
      && q.sent >= p.sent
      && (r.Ok? ==> OwnRows(engine, p.sent, q.sent, sql, r.rows))
      && (InStep(q) <==> !SecondHangs(engine, p, sql, env))
  {
    hide Clean, Restarted, Smooth;
    if !p.stopped {
      UpQuiet(engine, p, env.before);
      var (up, q) := Restarted(engine, p, env.before);
      if up {
        AttemptExact(engine, q, sql, env.first);
        var (r1, q1) := Exchanged(engine, q, sql, env.first);
        if r1.Failed? {
          UpQuiet(engine, q1.(alive := false), env.between);
          var (up2, q2) := Restarted(engine, q1.(alive := false), env.between);
          if up2 {
            AttemptExact(engine, q2, sql, env.second);
          }
        }
      }
    }
  }

  lemma UpQuiet(engine: Engine, p: Proc, boot: Boot)
    requires NoSentinelRows(engine) && InStep(p) && (!p.alive ==> Clean(engine, p, boot))
    ensures var (up, q) := Restarted(engine, p, boot);
      Quiet(q) && q.stopped == p.stopped && q.sent >= p.sent
  {
    if !p.alive {
      StartQuiet(engine, p, boot);
    }
  }

  lemma AttemptExact(engine: Engine, p: Proc, sql: string, fate: Fate)
    requires NoSentinelRows(engine) && Quiet(p)
    ensures var (r, q) := Exchanged(engine, p, sql, fate);
      && q.stopped == p.stopped && q.sent >= p.sent
      && (r.Ok? ==> OwnRows(engine, p.sent, q.sent, sql, r.rows) && InStep(q))
      && (InStep(q) <==> !(p.alive && p.running && Hangs(engine(p.sent, sql), fate)))
  {
    if p.running {
      ExchangeExact(engine, p, sql, fate);
      var a := engine(p.sent, sql);
      var r := Exchanged(engine, p, sql, fate).0;
      if r.Ok? {
        assert a == Found(r.rows) || (a == Rejected && r.rows == []);
      }
    }
  }

  // ── Runs ─────────────────────────────────────────────────────────────────

  datatype Event =
    | Query(sql: string, env: Env)
    | Crash(errors: nat)
    | GracefulRestart(boot: Boot)
    | StopForUpgrade(written: nat)
    | StartAfterUpgrade(boot: Boot)

  function Step(engine: Engine, p: Proc, e: Event): Proc {
    match e
    case Query(sql, env) => Queried(engine, p, sql, env).1
    case Crash(errors) => if p.running then p.(running := false, owed := p.owed + Ends(errors)) else p
    case GracefulRestart(boot) => Restarted(engine, p.(alive := false, stopped := false), boot).1
    case StopForUpgrade(written) => Killed(p, written).(stopped := true)
    case StartAfterUpgrade(boot) => if p.stopped then Restarted(engine, p.(stopped := false), boot).1 else p
  }

  function Run(engine: Engine, p: Proc, events: seq<Event>): Proc
    decreases |events|
  {
    if events == [] then p else Run(engine, Step(engine, p, events[0]), events[1..])
  }

  /** The starts that the event makes are clean. */
  predicate CleanEvent(engine: Engine, p: Proc, e: Event) {
    match e
    case Query(sql, env) => CleanQuery(engine, p, sql, env)
    case GracefulRestart(boot) => Clean(engine, p.(alive := false, stopped := false), boot)
    case StartAfterUpgrade(boot) => p.stopped && !p.alive ==> Clean(engine, p.(stopped := false), boot)
    case _ => true
  }

  predicate CleanRun(engine: Engine, p: Proc, events: seq<Event>)
    decreases |events|
  {
    events == [] || (CleanEvent(engine, p, events[0]) && CleanRun(engine, Step(engine, p, events[0]), events[1..]))
  }

  predicate EventHangs(engine: Engine, p: Proc, e: Event) {
    e.Query? && !p.stopped && SecondHangs(engine, p, e.sql, e.env)
  }

  predicate NoneHangs(engine: Engine, p: Proc, events: seq<Event>)
    decreases |events|
  {
    events == [] || (!EventHangs(engine, p, events[0]) && NoneHangs(engine, Step(engine, p, events[0]), events[1..]))
  }

  ghost predicate AlwaysInStep(engine: Engine, p: Proc, events: seq<Event>)
    decreases |events|
  {
    InStep(p) && (events == [] || AlwaysInStep(engine, Step(engine, p, events[0]), events[1..]))
  }

  lemma StepExact(engine: Engine, p: Proc, e: Event)
    requires NoSentinelRows(engine) && InStep(p) && CleanEvent(engine, p, e)
    ensures InStep(Step(engine, p, e)) <==> !EventHangs(engine, p, e)
    ensures Step(engine, p, e).sent >= p.sent
  {
    hide Clean, Restarted, CleanQuery, SecondHangs, Queried;
    match e
    case Query(sql, env) =>
      if p.stopped {
        StoppedQuery(engine, p, sql, env);
      } else {
        QueryExact(engine, p, sql, env);
      }
    case GracefulRestart(boot) => UpQuiet(engine, p.(alive := false, stopped := false), boot);
    case StartAfterUpgrade(boot) =>
      if p.stopped {
        UpQuiet(engine, p.(stopped := false), boot);
      }
    case _ =>
  }

  lemma StoppedQuery(engine: Engine, p: Proc, sql: string, env: Env)
    requires p.stopped
    ensures Queried(engine, p, sql, env) == (Failed, p)
  {
  }

  /** Over every run with clean starts: the server is in step after every event if and only if no
      query has a second attempt that hangs. */
  lemma {:induction false} InStepExactly(engine: Engine, p: Proc, events: seq<Event>)
    requires NoSentinelRows(engine) && InStep(p) && CleanRun(engine, p, events)
    ensures AlwaysInStep(engine, p, events) <==> NoneHangs(engine, p, events)
    ensures NoneHangs(engine, p, events) ==> InStep(Run(engine, p, events)) && Run(engine, p, events).sent >= p.sent
    decreases |events|
  {
    hide InStep, Step, CleanEvent, EventHangs;
    if events != [] {
      StepExact(engine, p, events[0]);
      if !EventHangs(engine, p, events[0]) {
        InStepExactly(engine, Step(engine, p, events[0]), events[1..]);
      }
    }
  }

  const NEVER_STARTED := Proc(false, false, false, [], [], 0)

  /** In every run with clean starts in which no second attempt hangs, a query that succeeds
      returns the engine's answer to its own statement, sent after everything that earlier queries
      sent; and afterwards nothing is unread of a process believed alive exactly when its own
      second attempt does not hang either. */
  lemma EveryQueryGetsItsOwnRows(engine: Engine, events: seq<Event>, sql: string, env: Env)
    requires NoSentinelRows(engine) && CleanRun(engine, NEVER_STARTED, events) && NoneHangs(engine, NEVER_STARTED, events)
    requires CleanQuery(engine, Run(engine, NEVER_STARTED, events), sql, env)
    ensures var p := Run(engine, NEVER_STARTED, events);
            var (r, q) := Queried(engine, p, sql, env);
            && (r.Ok? ==> OwnRows(engine, p.sent, q.sent, sql, r.rows))
            && (InStep(q) <==> !SecondHangs(engine, p, sql, env))
  {
    InStepExactly(engine, NEVER_STARTED, events);
    QueryExact(engine, Run(engine, NEVER_STARTED, events), sql, env);
  }

  // ── Starts of every run ──────────────────────────────────────────────────

  lemma ExchangeOwedEnds(engine: Engine, p: Proc, sql: string, fate: Fate)
    requires OwedEnds(p)
    ensures OwedEnds(Exchanged(engine, p, sql, fate).1)
  {
  }

  lemma BootOwedEnds(engine: Engine, p: Proc, fate: Fate)
    requires OwedEnds(p) && p.running
    ensures OwedEnds(Booted(engine, p, fate).1)
  {
  }

  lemma RestartOwedEnds(engine: Engine, p: Proc, boot: Boot)
    requires OwedEnds(p)
    ensures OwedEnds(Restarted(engine, p, boot).1)
  {
    hide Booted, Exchanged;
    if !p.alive && boot.Starts? {
      var dead := Killed(p, boot.written);
      BootOwedEnds(engine, Launched(dead, boot.leaked), boot.boot);
      var q := Booted(engine, Launched(dead, boot.leaked), boot.boot).1;
      ExchangeOwedEnds(engine, q, VERSION, boot.v1);
      ExchangeOwedEnds(engine, Exchanged(engine, q, VERSION, boot.v1).1, EXTENSION, boot.v2);
    }
  }

  lemma StepOwedEnds(engine: Engine, p: Proc, e: Event)
    requires OwedEnds(p)
    ensures OwedEnds(Step(engine, p, e))
  {
    hide Restarted, Exchanged;
    match e
    case Query(sql, env) =>
      RestartOwedEnds(engine, p, env.before);
      var q := Restarted(engine, p, env.before).1;
      ExchangeOwedEnds(engine, q, sql, env.first);
      var q1 := Exchanged(engine, q, sql, env.first).1.(alive := false);
      RestartOwedEnds(engine, q1, env.between);
      ExchangeOwedEnds(engine, Restarted(engine, q1, env.between).1, sql, env.second);
    case GracefulRestart(boot) => RestartOwedEnds(engine, p.(alive := false, stopped := false), boot);
    case StartAfterUpgrade(boot) => RestartOwedEnds(engine, p.(stopped := false), boot);
    case _ =>
  }

  lemma {:induction false} RunOwedEnds(engine: Engine, p: Proc, events: seq<Event>)
    requires OwedEnds(p)
    ensures OwedEnds(Run(engine, p, events))
    decreases |events|
  {
    if events != [] {
      StepOwedEnds(engine, p, events[0]);
      RunOwedEnds(engine, Step(engine, p, events[0]), events[1..]);
    }
  }

  /** After any run, whatever was in step before: the process that a restart starts owes nothing if
      and only if the start is clean; if it is not, the next statement's first attempt returns, if
      the process outlives it, what was printed for an earlier one, and leaves it behind. */
  lemma RestartExact(engine: Engine, events: seq<Event>, boot: Boot, sql: string, fate: Fate)
    requires NoSentinelRows(engine) && !fate.Dies?
    ensures var p := Run(engine, NEVER_STARTED, events).(alive := false);
            var q := Restarted(engine, p, boot).1;
            var (r, q1) := Exchanged(engine, q, sql, fate);
      && (Quiet(q) <==> Clean(engine, p, boot))
      && (!Clean(engine, p, boot) ==>
            Behind(q1) && (r.Ok? ==> var first := (q.channel + q.owed)[0];
                                     first.Data? && r.rows == if IsSentinel(first.rows) then [] else first.rows))
  {
    hide Run, Restarted, Exchanged, Clean;
    RunOwedEnds(engine, NEVER_STARTED, events);
    var p := Run(engine, NEVER_STARTED, events).(alive := false);
    StartExact(engine, p, boot);
    if !Clean(engine, p, boot) {
      BehindStays(engine, Restarted(engine, p, boot).1, sql, fate);
    }
  }

  // ── When a query succeeds ────────────────────────────────────────────────

  /** The extension always loads, and the version queries print text that parses. */
  ghost predicate GoodStarts(engine: Engine) {
    && NoSentinelRows(engine)
    && (forall n :: engine(n, VERIFY).Found? && SaysLance(engine(n, VERIFY).rows))
    && (forall n :: !engine(n, VERSION).Garbled? && !engine(n, EXTENSION).Garbled?)
  }

  const SMOOTH_START := Starts(0, 0, Lives, Lives, Lives)

  function Calm(first: Fate, second: Fate): Env {
    Env(SMOOTH_START, first, SMOOTH_START, second)
  }

  lemma SmoothStart(engine: Engine, p: Proc)
    requires GoodStarts(engine) && !p.alive
    ensures var (up, q) := Restarted(engine, p, SMOOTH_START);
      up && q == Proc(true, p.stopped, true, [], [], p.sent + 3)
  {
    var dead := Killed(p, 0);
    BootExact(engine, dead, 0, Lives);
    var q := Booted(engine, Launched(dead, 0), Lives).1;
    assert Last(dead.owed, 0) == [];
    ExchangeExact(engine, q, VERSION, Lives);
    var q1 := Exchanged(engine, q, VERSION, Lives).1;
    ExchangeAlive(engine, q, VERSION, Lives, 2);
    StaysAlive(engine, q, VERSION);
    StaysAlive(engine, q1, EXTENSION);
    ExchangeExact(engine, q1, EXTENSION, Lives);
  }

  /** Whatever the process was doing: a graceful restart, and a start after a stop for an upgrade
      with any queries in between, leave a new process with nothing unread if its start works. */
  lemma UpgradeRestarts(engine: Engine, p: Proc, written: nat, sql: string, env: Env)
    requires GoodStarts(engine)
    ensures Step(engine, p, GracefulRestart(SMOOTH_START)) == Proc(true, false, true, [], [], p.sent + 3)
    ensures var stopped := Step(engine, p, StopForUpgrade(written));
      && !stopped.running && Queried(engine, stopped, sql, env) == (Failed, stopped)
      && Step(engine, stopped, StartAfterUpgrade(SMOOTH_START)) == Proc(true, false, true, [], [], p.sent + 3)
  {
    hide Restarted;
    SmoothStart(engine, p.(alive := false, stopped := false));
    SmoothStart(engine, Killed(p, written));
    StoppedQuery(engine, Step(engine, p, StopForUpgrade(written)), sql, env);
    assert Killed(p, written).(stopped := true).(stopped := false) == Killed(p, written).(stopped := false);
    SmoothStart(engine, Killed(p, written).(stopped := false));
  }

  lemma StaysAlive(engine: Engine, p: Proc, sql: string)
    requires NoSentinelRows(engine) && p.running && p.alive && Quiet(p)
    ensures Exchanged(engine, p, sql, Lives).1.alive
  {
    hide Collected;
    var a := engine(p.sent, sql);
    var replies := ReplyOf(a) + [Data(SENTINEL)];
    var s := Sent(engine, p, sql, Lives);
    assert s.channel == Take(replies, 2) && s.owed == Drop(replies, 2);
    CollectLate(s, a, 2);
  }

  /** With starts that work, a query on a server in step succeeds exactly when its first attempt
      does or its second one neither hangs nor dies before the answer. */
  lemma QuerySucceeds(engine: Engine, p: Proc, sql: string, first: Fate, second: Fate)
    requires GoodStarts(engine) && InStep(p) && !p.stopped && !second.Dies?
    ensures var (r, q) := Queried(engine, p, sql, Calm(first, second));
      r.Ok? <==> Retried(engine, p, sql, Calm(first, second)).None? || !SecondHangs(engine, p, sql, Calm(first, second))
  {
    hide Collected, Restarted, Queried, Retried;
    CalmStart(engine, p);
    var q := Restarted(engine, p, SMOOTH_START).1;
    Attempts(engine, p, sql, Calm(first, second));
    if q.running {
      ExchangeExact(engine, q, sql, first);
    }
    var (r, q1) := Exchanged(engine, q, sql, first);
    if r.Failed? {
      SmoothStart(engine, q1.(alive := false));
      ExchangeExact(engine, Restarted(engine, q1.(alive := false), SMOOTH_START).1, sql, second);
    }
  }

  lemma CalmStart(engine: Engine, p: Proc)
    requires GoodStarts(engine) && InStep(p)
    ensures var (up, q) := Restarted(engine, p, SMOOTH_START); up && Quiet(q) && q.stopped == p.stopped
  {
    if !p.alive {
      SmoothStart(engine, p);
    }
  }

  /** A query by its attempts. */
  lemma Attempts(engine: Engine, p: Proc, sql: string, env: Env)
    requires !p.stopped && Restarted(engine, p, env.before).0
    ensures var q := Restarted(engine, p, env.before).1;
      var (r1, q1) := Exchanged(engine, q, sql, env.first);
      var (up2, q2) := Restarted(engine, q1.(alive := false), env.between);
      && (r1.Ok? ==> Queried(engine, p, sql, env) == (r1, q1) && Retried(engine, p, sql, env).None?)
      && (r1.Failed? && up2 ==>
            Queried(engine, p, sql, env) == Exchanged(engine, q2, sql, env.second) && Retried(engine, p, sql, env) == Some(q2))
  {
    hide Restarted, Exchanged;
  }

  // ── Runs out of step ─────────────────────────────────────────────────────

  /** A server that owes one sentinel reply answers the next statement with no rows and the one
      after it with the rows of the statement before it. */
  lemma StaleSentinel(engine: Engine, p: Proc, b: string, c: string, rows: Rows)
    requires p == Proc(true, false, true, [Data(SENTINEL)], [], p.sent)
    requires engine(p.sent, b) == Found(rows) && !IsSentinel(rows)
    ensures var (r1, p1) := Queried(engine, p, b, Calm(Lives, Lives));
            var (r2, p2) := Queried(engine, p1, c, Calm(Lives, Lives));
      r1 == Ok([]) && r2 == Ok(rows)
  {
    var s := Sent(engine, p, b, Lives);
    assert s.channel == [Data(SENTINEL), Data(rows), Data(SENTINEL)];
    assert s.channel[1..] == [Data(rows), Data(SENTINEL)];
    var p1 := p.(channel := [Data(rows), Data(SENTINEL)], sent := p.sent + 1);
    assert Queried(engine, p, b, Calm(Lives, Lives)) == (Ok([]), p1);
    var s1 := Sent(engine, p1, c, Lives);
    assert s1.channel == [Data(rows), Data(SENTINEL)] + (ReplyOf(engine(p1.sent, c)) + [Data(SENTINEL)]);
    assert s1.channel[1..][0] == Data(SENTINEL);
  }

  /** Two texts that do not parse for one statement: from then on every answer is that of the
      statement before, and the server does not notice. */
  lemma UnparsedTextShifts(engine: Engine, a: string, b: string, c: string, rows: Rows)
    requires GoodStarts(engine) && (forall n :: engine(n, a) == Garbled)
    requires (forall n :: engine(n, b) == Found(rows)) && !IsSentinel(rows)
    ensures var p := Run(engine, NEVER_STARTED, [Query(a, Calm(Lives, Lives))]);
            var (r1, p1) := Queried(engine, p, b, Calm(Lives, Lives));
            var (r2, p2) := Queried(engine, p1, c, Calm(Lives, Lives));
      r1 == Ok([]) && r2 == Ok(rows)
  {
    hide Restarted, Queried, Exchanged;
    var env := Calm(Lives, Lives);
    var q, q2 := Proc(true, false, true, [], [], 3), Proc(true, false, true, [], [], 7);
    SmoothStart(engine, NEVER_STARTED);
    HungAttempt(engine, q, a);
    SmoothStart(engine, q.(channel := [Data(SENTINEL)], sent := 4, alive := false));
    HungAttempt(engine, q2, a);
    Attempts(engine, NEVER_STARTED, a, env);
    RunOfOne(engine, NEVER_STARTED, Query(a, env));
    StaleSentinel(engine, q2.(channel := [Data(SENTINEL)], sent := 8), b, c, rows);
  }

  lemma RunOfOne(engine: Engine, p: Proc, e: Event)
    ensures Run(engine, p, [e]) == Step(engine, p, e)
  {
    assert [e][1..] == [];
  }

  lemma HungAttempt(engine: Engine, p: Proc, a: string)
    requires p.running && p.channel == [] && p.owed == [] && engine(p.sent, a) == Garbled
    ensures Exchanged(engine, p, a, Lives) == (Failed, p.(channel := [Data(SENTINEL)], sent := p.sent + 1))
  {
    assert [] + ([] + ([Bad] + [Data(SENTINEL)])) == [Bad, Data(SENTINEL)];
    assert [Bad, Data(SENTINEL)][1..] == [Data(SENTINEL)];
  }

  /** A version query that times out during a start leaves its answer to the first query. */
  lemma LateVersionIsTaken(engine: Engine, rows: Rows, sql: string)
    requires GoodStarts(engine) && engine(2, EXTENSION) == Found(rows)
    ensures var env := Env(Starts(0, 0, Lives, Lives, Late(0)), Lives, SMOOTH_START, Lives);
      Queried(engine, NEVER_STARTED, sql, env).0 == Ok(rows)
  {
    BootExact(engine, NEVER_STARTED, 0, Lives);
    var q := Booted(engine, Launched(NEVER_STARTED, 0), Lives).1;
    ExchangeExact(engine, q, VERSION, Lives);
    var q1 := Exchanged(engine, q, VERSION, Lives).1;
    StaysAlive(engine, q, VERSION);
    var owed := [Data(rows), Data(SENTINEL)];
    var q2 := q1.(owed := owed, sent := 3);
    NothingInTime(engine, q1, EXTENSION, rows);
    OwedTaken(engine, q2, sql, rows);
    hide Exchanged, Booted;
    assert Restarted(engine, NEVER_STARTED, Starts(0, 0, Lives, Lives, Late(0))) == (true, q2);
  }

  lemma NothingInTime(engine: Engine, p: Proc, sql: string, rows: Rows)
    requires p.running && p.channel == [] && p.owed == [] && engine(p.sent, sql) == Found(rows)
    ensures Exchanged(engine, p, sql, Late(0)) == (Failed, p.(owed := [Data(rows), Data(SENTINEL)], sent := p.sent + 1))
  {
    var owed := [Data(rows), Data(SENTINEL)];
    assert [] + ([Data(rows)] + [Data(SENTINEL)]) == owed && Take(owed, 0) == [] && Drop(owed, 0) == owed;
  }

  lemma OwedTaken(engine: Engine, p: Proc, sql: string, rows: Rows)
    requires p.running && p.channel == [] && p.owed == [Data(rows), Data(SENTINEL)] && !IsSentinel(rows)
    ensures Exchanged(engine, p, sql, Lives).0 == Ok(rows)
  {
    var s := Sent(engine, p, sql, Lives);
    assert s.channel == p.owed + (ReplyOf(engine(p.sent, sql)) + [Data(SENTINEL)]);
    assert s.channel[0] == Data(rows) && s.channel[1..][0] == Data(SENTINEL);
  }

  /** A start into whose channel a late reply gets fails, unless the reply itself passes for the
      answer of the bootstrap. */
  lemma LeakFailsStart(engine: Engine, p: Proc, boot: Boot)
    requires !p.alive && boot.Starts? && FirstLeaked(p, boot).Some?
    ensures var late := FirstLeaked(p, boot).value;
      Restarted(engine, p, boot).0 <==> late.Data? && SaysLance(late.rows)
  {
    BootExact(engine, Killed(p, boot.written), boot.leaked, boot.boot);
  }

  /** Without such a reply a start succeeds exactly when the answer of the new process to the
      bootstrap arrives in time and its first row names the extension. */
  lemma StartSucceeds(engine: Engine, p: Proc, boot: Boot)
    requires !p.alive && boot.Starts? && FirstLeaked(p, boot).None? && !boot.boot.Dies?
    ensures Restarted(engine, p, boot).0 <==>
      var a := engine(p.sent, VERIFY);
      && boot.boot != Late(0) && a.Found? && |a.rows| > 0
      && "extension_name" in a.rows[0] && a.rows[0]["extension_name"] == "lance"
  {
    BootExact(engine, Killed(p, boot.written), boot.leaked, boot.boot);
  }

  /** Such a reply: a statement that asks for the extension times out twice, and a restart empties
      the channel before the old reader is done.  The next query is answered by the bootstrap. */
  lemma LateReplyIsMistaken(engine: Engine, a: string, b: string, rows: Rows, verify: Rows)
    requires GoodStarts(engine) && SaysLance(rows) && (forall n :: engine(n, a) == Found(rows))
    requires forall n :: engine(n, VERIFY) == Found(verify)
    ensures var events := [Query(a, Calm(Late(0), Late(0))), GracefulRestart(Starts(2, 3, Lives, Lives, Lives))];
      Queried(engine, Run(engine, NEVER_STARTED, events), b, Calm(Lives, Lives)).0 == Ok(verify)
  {
    hide Restarted, Queried;
    var restart := Starts(2, 3, Lives, Lives, Lives);
    var first := Query(a, Calm(Late(0), Late(0)));
    TimedOutTwice(engine, a, rows);
    var p := Proc(true, false, true, [], [Data(rows), Data(SENTINEL)], 8);
    LeakedVersions(engine, p.(alive := false), rows, verify);
    var q := Restarted(engine, p.(alive := false), restart).1;
    RunOfOne(engine, p, GracefulRestart(restart));
    assert [first, GracefulRestart(restart)][1..] == [GracefulRestart(restart)];
    assert Run(engine, NEVER_STARTED, [first, GracefulRestart(restart)]) == q;
    assert !IsSentinel(engine(0, VERIFY).rows);
    TwoWaiting(engine, q, b, verify);
    AliveQuery(engine, q, b);
  }

  lemma TwoWaiting(engine: Engine, p: Proc, b: string, rows: Rows)
    requires p.running && |p.channel| >= 2 && p.channel[0] == Data(rows) && p.channel[1].Data? && !IsSentinel(rows)
    ensures Exchanged(engine, p, b, Lives).0 == Ok(rows)
  {
    var s := Sent(engine, p, b, Lives);
    assert s.channel[0] == p.channel[0] && s.channel[1..][0] == p.channel[1];
  }

  lemma AliveQuery(engine: Engine, p: Proc, b: string)
    requires p.alive && !p.stopped && Exchanged(engine, p, b, Lives).0.Ok?
    ensures Queried(engine, p, b, Calm(Lives, Lives)) == Exchanged(engine, p, b, Lives)
  {
    hide Exchanged;
  }

  lemma TimedOutTwice(engine: Engine, a: string, rows: Rows)
    requires GoodStarts(engine) && (forall n :: engine(n, a) == Found(rows))
    ensures Step(engine, NEVER_STARTED, Query(a, Calm(Late(0), Late(0))))
         == Proc(true, false, true, [], [Data(rows), Data(SENTINEL)], 8)
  {
    hide Restarted, Exchanged, Queried;
    var owed := [Data(rows), Data(SENTINEL)];
    SmoothStart(engine, NEVER_STARTED);
    var q := Proc(true, false, true, [], [], 3);
    NothingInTime(engine, q, a, rows);
    NothingInTime(engine, q.(sent := 7), a, rows);
    SmoothStart(engine, q.(owed := owed, sent := 4, alive := false));
    Attempts(engine, NEVER_STARTED, a, Calm(Late(0), Late(0)));
  }

  lemma LeakedBoot(engine: Engine, p: Proc, rows: Rows, verify: Rows)
    requires SaysLance(rows) && engine(p.sent, VERIFY) == Found(verify)
    requires p == Proc(false, false, true, [], [Data(rows), Data(SENTINEL)], p.sent)
    ensures Booted(engine, Launched(Killed(p, 2), 3), Lives)
         == (true, Proc(true, false, true, [Data(SENTINEL), Broken, Data(verify)], [], p.sent + 1))
  {
    var dead := Killed(p, 2);
    assert dead.owed == [Data(rows), Data(SENTINEL), Broken] && Last(dead.owed, 3) == dead.owed;
    var s := Worked(Launched(dead, 3), [Data(verify)], Lives);
    assert s.channel == [Data(rows), Data(SENTINEL), Broken, Data(verify)];
    assert s.channel[1..] == [Data(SENTINEL), Broken, Data(verify)];
  }

  lemma LeakedVersions(engine: Engine, p: Proc, rows: Rows, verify: Rows)
    requires GoodStarts(engine) && SaysLance(rows) && (forall n :: engine(n, VERIFY) == Found(verify))
    requires p == Proc(false, false, true, [], [Data(rows), Data(SENTINEL)], p.sent)
    ensures var (up, q) := Restarted(engine, p, Starts(2, 3, Lives, Lives, Lives));
      && up && q.alive && q.running && !q.stopped && q.owed == [] && |q.channel| >= 2
      && q.channel[0] == Data(verify) && q.channel[1].Data?
  {
    hide Booted;
    LeakedBoot(engine, p, rows, verify);
    var q := Proc(true, false, true, [Data(SENTINEL), Broken, Data(verify)], [], p.sent + 1);
    var r1 := ReplyOf(engine(q.sent, VERSION)) + [Data(SENTINEL)];
    var s1 := Sent(engine, q, VERSION, Lives);
    assert s1.channel == [Data(SENTINEL), Broken, Data(verify)] + r1;
    assert s1.channel[1..] == [Broken, Data(verify)] + r1;
    var q1 := s1.(channel := [Broken, Data(verify)] + r1);
    assert Exchanged(engine, q, VERSION, Lives) == (Ok([]), q1);
    var r2 := ReplyOf(engine(q1.sent, EXTENSION)) + [Data(SENTINEL)];
    var s2 := Sent(engine, q1, EXTENSION, Lives);
    assert s2.channel == [Broken, Data(verify)] + r1 + r2;
    assert s2.channel[1..] == [Data(verify)] + r1 + r2;
    assert !engine(q.sent, VERSION).Garbled?;
  }
}
