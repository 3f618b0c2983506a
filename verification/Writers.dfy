/** The Lance writer of either build: the one in the server's own process, or the client of the
    Python process.  What the replay of the pending log may rely on is the same for both. */
module Writers {
  import opened Wrappers
  import opened Sql
  import opened LanceTables
  import opened LanceWriting
  import opened LanceSidecar

  class Writer {
    const lance: Lance
    const native: LanceWriter
    const client: SidecarWriter
    const commandLine: bool
    /** What happens to each command on its way to the Python process. */
    const env: nat -> Env
    var calls: nat

    constructor (lance: Lance, native: LanceWriter, client: SidecarWriter, commandLine: bool, env: nat -> Env)
      requires native.lance == lance && client.sidecar.lance == lance
      ensures Valid() && this.lance == lance && this.commandLine == commandLine && this.env == env
      ensures this.native == native && this.client == client
    {
      this.lance, this.native, this.client := lance, native, client;
      this.commandLine, this.env, calls := commandLine, env, 0;
    }

    ghost predicate Valid() {
      native.lance == lance && client.sidecar.lance == lance
    }

    /** A command after the n-th has got no answer, and it was the latest. */
    ghost predicate UnansweredSince(n: nat)
      reads this
    {
      commandLine && n < calls && Unanswerable(env(calls - 1))
    }

    /** One update; a failing one may have been carried out. */
    method MarkAllRead(feed: string) returns (ok: bool, ghost applied: bool)
      requires Valid()
      modifies lance, client`alive, `calls
      ensures lance.settings == old(lance.settings)
      ensures lance.articles ==
        if applied then UpdatedArticles(old(lance.articles), UnreadInFeed(feed), SET_READ) else old(lance.articles)
      ensures ok ==> applied
      ensures lance.step >= old(lance.step) && calls >= old(calls)
      ensures ok || lance.FailedSince(old(lance.step)) || UnansweredSince(old(calls))
    {
      if commandLine {
        ok, applied := client.MarkAllRead(feed, env(calls));
        calls := calls + 1;
      } else {
        ok := native.MarkAllRead(feed);
        applied := ok;
      }
    }

    method FlushOverrides(overrides: map<string, Override>) returns (ok: bool, ghost done: set<string>)
      requires Valid()
      modifies lance, client`alive, `calls
      ensures lance.settings == old(lance.settings)
      ensures lance.articles == Overridden(old(lance.articles), overrides, done)
      ensures ok ==> done == overrides.Keys
      ensures done <= overrides.Keys
      ensures forall a, b | a in overrides && b in overrides && overrides[a] == overrides[b] :: a in done <==> b in done
      ensures lance.step >= old(lance.step) && calls >= old(calls)
      ensures ok || lance.FailedSince(old(lance.step)) || UnansweredSince(old(calls))
    {
      if commandLine {
        ok, done := client.FlushOverrides(overrides, env(calls));
        calls := calls + 1;
      } else {
        ok, done := native.FlushOverrides(overrides);
      }
    }

    method PutSettingsBatch(values: map<string, string>) returns (ok: bool, ghost done: set<string>)
      requires Valid()
      modifies lance, client`alive, `calls
      ensures lance.articles == old(lance.articles)
      ensures lance.settings == WithSettings(old(lance.settings), values, done)
      ensures ok ==> done == values.Keys
      ensures done <= values.Keys
      ensures forall j, k | j in values && k in values && values[j] == values[k] :: j in done <==> k in done
      ensures lance.step >= old(lance.step) && calls >= old(calls)
      ensures ok || lance.FailedSince(old(lance.step)) || UnansweredSince(old(calls))
    {
      if commandLine {
        ok, done := client.PutSettingsBatch(values, env(calls));
        calls := calls + 1;
      } else {
        ok, done := native.PutSettingsBatch(values);
      }
    }
  }

  /** The process cannot be started, or no attempt at the command gets an answer. */
  predicate Unanswerable(env: Env) {
    !env.starts || (!env.first.Answered? && (!env.restarts || !env.second.Answered?))
  }
}
