/** The kernel: the reconciler that runs on every timer tick.  It watches the
    designation file, turns a change of roles into a batch of services to
    switch, retries failed switches for up to thirty minutes, and keeps a
    registry of the MariaDB services the driver reports, from which the
    health and readiness probes are answered.

    The registry and the retry queue are ordinary state here: the source's
    `sync.Map` and mutex are not modelled, and each drain of the queue runs
    without interleaving. */
module Kernel {
  import opened Wrappers
  import opened Text
  import opened Common
  import opened Effects
  import Config
  import opened KernelMariadb

  /** A `changeCollection`: services still to be switched, grouped by
      catalog, under a snapshot of the designation, with the time the batch
      was first created (milliseconds) and how often it was retried. */
  datatype Batch = Batch(services: Catalog2ServiceList, config: Config.CfgItem, startTime: int, loopCount: nat)

  /** How long a batch is retried: thirty minutes, in milliseconds. */
  const RetryWindow: int := 30 * 60 * 1000

  predicate Expired(b: Batch, now: int) {
    now - b.startTime > RetryWindow
  }

  /** Every queued snapshot names the roles, so the switch can read them. */
  predicate Switchable(q: seq<Batch>) {
    forall i :: 0 <= i < |q| ==> q[i].config.status.Some?
  }

  // ---------------------------------------------------------------------------
  // Retrying one batch

  /** How one service is switched: the run of `SwitchMariadb` for the
      service `name` under the snapshot `cfg`, started at position `n` of the
      trace.  The queue is described for any such function. */
  type Switching = (nat, string, Config.CfgItem) -> Run<Outcome>

  /** The switch for the package-wide values `g` at the time `now`. */
  type Switch = (Settings, int64) -> Switching

  /** `sw` is `SwitchMariadb` against the oracle `o`, wherever that is
      defined: when the answers are sound and the snapshot names the roles. */
  ghost predicate SwitchesBy(o: Oracle, sw: Switch) {
    forall g: Settings, now: int64, n: nat, name: string, cfg: Config.CfgItem
      {:trigger SwitchRun(o, n, name, cfg, g, now)} ::
      Answers(o, g.tmpPath) && cfg.status.Some? ==> sw(g, now)(n, name, cfg) == SwitchRun(o, n, name, cfg, g, now)
  }

  /** `SwitchMariadb` against `o`, answering without requests where it is
      not defined. */
  ghost function SwitchOf(o: Oracle): Switch {
    (g: Settings, now: int64) => (n: nat, name: string, cfg: Config.CfgItem) =>
      if Answers(o, g.tmpPath) && cfg.status.Some? then SwitchRun(o, n, name, cfg, g, now) else Run([], None)
  }

  /** The inner loop of `redoStatusChange`: switch `names` in order; the
      value is the names whose switch failed, in the same order. */
  function FailedRun(sw: Switching, n: nat, names: seq<string>, cfg: Config.CfgItem): Run<seq<string>>
    decreases |names|
  {
    if |names| == 0 then Run([], [])
    else
      var p := FailedRun(sw, n, names[..|names| - 1], cfg);
      var s := sw(n + |p.calls|, names[|names| - 1], cfg);
      Run(p.calls + s.calls, p.value + if s.value.Some? then [names[|names| - 1]] else [])
  }

  /** One more name, with its switch starting at position `k`. */
  lemma FailedSnoc(sw: Switching, n: nat, names: seq<string>, cfg: Config.CfgItem, i: nat, k: nat)
    requires i < |names| && k == n + |FailedRun(sw, n, names[..i], cfg).calls|
    ensures var p := FailedRun(sw, n, names[..i], cfg);
            var s := sw(k, names[i], cfg);
            FailedRun(sw, n, names[..i + 1], cfg) ==
              Run(p.calls + s.calls, p.value + if s.value.Some? then [names[i]] else [])
  {
    assert names[..i + 1][..i] == names[..i];
  }

  /** Where the switch of `names[i]` starts in the trace. */
  function SwitchOffset(sw: Switching, n: nat, names: seq<string>, cfg: Config.CfgItem, i: nat): nat
    requires i <= |names|
  {
    n + |FailedRun(sw, n, names[..i], cfg).calls|
  }

  /** The switch of `names[i]` failed. */
  predicate FailsAt(sw: Switching, n: nat, names: seq<string>, cfg: Config.CfgItem, i: nat)
    requires i < |names|
  {
    sw(SwitchOffset(sw, n, names, cfg, i), names[i], cfg).value.Some?
  }

  /** `a` is `b` with some elements left out. */
  predicate SubSeq(a: seq<string>, b: seq<string>)
    decreases |b|
  {
    if |a| == 0 then true
    else if |b| == 0 then false
    else (a[|a| - 1] == b[|b| - 1] && SubSeq(a[..|a| - 1], b[..|b| - 1])) || SubSeq(a, b[..|b| - 1])
  }

  lemma SubSeqSnoc(a: seq<string>, b: seq<string>, x: string)
    requires SubSeq(a, b)
    ensures SubSeq(a, b + [x]) && SubSeq(a + [x], b + [x])
  {
    assert (a + [x])[..|a|] == a && (b + [x])[..|b|] == b;
  }

  /** The last name is retried exactly when its switch failed. */
  lemma FailedLast(sw: Switching, n: nat, names: seq<string>, cfg: Config.CfgItem)
    requires |names| > 0
    ensures FailedRun(sw, n, names, cfg).value ==
              FailedRun(sw, n, names[..|names| - 1], cfg).value + if FailsAt(sw, n, names, cfg, |names| - 1) then [names[|names| - 1]] else []
  {
  }

  /** Dropping the last name changes neither where an earlier switch
      starts nor whether it fails. */
  lemma FailedEarlier(sw: Switching, n: nat, names: seq<string>, cfg: Config.CfgItem, i: nat)
    requires i < |names| - 1
    ensures FailsAt(sw, n, names, cfg, i) == FailsAt(sw, n, names[..|names| - 1], cfg, i)
  {
    assert names[..|names| - 1][..i] == names[..i];
  }

  /** The retried names keep their original order. */
  lemma {:induction false} FailedKeepsOrder(sw: Switching, n: nat, names: seq<string>, cfg: Config.CfgItem)
    ensures SubSeq(FailedRun(sw, n, names, cfg).value, names)
    decreases |names|
  {
    if |names| > 0 {
      var m := |names| - 1;
      var init := names[..m];
      FailedKeepsOrder(sw, n, init, cfg);
      FailedLast(sw, n, names, cfg);
      var p := FailedRun(sw, n, init, cfg).value;
      SubSeqSnoc(p, init, names[m]);
      assert init + [names[m]] == names;
      if FailsAt(sw, n, names, cfg, m) {
        assert FailedRun(sw, n, names, cfg).value == p + [names[m]];
      } else {
        assert FailedRun(sw, n, names, cfg).value == p;
      }
    }
  }

  /** A name is retried when, and only when, its switch failed. */
  lemma {:induction false} FailedIff(sw: Switching, n: nat, names: seq<string>, cfg: Config.CfgItem)
    ensures var failed := FailedRun(sw, n, names, cfg).value;
            (forall i :: 0 <= i < |names| && FailsAt(sw, n, names, cfg, i) ==> names[i] in failed) &&
            (forall x :: x in failed ==> exists i :: 0 <= i < |names| && names[i] == x && FailsAt(sw, n, names, cfg, i))
    decreases |names|
  {
    if |names| > 0 {
      var m := |names| - 1;
      var init := names[..m];
      FailedIff(sw, n, init, cfg);
      FailedLast(sw, n, names, cfg);
      var p := FailedRun(sw, n, init, cfg).value;
      var failed := FailedRun(sw, n, names, cfg).value;
      forall i | 0 <= i < |names| && FailsAt(sw, n, names, cfg, i)
        ensures names[i] in failed
      {
        if i < m {
          FailedEarlier(sw, n, names, cfg, i);
          assert init[i] == names[i];
        }
      }
      forall x | x in failed
        ensures exists i :: 0 <= i < |names| && names[i] == x && FailsAt(sw, n, names, cfg, i)
      {
        if x in p {
          var i :| 0 <= i < |init| && init[i] == x && FailsAt(sw, n, init, cfg, i);
          FailedEarlier(sw, n, names, cfg, i);
          assert names[i] == x && FailsAt(sw, n, names, cfg, i);
        } else {
          assert x == names[m] && FailsAt(sw, n, names, cfg, m);
        }
      }
    }
  }

  /** Nothing is retried exactly when every switch succeeded. */
  lemma {:induction false} FailedNone(sw: Switching, n: nat, names: seq<string>, cfg: Config.CfgItem)
    ensures FailedRun(sw, n, names, cfg).value == [] <==> forall i :: 0 <= i < |names| ==> !FailsAt(sw, n, names, cfg, i)
    decreases |names|
  {
    if |names| > 0 {
      var m := |names| - 1;
      FailedNone(sw, n, names[..m], cfg);
      FailedLast(sw, n, names, cfg);
      forall i | 0 <= i < m
        ensures FailsAt(sw, n, names, cfg, i) == FailsAt(sw, n, names[..m], cfg, i)
      {
        FailedEarlier(sw, n, names, cfg, i);
      }
    }
  }

  /** `redoStatusChange`: retry the MariaDB services of a batch under its
      snapshot; the failures, if any, form the next batch, with the same
      snapshot and start time and one more retry counted.  Other catalogs
      are never retried. */
  function RedoRun(sw: Switching, n: nat, b: Batch): Run<Option<Batch>> {
    if Mariadb !in b.services then Run([], None)
    else
      var s := FailedRun(sw, n, b.services[Mariadb], b.config);
      Run(s.calls, if |s.value| > 0 then Some(Batch(map[Mariadb := s.value], b.config, b.startTime, b.loopCount + 1)) else None)
  }

  /** A retried batch holds only MariaDB services, at least one, all from
      the original batch, in their order, and failed this time; it keeps the
      snapshot and the start time and counts one more retry.  A batch comes
      back exactly when some switch failed; one without MariaDB services
      makes no request and never comes back. */
  lemma RedoKeepsFailed(sw: Switching, n: nat, b: Batch)
    ensures var r := RedoRun(sw, n, b);
            (Mariadb !in b.services ==> r == Run([], None)) &&
            (Mariadb in b.services ==>
               var names := b.services[Mariadb];
               (r.value.None? <==> forall i :: 0 <= i < |names| ==> !FailsAt(sw, n, names, b.config, i)) &&
               (r.value.Some? ==>
                  var nb := r.value.value;
                  nb.services.Keys == {Mariadb} && |nb.services[Mariadb]| > 0 &&
                  SubSeq(nb.services[Mariadb], names) &&
                  (forall x :: x in nb.services[Mariadb] ==>
                     exists i :: 0 <= i < |names| && names[i] == x && FailsAt(sw, n, names, b.config, i)) &&
                  nb.config == b.config && nb.startTime == b.startTime && nb.loopCount == b.loopCount + 1))
  {
    if Mariadb in b.services {
      FailedKeepsOrder(sw, n, b.services[Mariadb], b.config);
      FailedIff(sw, n, b.services[Mariadb], b.config);
      FailedNone(sw, n, b.services[Mariadb], b.config);
    }
  }

  // ---------------------------------------------------------------------------
  // Draining the queue

  /** How one batch is retried: the run of `redoStatusChange` for the batch
      `b`, started at position `n` of the trace. */
  type Redoing = (nat, Batch) -> Run<Option<Batch>>

  /** `rd` retries a batch by switching its services with `sw`. */
  ghost predicate Redoes(rd: Redoing, sw: Switching) {
    forall n: nat, b: Batch {:trigger RedoRun(sw, n, b)} :: rd(n, b) == RedoRun(sw, n, b)
  }

  /** `rdr` gives, for every switch, the retry that uses it. */
  ghost predicate RedoesBy(rdr: Switching -> Redoing) {
    forall sw: Switching, n: nat, b: Batch {:trigger RedoRun(sw, n, b)} :: rdr(sw)(n, b) == RedoRun(sw, n, b)
  }

  /** `checkStatusRedo` over the queue `q`: retry every batch in order and
      keep a retried batch unless it is more than thirty minutes old. */
  function DrainRun(rd: Redoing, n: nat, q: seq<Batch>, now: int): Run<seq<Batch>>
    decreases |q|
  {
    if |q| == 0 then Run([], [])
    else
      var p := DrainRun(rd, n, q[..|q| - 1], now);
      var r := rd(n + |p.calls|, q[|q| - 1]);
      Run(p.calls + r.calls, p.value + if r.value.Some? && !Expired(r.value.value, now) then [r.value.value] else [])
  }

  /** One more batch, with its retry starting at position `k`. */
  lemma DrainSnoc(rd: Redoing, n: nat, q: seq<Batch>, now: int, i: nat, k: nat)
    requires i < |q| && k == n + |DrainRun(rd, n, q[..i], now).calls|
    ensures var p := DrainRun(rd, n, q[..i], now);
            var r := rd(k, q[i]);
            DrainRun(rd, n, q[..i + 1], now) ==
              Run(p.calls + r.calls, p.value + if r.value.Some? && !Expired(r.value.value, now) then [r.value.value] else [])
  {
    assert q[..i + 1][..i] == q[..i];
  }

  /** One batch survives a drain exactly when some of its switches failed
      and it is at most thirty minutes old. */
  lemma DrainOne(sw: Switching, rd: Redoing, n: nat, b: Batch, now: int)
    requires Redoes(rd, sw)
    ensures var d := DrainRun(rd, n, [b], now);
            var r := rd(n, b);
            d.calls == r.calls &&
            (|d.value| == 1 <==> r.value.Some? && now - b.startTime <= RetryWindow) &&
            (|d.value| != 1 ==> d.value == [])
  {
    assert [b][..0] == [];
    assert rd(n, b) == RedoRun(sw, n, b);
  }

  /** Every survivor of a drain is a batch of failed MariaDB services that
      is at most thirty minutes old and comes from a queued batch, with its
      snapshot and start time and one more retry; there are never more
      survivors than queued batches, and the survivors can be switched when
      the queue could. */
  lemma {:induction false} DrainSurvivors(sw: Switching, rd: Redoing, n: nat, q: seq<Batch>, now: int)
    requires Redoes(rd, sw)
    ensures var d := DrainRun(rd, n, q, now).value;
            |d| <= |q| && (Switchable(q) ==> Switchable(d)) &&
            forall j :: 0 <= j < |d| ==>
              !Expired(d[j], now) && d[j].services.Keys == {Mariadb} && |d[j].services[Mariadb]| > 0 &&
              exists i :: 0 <= i < |q| && d[j].config == q[i].config && d[j].startTime == q[i].startTime &&
                          d[j].loopCount == q[i].loopCount + 1
    decreases |q|
  {
    if |q| > 0 {
      var init := q[..|q| - 1];
      DrainSurvivors(sw, rd, n, init, now);
      var p := DrainRun(rd, n, init, now);
      var last := q[|q| - 1];
      var r := rd(n + |p.calls|, last);
      assert r == RedoRun(sw, n + |p.calls|, last);
      RedoKeepsFailed(sw, n + |p.calls|, last);
      var d := DrainRun(rd, n, q, now).value;
      assert d == p.value + if r.value.Some? && !Expired(r.value.value, now) then [r.value.value] else [];
      forall j | 0 <= j < |d|
        ensures exists i :: 0 <= i < |q| && d[j].config == q[i].config && d[j].startTime == q[i].startTime &&
                            d[j].loopCount == q[i].loopCount + 1
      {
        if j < |p.value| {
          var i :| 0 <= i < |init| && p.value[j].config == init[i].config && p.value[j].startTime == init[i].startTime &&
                   p.value[j].loopCount == init[i].loopCount + 1;
          assert q[i] == init[i];
        } else {
          assert d[j] == r.value.value;
        }
      }
      if Switchable(q) {
        assert Switchable(init);
      }
    }
  }

  /** The retry count of a batch does not change how it is retried. */
  lemma RedoIgnoresLoopCount(sw: Switching, n: nat, b: Batch, b': Batch)
    requires b' == b.(loopCount := b'.loopCount)
    ensures var r := RedoRun(sw, n, b);
            var r' := RedoRun(sw, n, b');
            r'.calls == r.calls && r'.value.None? == r.value.None? &&
            (r.value.Some? ==> r'.value.value == r.value.value.(loopCount := r'.value.value.loopCount))
  {
  }

  /** `b` is `a` with possibly other retry counts. */
  predicate UpToCounts(a: seq<Batch>, b: seq<Batch>) {
    |b| == |a| && forall i :: 0 <= i < |a| ==> b[i] == a[i].(loopCount := b[i].loopCount)
  }

  lemma UpToCountsAppend(a: seq<Batch>, b: seq<Batch>, c: seq<Batch>, d: seq<Batch>)
    requires UpToCounts(a, b) && UpToCounts(c, d)
    ensures UpToCounts(a + c, b + d)
  {
    forall i | 0 <= i < |a + c|
      ensures (b + d)[i] == (a + c)[i].(loopCount := (b + d)[i].loopCount)
    {
      if i >= |a| {
        assert (a + c)[i] == c[i - |a|] && (b + d)[i] == d[i - |a|];
      }
    }
  }

  /** Two queues that differ only in their retry counts drain with the same
      requests and the same survivors, up to the counts. */
  lemma {:induction false} DrainIgnoresLoopCount(sw: Switching, rd: Redoing, n: nat, q: seq<Batch>, q': seq<Batch>, now: int)
    requires Redoes(rd, sw) && UpToCounts(q, q')
    ensures var d := DrainRun(rd, n, q, now);
            var d' := DrainRun(rd, n, q', now);
            d'.calls == d.calls && UpToCounts(d.value, d'.value)
    decreases |q|
  {
    if |q| > 0 {
      var m := |q| - 1;
      assert UpToCounts(q[..m], q'[..m]);
      DrainIgnoresLoopCount(sw, rd, n, q[..m], q'[..m], now);
      var p := DrainRun(rd, n, q[..m], now);
      var p' := DrainRun(rd, n, q'[..m], now);
      var k := n + |p.calls|;
      var r := rd(k, q[m]);
      var r' := rd(k, q'[m]);
      assert r == RedoRun(sw, k, q[m]) && r' == RedoRun(sw, k, q'[m]);
      RedoIgnoresLoopCount(sw, k, q[m], q'[m]);
      var t := if r.value.Some? && !Expired(r.value.value, now) then [r.value.value] else [];
      var t' := if r'.value.Some? && !Expired(r'.value.value, now) then [r'.value.value] else [];
      assert UpToCounts(t, t');
      UpToCountsAppend(p.value, p'.value, t, t');
      assert DrainRun(rd, n, q, now).value == p.value + t;
      assert DrainRun(rd, n, q', now).value == p'.value + t';
    }
  }

  // ---------------------------------------------------------------------------
  // The timer tick

  /** What the tick remembers of the designation file: the modification
      time it last acted on and the designation it then read. */
  datatype Cache = Cache(fileTime: Option<int>, config: Option<Config.CfgItem>)

  /** The outcome of the first half of a tick: the new cache, the
      designation installed as the package-wide one, and the batches
      enqueued. */
  datatype Reload = Reload(cache: Cache, installed: Option<Config.CfgItem>, enqueued: seq<Batch>)
  {
    /** The package-wide designation after the reload, `prev` before it. */
    function InstalledOr(prev: Config.CfgItem): Config.CfgItem {
      if installed.Some? then installed.value else prev
    }
  }

  /** The designation file loads whenever the tick reads it (the source
      uses the reloaded record without a check), and the answers suit the
      temporary directory of whatever designation it holds. */
  ghost predicate Loads(o: Oracle) {
    forall n: nat :: o(n, LoadConfigFile(Config.CfgFile)).Loaded? &&
                     Sound(o, Config.TmpPathOf(o(n, LoadConfigFile(Config.CfgFile)).cfg))
  }

  /** `statusChange`: list the driver's services and enqueue them all as one
      fresh batch under a copy of `cfg`; nothing when the listing fails. */
  function EnqueueRun(o: Oracle, n: nat, cfg: Config.CfgItem, now: int64): Run<seq<Batch>>
    requires Typed(o)
  {
    if cfg.status.None? then Run([], [])
    else
      var l := ListService(Mariadb);
      var r := o(n, l);
      Run([l], if r.Failed? then [] else [Batch(r.services, Config.Dump(cfg), now, 0)])
  }

  /** The first half of `timerCheck`. */
  function ReloadRun(o: Oracle, n: nat, c: Cache, now: int64): Run<Reload>
    requires Typed(o) && Loads(o)
  {
    var st := StatFile(Config.CfgFile);
    var r := o(n, st);
    if r.Failed? || (c.fileTime.Some? && r.modTime == c.fileTime.value) then Run([st], Reload(c, None, []))
    else
      var ld := LoadConfigFile(Config.CfgFile);
      var cfg := o(n + 1, ld).cfg;
      if (cfg.status.None? || c.config.None?) || Config.StatusChange(c.config.value, cfg) then
        var e := EnqueueRun(o, n + 2, cfg, now);
        Run([st, ld] + e.calls, Reload(Cache(Some(r.modTime), Some(cfg)), Some(cfg), e.value))
      else Run([st, ld], Reload(c, Some(cfg), []))
  }

  /** A failed stat, or an unchanged modification time already acted on,
      reloads nothing, enqueues nothing and keeps the cache. */
  lemma ReloadIdle(o: Oracle, n: nat, c: Cache, now: int64)
    requires Typed(o) && Loads(o)
    requires o(n, StatFile(Config.CfgFile)).Failed? ||
             (c.fileTime.Some? && o(n, StatFile(Config.CfgFile)).modTime == c.fileTime.value)
    ensures ReloadRun(o, n, c, now) == Run([StatFile(Config.CfgFile)], Reload(c, None, []))
  {
  }

  /** When the reloaded or the cached designation names no roles, both
      parts of the cache are replaced, and a batch is enqueued only if the
      new designation names roles and the listing succeeds. */
  lemma ReloadWithoutRoles(o: Oracle, n: nat, c: Cache, now: int64)
    requires Typed(o) && Loads(o)
    requires o(n, StatFile(Config.CfgFile)).FileTime?
    requires c.fileTime.None? || o(n, StatFile(Config.CfgFile)).modTime != c.fileTime.value
    requires o(n + 1, LoadConfigFile(Config.CfgFile)).cfg.status.None? || c.config.None?
    ensures var t := o(n, StatFile(Config.CfgFile)).modTime;
            var cfg := o(n + 1, LoadConfigFile(Config.CfgFile)).cfg;
            var r := ReloadRun(o, n, c, now).value;
            r.cache == Cache(Some(t), Some(cfg)) && r.installed == Some(cfg) &&
            (cfg.status.None? ==> r.enqueued == []) &&
            (cfg.status.Some? && !o(n + 2, ListService(Mariadb)).Failed? ==> |r.enqueued| == 1)
  {
  }

  /** A reload that keeps the roles enqueues nothing and leaves the cache
      as it was (only the package-wide designation is replaced); one that
      changes them replaces the cache and enqueues exactly one fresh batch
      of the listed services under a copy of the new designation, unless the
      listing fails. */
  lemma ReloadRoles(o: Oracle, n: nat, c: Cache, now: int64)
    requires Typed(o) && Loads(o)
    requires o(n, StatFile(Config.CfgFile)).FileTime?
    requires c.fileTime.None? || o(n, StatFile(Config.CfgFile)).modTime != c.fileTime.value
    requires o(n + 1, LoadConfigFile(Config.CfgFile)).cfg.status.Some? && c.config.Some? && c.config.value.status.Some?
    ensures var t := o(n, StatFile(Config.CfgFile)).modTime;
            var cfg := o(n + 1, LoadConfigFile(Config.CfgFile)).cfg;
            var l := o(n + 2, ListService(Mariadb));
            var r := ReloadRun(o, n, c, now);
            r.value.installed == Some(cfg) &&
            (Config.Roles(cfg) == Config.Roles(c.config.value) ==>
               r.calls == [StatFile(Config.CfgFile), LoadConfigFile(Config.CfgFile)] &&
               r.value.cache == c && r.value.enqueued == []) &&
            (Config.Roles(cfg) != Config.Roles(c.config.value) ==>
               r.value.cache == Cache(Some(t), Some(cfg)) &&
               r.value.enqueued == if l.Failed? then [] else [Batch(l.services, cfg, now, 0)])
  {
    var cfg := o(n + 1, LoadConfigFile(Config.CfgFile)).cfg;
    Config.StatusChangeIffRolesDiffer(c.config.value, cfg);
  }

  /** The batches a reload enqueues can be switched. */
  lemma ReloadSwitchable(o: Oracle, n: nat, c: Cache, now: int64)
    requires Typed(o) && Loads(o)
    ensures Switchable(ReloadRun(o, n, c, now).value.enqueued)
  {
  }

  /** What the reload leaves for the retry: a queue of batches that name
      the roles, and an oracle sound for the temporary directory of the
      designation then installed. */
  lemma ReloadLeavesSwitchable(o: Oracle, n: nat, c: Cache, now: int64, prev: Config.CfgItem, q: seq<Batch>)
    requires Typed(o) && Loads(o) && Sound(o, Config.TmpPathOf(prev)) && Switchable(q)
    ensures var r := ReloadRun(o, n, c, now).value;
            Switchable(q + r.enqueued) &&
            Sound(o, Config.TmpPathOf(r.InstalledOr(prev)))
  {
    ReloadSwitchable(o, n, c, now);
  }

  // ---------------------------------------------------------------------------
  // Registry and notifications

  /** The registry holds MariaDB services only, each under its name. */
  predicate WellFormed(reg: map<string, ServiceInfo>) {
    forall k :: k in reg ==> reg[k].name == k && reg[k].catalog == Mariadb
  }

  /** `addKernelService`. */
  function Register(reg: map<string, ServiceInfo>, info: ServiceInfo): map<string, ServiceInfo> {
    if info.catalog != Mariadb then reg else reg[info.name := info]
  }

  /** `delKernelService`. */
  function Unregister(reg: map<string, ServiceInfo>, info: ServiceInfo): map<string, ServiceInfo> {
    if info.catalog != Mariadb then reg else reg - {info.name}
  }

  /** Registering and unregistering keep the registry well formed; services
      of other catalogs leave it unchanged; a registered MariaDB service can
      be found under its name, an unregistered one no longer. */
  lemma RegistryUpdates(reg: map<string, ServiceInfo>, info: ServiceInfo)
    requires WellFormed(reg)
    ensures WellFormed(Register(reg, info)) && WellFormed(Unregister(reg, info))
    ensures info.catalog != Mariadb ==> Register(reg, info) == reg && Unregister(reg, info) == reg
    ensures info.catalog == Mariadb ==> Register(reg, info)[info.name] == info && info.name !in Unregister(reg, info)
    ensures forall k :: k != info.name ==> (k in Register(reg, info) <==> k in reg) && (k in Unregister(reg, info) <==> k in reg)
  {
  }

  predicate Available(info: ServiceInfo) {
    info.status.Some? && info.status.value.available
  }

  /** The part of the kernel state a service notification touches. */
  datatype Registry = Registry(current: Option<Config.CfgItem>, queue: seq<Batch>, services: map<string, ServiceInfo>)

  /** `serviceNotify`: ignored while no designation is cached; a deletion
      unregisters the service; otherwise the service is registered and, if
      available, enqueued alone for a switch under a copy of the cached
      designation. */
  function NotifyStep(s: Registry, action: Action, info: ServiceInfo, now: int): Registry {
    if s.current.None? then s
    else if action == Del then s.(services := Unregister(s.services, info))
    else
      var reg := Register(s.services, info);
      if !Available(info) then s.(services := reg)
      else s.(services := reg,
              queue := s.queue + [Batch(map[info.catalog := [info.name]], Config.Dump(s.current.value), now, 0)])
  }

  /** Notifications never change the cached designation, keep the registry
      well formed, and enqueue at most one batch: exactly one, holding only
      this service, when a designation is cached and an available service is
      added or modified. */
  lemma NotifyEffects(s: Registry, action: Action, info: ServiceInfo, now: int)
    requires WellFormed(s.services)
    ensures var t := NotifyStep(s, action, info, now);
            t.current == s.current && WellFormed(t.services) &&
            (s.current.None? ==> t == s) &&
            (s.current.Some? && action == Del ==> t.queue == s.queue && t.services == Unregister(s.services, info)) &&
            (s.current.Some? && action != Del ==> t.services == Register(s.services, info)) &&
            (s.current.Some? && action != Del && Available(info) <==> |t.queue| == |s.queue| + 1) &&
            (|t.queue| == |s.queue| + 1 ==>
               t.queue[..|s.queue|] == s.queue &&
               t.queue[|s.queue|] == Batch(map[info.catalog := [info.name]], s.current.value, now, 0)) &&
            (|t.queue| != |s.queue| + 1 ==> t.queue == s.queue)
  {
    RegistryUpdates(s.services, info);
  }

  // ---------------------------------------------------------------------------
  // Readiness

  /** How one service is probed: `QueryLocalMariadbStatus` of `name`,
      started at position `n` of the trace. */
  type Probing = (nat, string) -> Run<Result<(MasterStatus, SlaveStatus)>>

  /** `pr` is `QueryLocalMariadbStatus` against the oracle `o`. */
  ghost predicate ProbesBy(o: Oracle, pr: Probing) {
    forall n: nat, name: string {:trigger ProbeRun(o, n, name)} :: Typed(o) ==> pr(n, name) == ProbeRun(o, n, name)
  }

  /** `QueryLocalMariadbStatus` against `o`, failing without requests where
      it is not defined. */
  ghost function ProbingOf(o: Oracle): Probing {
    (n: nat, name: string) => if Typed(o) then ProbeRun(o, n, name) else Run([], Failure(IllegalServiceInfo))
  }

  /** A probed service is ready when the probe succeeded and its slave, if
      enabled, does not lag; a disabled slave never makes it unready. */
  predicate ServiceReady(r: Result<(MasterStatus, SlaveStatus)>) {
    r.Success? && !(r.value.1.enable && r.value.1.behindSecond > 0)
  }

  /** `GetKernelReadyStatus` for the registry visited in the order `order`:
      every service is probed, and the kernel is ready when all are. */
  function ReadyRun(pr: Probing, n: nat, reg: map<string, ServiceInfo>, order: seq<string>): Run<bool>
    requires forall i :: 0 <= i < |order| ==> order[i] in reg
    decreases |order|
  {
    if |order| == 0 then Run([], true)
    else
      var p := ReadyRun(pr, n, reg, order[..|order| - 1]);
      var r := pr(n + |p.calls|, reg[order[|order| - 1]].name);
      Run(p.calls + r.calls, p.value && ServiceReady(r.value))
  }

  /** One more service, with its probe starting at position `k`. */
  lemma ReadySnoc(pr: Probing, n: nat, reg: map<string, ServiceInfo>, order: seq<string>, key: string, k: nat)
    requires (forall i :: 0 <= i < |order| ==> order[i] in reg) && key in reg
    requires k == n + |ReadyRun(pr, n, reg, order).calls|
    ensures var p := ReadyRun(pr, n, reg, order);
            var r := pr(k, reg[key].name);
            ReadyRun(pr, n, reg, order + [key]) == Run(p.calls + r.calls, p.value && ServiceReady(r.value))
  {
    assert (order + [key])[..|order|] == order;
  }

  /** Where the probe of `order[i]` starts in the trace. */
  function ReadyOffset(pr: Probing, n: nat, reg: map<string, ServiceInfo>, order: seq<string>, i: nat): nat
    requires (forall i :: 0 <= i < |order| ==> order[i] in reg) && i <= |order|
  {
    n + |ReadyRun(pr, n, reg, order[..i]).calls|
  }

  predicate ReadyAt(pr: Probing, n: nat, reg: map<string, ServiceInfo>, order: seq<string>, i: nat)
    requires (forall i :: 0 <= i < |order| ==> order[i] in reg) && i < |order|
  {
    ServiceReady(pr(ReadyOffset(pr, n, reg, order, i), reg[order[i]].name).value)
  }

  /** The kernel is ready exactly when every probe succeeds and no enabled
      slave lags; an empty registry is ready without a request. */
  lemma {:induction false} ReadyIff(pr: Probing, n: nat, reg: map<string, ServiceInfo>, order: seq<string>)
    requires forall i :: 0 <= i < |order| ==> order[i] in reg
    ensures ReadyRun(pr, n, reg, order).value <==> forall i :: 0 <= i < |order| ==> ReadyAt(pr, n, reg, order, i)
    ensures |order| == 0 ==> ReadyRun(pr, n, reg, order) == Run([], true)
    decreases |order|
  {
    if |order| > 0 {
      var m := |order| - 1;
      var init := order[..m];
      ReadyIff(pr, n, reg, init);
      forall i | 0 <= i <= m
        ensures ReadyOffset(pr, n, reg, order, i) == ReadyOffset(pr, n, reg, init, i)
      {
        assert order[..i] == init[..i];
      }
      forall i | 0 <= i < m
        ensures ReadyAt(pr, n, reg, order, i) == ReadyAt(pr, n, reg, init, i)
      {
        assert order[i] == init[i];
      }
      assert ReadyRun(pr, n, reg, order).value == (ReadyRun(pr, n, reg, init).value && ReadyAt(pr, n, reg, order, m));
    }
  }

  // ---------------------------------------------------------------------------
  // The kernel

  class Base {
    const hub: Hub
    /** The package-wide designation and listen port. */
    const store: Config.Store
    /** `GetNodePort`, fixed once the agent listens. */
    const nodePort: string
    /** How the kernel switches one service; see `Wired`. */
    ghost const switcher: Switch
    /** How the kernel retries one batch with a given switch; see `Wired`. */
    ghost const redoer: Switching -> Redoing
    /** How the kernel probes one service; see `Wired`. */
    ghost const prober: Probing
    /** `curConfigFileInfo`, of which only the modification time is used. */
    var fileTime: Option<int>
    /** `curConfigPtr`. */
    var current: Option<Config.CfgItem>
    /** `curRedoCollection`. */
    var queue: seq<Batch>
    /** `currentKernelService`. */
    var services: map<string, ServiceInfo>

    /** The switch, the retry and the probe the kernel is described with
        are `SwitchMariadb`, `redoStatusChange` and
        `QueryLocalMariadbStatus`. */
    ghost predicate Wired() {
      SwitchesBy(hub.reply, switcher) && RedoesBy(redoer) && ProbesBy(hub.reply, prober)
    }

    /** `redoStatusChange` reading the package-wide values `g` at `now`. */
    ghost function Retrying(g: Settings, now: int64): Redoing {
      redoer(switcher(g, now))
    }

    ghost predicate Valid()
      reads this
    {
      Wired() && Switchable(queue) && WellFormed(services)
    }

    /** The configuration values the switch reads, from the current
        package-wide designation. */
    function Settings(): Settings
      reads this, store
    {
      SettingsOf(store.configItem, nodePort)
    }

    constructor (hub: Hub, store: Config.Store, nodePort: string)
      ensures this.hub == hub && this.store == store && this.nodePort == nodePort
      ensures fileTime == None && current == None && queue == [] && services == map[]
      ensures Valid()
    {
      this.hub := hub;
      this.store := store;
      this.nodePort := nodePort;
      this.switcher := SwitchOf(hub.reply);
      this.redoer := (sw: Switching) => (n: nat, b: Batch) => RedoRun(sw, n, b);
      this.prober := ProbingOf(hub.reply);
      fileTime := None;
      current := None;
      queue := [];
      services := map[];
    }

    // -------------------------------------------------------------------------
    // Probes

    /** `GetKernelHealthStatus`: every registered service reports itself
        available; an empty registry is healthy. */
    method Healthy() returns (ok: bool)
      ensures ok <==> forall k :: k in services ==> Available(services[k])
    {
      ok := true;
      var rest := services.Keys;
      while rest != {}
        invariant rest <= services.Keys
        invariant ok <==> forall k :: k in services && k !in rest ==> Available(services[k])
        decreases rest
      {
        var k :| k in rest;
        if !Available(services[k]) {
          ok := false;
        }
        rest := rest - {k};
      }
    }

    /** `GetKernelReadyStatus`, visiting the registry in an unspecified
        order `order`. */
    method Ready() returns (ok: bool, ghost order: seq<string>)
      requires Wired() && Typed(hub.reply)
      modifies hub
      ensures IsIterationOrder(order, services.Keys)
      ensures var r := ReadyRun(prober, |old(hub.trace)|, services, order);
              hub.trace == old(hub.trace) + r.calls && ok == r.value
    {
      ghost var t0 := hub.trace;
      var keys := IterationOrder(services.Keys);
      order := keys;
      ok := true;
      for i := 0 to |keys|
        invariant var r := ReadyRun(prober, |t0|, services, keys[..i]);
                  hub.trace == t0 + r.calls && ok == r.value
      {
        ghost var p := ReadyRun(prober, |t0|, services, keys[..i]);
        ReadySnoc(prober, |t0|, services, keys[..i], keys[i], |hub.trace|);
        assert keys[..i] + [keys[i]] == keys[..i + 1];
        ghost var t1 := hub.trace;
        var probe := QueryLocalMariadbStatus(services[keys[i]].name);
        CallsAssoc(t0, p.calls, prober(|t1|, services[keys[i]].name).calls);
        if !ServiceReady(probe) {
          ok := false;
        }
      }
      assert keys[..|keys|] == keys;
    }

    // -------------------------------------------------------------------------
    // Switching one service

    method QueryLocalServiceInfo(name: string) returns (r: Result<ServiceInfo>)
      modifies hub
      ensures var run := LocalInfoRun(hub.reply, |old(hub.trace)|, name);
              hub.trace == old(hub.trace) + run.calls && r == run.value
    {
      var reply := hub.Send(QueryService(name, Mariadb));
      if reply.Failed? {
        return Failure(reply.error);
      }
      if !reply.Service? {
        return Failure(IllegalServiceInfo);
      }
      r := Success(reply.info);
    }

    method QueryLocalMariadbStatus(name: string) returns (r: Result<(MasterStatus, SlaveStatus)>)
      requires Wired() && Typed(hub.reply)
      modifies hub
      ensures var run := prober(|old(hub.trace)|, name);
              hub.trace == old(hub.trace) + run.calls && r == run.value
    {
      assert prober(|hub.trace|, name) == ProbeRun(hub.reply, |hub.trace|, name);
      var info := QueryLocalServiceInfo(name);
      if info.Failure? {
        return Failure(info.error);
      }
      var master := hub.Send(CheckMaster(info.value));
      if master.Failed? {
        return Failure(master.error);
      }
      var slave := hub.Send(CheckSlave(info.value));
      if slave.Failed? {
        return Failure(slave.error);
      }
      r := Success((master.master, slave.slave));
    }

    /** `SwitchMariadb` under the snapshot `cfg`, reading the package-wide
        values `g`. */
    method SwitchMariadb(name: string, cfg: Config.CfgItem, g: Settings, now: int64) returns (err: Outcome)
      requires Wired() && Answers(hub.reply, g.tmpPath) && cfg.status.Some?
      modifies hub
      ensures var run := switcher(g, now)(|old(hub.trace)|, name, cfg);
              hub.trace == old(hub.trace) + run.calls && err == run.value
    {
      assert switcher(g, now)(|hub.trace|, name, cfg) == SwitchRun(hub.reply, |hub.trace|, name, cfg, g, now);
      var info := QueryLocalServiceInfo(name);
      if info.Failure? {
        return Some(info.error);
      }
      if cfg.localHost == cfg.status.value.master {
        err := Promote(info.value);
      } else {
        err := Demote(info.value, cfg.remoteHost, g, now);
      }
    }

    method Promote(info: ServiceInfo) returns (err: Outcome)
      modifies hub
      ensures var run := PromoteRun(hub.reply, |old(hub.trace)|, info);
              hub.trace == old(hub.trace) + run.calls && err == run.value
    {
      var switched := hub.Send(SwitchToMaster(info));
      if switched.Failed? {
        return Some(switched.error);
      }
      var restored := hub.Send(RestoreEndpoints(info));
      err := ErrorOf(restored);
    }

    method Demote(info: ServiceInfo, host: string, g: Settings, now: int64) returns (err: Outcome)
      requires Answers(hub.reply, g.tmpPath) && Placed(info, g.tmpPath)
      modifies hub
      ensures var run := DemoteRun(hub.reply, |old(hub.trace)|, info, host, g, now);
              hub.trace == old(hub.trace) + run.calls && err == run.value
    {
      ghost var v := VerifyRun(hub.reply, |hub.trace|, info, host, g, now);
      var verified := VerifyRemoteMaster(info, host, g, now);
      ghost var t1 := hub.trace;
      ghost var a := ThenSlaveRun(hub.reply, |t1|, info, verified, g);
      assert |t1| == |old(hub.trace)| + |v.calls| && verified == v.value;
      assert DemoteRun(hub.reply, |old(hub.trace)|, info, host, g, now) == Run(v.calls + a.calls, a.value);
      err := AfterVerify(info, verified, g);
      assert hub.trace == t1 + a.calls && err == a.value;
      CallsAssoc(old(hub.trace), v.calls, a.calls);
    }

    /** What `Demote` does with the verified peer status: switch to slave of
        it, then change the endpoints. */
    method AfterVerify(info: ServiceInfo, verified: Result<MasterStatus>, g: Settings) returns (err: Outcome)
      requires Answers(hub.reply, g.tmpPath)
      modifies hub
      ensures var run := ThenSlaveRun(hub.reply, |old(hub.trace)|, info, verified, g);
              hub.trace == old(hub.trace) + run.calls && err == run.value
    {
      if verified.Failure? {
        return Some(verified.error);
      }
      var switched := hub.Send(SwitchToSlave(info, MasterInfoOf(verified.value)));
      if switched.Failed? {
        return Some(switched.error);
      }
      ghost var t1 := hub.trace;
      err := ChangeServiceEndpoint(info, g);
      CallsAssoc(old(hub.trace), [SwitchToSlave(info, MasterInfoOf(verified.value))], EndpointRun(hub.reply, |t1|, info, g).calls);
    }

    method ChangeServiceEndpoint(info: ServiceInfo, g: Settings) returns (err: Outcome)
      requires Answers(hub.reply, g.tmpPath)
      modifies hub
      ensures var run := EndpointRun(hub.reply, |old(hub.trace)|, info, g);
              hub.trace == old(hub.trace) + run.calls && err == run.value
    {
      var remote := hub.Send(QueryRemoteService(g.remoteHost, g.nodePort, info.name, info.catalog));
      if remote.Failed? {
        return Some(remote.error);
      }
      var changed := hub.Send(ChangeEndpoints(info, remote.info.svc.value));
      err := ErrorOf(changed);
    }

    /** `verifyRemoteMasterMariadb`. */
    method VerifyRemoteMaster(info: ServiceInfo, host: string, g: Settings, now: int64) returns (r: Result<MasterStatus>)
      requires Answers(hub.reply, g.tmpPath) && Placed(info, g.tmpPath)
      modifies hub
      ensures var run := VerifyRun(hub.reply, |old(hub.trace)|, info, host, g, now);
              hub.trace == old(hub.trace) + run.calls && r == run.value
    {
      var status := hub.Send(RemoteStatusCall(info, host, g));
      if status.Failed? {
        return Failure(status.error);
      }
      var eligible := Eligibility(status.remoteMaster, status.remoteSlave);
      if eligible.Some? {
        return Failure(eligible.value);
      }
      var local := hub.Send(LoadStatusFile(MasterFile(info)));
      if !NeedsFullSync(local, now) {
        return Success(status.remoteMaster.value);
      }
      ghost var t2 := hub.trace;
      r := FullSync(info, host, g, status.remoteMaster.value);
      ghost var f := FullSyncRun(hub.reply, |t2|, info, host, g, status.remoteMaster.value);
      assert hub.trace == old(hub.trace) + ([RemoteStatusCall(info, host, g), LoadStatusFile(MasterFile(info))] + f.calls);
    }

    method FullSync(info: ServiceInfo, host: string, g: Settings, ms: MasterStatus) returns (r: Result<MasterStatus>)
      requires Answers(hub.reply, g.tmpPath) && Placed(info, g.tmpPath)
      modifies hub
      ensures var run := FullSyncRun(hub.reply, |old(hub.trace)|, info, host, g, ms);
              hub.trace == old(hub.trace) + run.calls && r == run.value
    {
      var restored := RestoreInternal(info, host, g);
      if restored.Some? {
        return Failure(restored.value);
      }
      var marker := ExtractBinlog(info);
      if marker.Failure? {
        return Failure(marker.error);
      }
      var status := ms.(logFile := marker.value.0, logPos := marker.value.1);
      var _ := hub.Send(SaveStatusFile(MasterFile(info), status));
      r := Success(status);
    }

    /** `restoreMariadbInternal`, with `syncRemoteMariadbToLocal`. */
    method RestoreInternal(info: ServiceInfo, host: string, g: Settings) returns (err: Outcome)
      requires Answers(hub.reply, g.tmpPath) && Placed(info, g.tmpPath)
      modifies hub
      ensures var run := RestoreInternalRun(hub.reply, |old(hub.trace)|, info, host, g);
              hub.trace == old(hub.trace) + run.calls && err == run.value
    {
      var backup := hub.Send(BackupRemoteCall(info, host, g));
      if backup.Failed? {
        return Some(backup.error);
      }
      var synced := hub.Send(SyncFilesToLocal(SyncInfoOf(info, backup.path, g.tmpPath)));
      if synced.Failed? {
        return Some(synced.error);
      }
      var restored := hub.Send(RestoreDatabase(info));
      err := ErrorOf(restored);
    }

    method ExtractBinlog(info: ServiceInfo) returns (r: Result<(string, int64)>)
      requires Typed(hub.reply) && info.HasBackPath()
      modifies hub
      ensures var run := ExtractRun(hub.reply, |old(hub.trace)|, info);
              hub.trace == old(hub.trace) + run.calls && r == run.value
    {
      var file := hub.Send(ReadFile(BinlogFile(info)));
      if file.Failed? {
        return Failure(file.error);
      }
      r := ParseBinlog(file.text);
    }

    /** `BackupMariadb`, on the peer's request. */
    method BackupMariadb(name: string) returns (r: Result<string>)
      requires Typed(hub.reply)
      modifies hub
      ensures var run := BackupMariadbRun(hub.reply, |old(hub.trace)|, name);
              hub.trace == old(hub.trace) + run.calls && r == run.value
    {
      var info := QueryLocalServiceInfo(name);
      if info.Failure? {
        return Failure(info.error);
      }
      var backup := hub.Send(BackupDatabase(info.value));
      if backup.Failed? {
        return Failure(backup.error);
      }
      r := Success(backup.path);
    }

    /** `RestoreMariadb`, on the peer's request: restore from the configured
        peer. */
    method RestoreMariadb(name: string) returns (err: Outcome)
      requires Answers(hub.reply, Settings().tmpPath)
      modifies hub
      ensures var run := RestoreMariadbRun(hub.reply, |old(hub.trace)|, name, Settings());
              hub.trace == old(hub.trace) + run.calls && err == run.value
    {
      var g := Settings();
      var info := QueryLocalServiceInfo(name);
      if info.Failure? {
        return Some(info.error);
      }
      err := RestoreInternal(info.value, g.remoteHost, g);
    }

    // -------------------------------------------------------------------------
    // The queue

    /** `redoStatusChange`.  Of the catalogs of a batch only the MariaDB one
        is looked at, whatever order the map is visited in. */
    method RedoStatusChange(b: Batch, g: Settings, now: int64) returns (r: Option<Batch>)
      requires Wired() && Answers(hub.reply, g.tmpPath) && b.config.status.Some?
      modifies hub
      ensures var run := Retrying(g, now)(|old(hub.trace)|, b);
              hub.trace == old(hub.trace) + run.calls && r == run.value
    {
      assert Retrying(g, now)(|hub.trace|, b) == RedoRun(switcher(g, now), |hub.trace|, b);
      if Mariadb !in b.services {
        return None;
      }
      var failed := SwitchAll(b.services[Mariadb], b.config, g, now);
      if |failed| > 0 {
        return Some(Batch(map[Mariadb := failed], b.config, b.startTime, b.loopCount + 1));
      }
      r := None;
    }

    /** The inner loop of `redoStatusChange`: switch every MariaDB service
        of a batch in order and keep the names whose switch failed. */
    method SwitchAll(names: seq<string>, cfg: Config.CfgItem, g: Settings, now: int64) returns (failed: seq<string>)
      requires Wired() && Answers(hub.reply, g.tmpPath) && cfg.status.Some?
      modifies hub
      ensures var run := FailedRun(switcher(g, now), |old(hub.trace)|, names, cfg);
              hub.trace == old(hub.trace) + run.calls && failed == run.value
    {
      ghost var t0 := hub.trace;
      ghost var sw := switcher(g, now);
      failed := [];
      for i := 0 to |names|
        invariant var run := FailedRun(sw, |t0|, names[..i], cfg);
                  hub.trace == t0 + run.calls && failed == run.value
      {
        FailedSnoc(sw, |t0|, names, cfg, i, |hub.trace|);
        ghost var t1 := hub.trace;
        var err := SwitchMariadb(names[i], cfg, g, now);
        assert hub.trace == t0 + (FailedRun(sw, |t0|, names[..i], cfg).calls + sw(|t1|, names[i], cfg).calls);
        if err.Some? {
          failed := failed + [names[i]];
        }
      }
      assert names[..|names|] == names;
    }

    /** The loop of `checkStatusRedo`: retry every batch of `pending` in
        order and keep the retried batches that are not too old. */
    method RedoAll(pending: seq<Batch>, g: Settings, now: int64) returns (remain: seq<Batch>)
      requires Wired() && Answers(hub.reply, g.tmpPath) && Switchable(pending)
      modifies hub
      ensures var d := DrainRun(Retrying(g, now), |old(hub.trace)|, pending, now);
              hub.trace == old(hub.trace) + d.calls && remain == d.value
    {
      ghost var t0 := hub.trace;
      ghost var rd := Retrying(g, now);
      remain := [];
      var i := 0;
      while i < |pending|
        invariant 0 <= i <= |pending|
        invariant var d := DrainRun(rd, |t0|, pending[..i], now);
                  hub.trace == t0 + d.calls && remain == d.value
      {
        ghost var t1 := hub.trace;
        ghost var p := DrainRun(rd, |t0|, pending[..i], now);
        DrainSnoc(rd, |t0|, pending, now, i, |t1|);
        var retried := RedoStatusChange(pending[i], g, now);
        ghost var r := rd(|t1|, pending[i]);
        assert hub.trace == t1 + r.calls && retried == r.value;
        CallsAssoc(t0, p.calls, r.calls);
        if retried.Some? && !(now - retried.value.startTime > RetryWindow) {
          remain := remain + [retried.value];
        }
        i := i + 1;
      }
      assert pending[..i] == pending;
    }

    /** `checkStatusRedo`: take the whole queue, retry every batch, and put
        the survivors back in front of anything enqueued meanwhile. */
    method CheckStatusRedo(now: int64)
      requires Valid() && Answers(hub.reply, Settings().tmpPath)
      modifies this, hub
      ensures Valid()
      ensures var d := DrainRun(Retrying(old(Settings()), now), |old(hub.trace)|, old(queue), now);
              hub.trace == old(hub.trace) + d.calls && queue == d.value
      ensures fileTime == old(fileTime) && current == old(current) && services == old(services)
    {
      var g := Settings();
      var pending := queue;
      queue := [];
      DrainSurvivors(switcher(g, now), Retrying(g, now), |hub.trace|, pending, now);
      var remain := RedoAll(pending, g, now);
      if |remain| == 0 {
        return;
      }
      queue := remain + queue;
    }

    // -------------------------------------------------------------------------
    // The timer tick

    /** `statusChange`. */
    method StatusChange(cfg: Config.CfgItem, now: int64)
      requires Typed(hub.reply)
      modifies this, hub
      ensures var e := EnqueueRun(hub.reply, |old(hub.trace)|, cfg, now);
              hub.trace == old(hub.trace) + e.calls && queue == old(queue) + e.value
      ensures fileTime == old(fileTime) && current == old(current) && services == old(services)
    {
      if cfg.status.None? {
        return;
      }
      var listed := hub.Send(ListService(Mariadb));
      if listed.Failed? {
        return;
      }
      queue := queue + [Batch(listed.services, Config.Dump(cfg), now, 0)];
    }

    /** The first half of `timerCheck`: act on a changed designation file. */
    method CheckConfig(now: int64)
      requires Typed(hub.reply) && Loads(hub.reply)
      modifies this, hub, store
      ensures var r := ReloadRun(hub.reply, |old(hub.trace)|, old(Cache(fileTime, current)), now);
              hub.trace == old(hub.trace) + r.calls &&
              Cache(fileTime, current) == r.value.cache &&
              queue == old(queue) + r.value.enqueued &&
              store.configItem == r.value.InstalledOr(old(store.configItem))
      ensures services == old(services) && store.listenPort == old(store.listenPort)
    {
      var stat := hub.Send(StatFile(Config.CfgFile));
      if stat.Failed? || (fileTime.Some? && stat.modTime == fileTime.value) {
        return;
      }
      var loaded := hub.Send(LoadConfigFile(Config.CfgFile));
      var cfg := loaded.cfg;
      var _ := store.Reload(Some(cfg));
      if cfg.status.None? || current.None? || Config.StatusChange(current.value, cfg) {
        fileTime := Some(stat.modTime);
        current := Some(cfg);
        StatusChange(cfg, now);
      }
    }

    /** `timerCheck`: act on the designation file, then drain the queue,
        whatever the first half did. */
    method Tick(now: int64)
      requires Valid() && Typed(hub.reply) && Loads(hub.reply) && Sound(hub.reply, Settings().tmpPath)
      modifies this, hub, store
      ensures Valid()
      ensures var r := ReloadRun(hub.reply, |old(hub.trace)|, old(Cache(fileTime, current)), now);
              var g := SettingsOf(r.value.InstalledOr(old(store.configItem)), nodePort);
              var d := DrainRun(Retrying(g, now), |old(hub.trace)| + |r.calls|, old(queue) + r.value.enqueued, now);
              Cache(fileTime, current) == r.value.cache &&
              hub.trace == old(hub.trace) + r.calls + d.calls && queue == d.value
      ensures services == old(services)
    {
      ghost var n := |hub.trace|;
      ghost var c := Cache(fileTime, current);
      ReloadLeavesSwitchable(hub.reply, n, c, now, store.configItem, queue);
      CheckConfig(now);
      ghost var r := ReloadRun(hub.reply, n, c, now);
      ghost var t1 := hub.trace;
      ghost var g := Settings();
      ghost var q1 := queue;
      assert g == SettingsOf(r.value.InstalledOr(old(store.configItem)), nodePort);
      assert |t1| == |old(hub.trace)| + |r.calls| && q1 == old(queue) + r.value.enqueued;
      ghost var d := DrainRun(Retrying(g, now), |t1|, q1, now);
      CheckStatusRedo(now);
      assert hub.trace == t1 + d.calls && queue == d.value;
      CallsAssoc(old(hub.trace), r.calls, d.calls);
    }

    /** `serviceNotify`.  The batch it enqueues is switched later under the
        cached designation, which must then name the roles. */
    method Notify(action: Action, info: ServiceInfo, now: int)
      requires Valid()
      requires current.Some? && action != Del && Available(info) ==> current.value.status.Some?
      modifies this
      ensures Valid()
      ensures Registry(current, queue, services) == NotifyStep(old(Registry(current, queue, services)), action, info, now)
      ensures fileTime == old(fileTime)
    {
      RegistryUpdates(services, info);
      if current.None? {
        return;
      }
      if action == Del {
        services := Unregister(services, info);
        return;
      }
      services := Register(services, info);
      if !Available(info) {
        return;
      }
      queue := queue + [Batch(map[info.catalog := [info.name]], Config.Dump(current.value), now, 0)];
    }
  }
}
