/** The MariaDB module: the handlers that promote the local database to
    master, demote it to a slave of a given master, report its replication
    status, and back it up or restore it.  Every SQL statement runs as a
    `mysql -e` command inside the database container, sent to the driver
    module as an `ExecuteCommand` request; back-up and restore run as jobs.

    Each handler is a method over the hub and, beside it, a `...Run` function
    that lists the requests it makes and what it returns, for any answers the
    hub gives; the lemmas state the protocol on those functions. */
module MariadbModule {
  import opened Wrappers
  import opened Text
  import opened Common
  import opened Effects
  import opened StatusParser

  /** The handlers dereference the credentials and the endpoint of the
      service they are given. */
  predicate Complete(info: ServiceInfo) {
    info.env.Some? && info.svc.Some?
  }

  /** `execDatabaseCmd`: the request that runs one statement. */
  function ExecCall(info: ServiceInfo, sql: string): Call
    requires info.env.Some?
  {
    ExecuteCommand(info.name, info, DatabaseArgv(info.env.value, sql))
  }

  function ExecRun(o: Oracle, n: nat, info: ServiceInfo, sql: string): Run<Result<string>>
    requires Typed(o) && info.env.Some?
  {
    var c := ExecCall(info, sql);
    Run([c], TextOf(o(n, c)))
  }

  /** `showMasterStatus` at time `now`. */
  function ShowMasterRun(o: Oracle, n: nat, info: ServiceInfo, now: int64): Run<Result<MasterStatus>>
    requires Typed(o) && Complete(info)
  {
    var e := ExecRun(o, n, info, ShowMasterStatusCmd);
    Run(e.calls,
        match e.value
        case Failure(err) => Failure(err)
        case Success(out) => Success(MasterStatusOf(ScanMaster(ScanLines(out)), info.svc.value, now)))
  }

  /** `showSlaveStatus` at time `now`. */
  function ShowSlaveRun(o: Oracle, n: nat, info: ServiceInfo, now: int64): Run<Result<SlaveStatus>>
    requires Typed(o) && Complete(info)
  {
    var e := ExecRun(o, n, info, ShowSlaveStatusCmd);
    Run(e.calls,
        match e.value
        case Failure(err) => Failure(err)
        case Success(out) => Success(SlaveStatusOf(ScanSlave(ScanLines(out)), now)))
  }

  /** A slave that replicates but has not caught up with its master. */
  predicate Lagging(s: SlaveStatus) {
    s.enable && s.runningOK && s.behindSecond > 0
  }

  /** `ToMaster`: grant replication, probe the slave status, refuse while
      the slave lags, and stop an enabled slave. */
  function ToMasterRun(o: Oracle, n: nat, info: ServiceInfo, now: int64): Run<Outcome>
    requires Typed(o) && Complete(info)
  {
    var g := ExecRun(o, n, info, GrantReplicateSql(info.env.value));
    if g.value.Failure? then Run(g.calls, Some(g.value.error))
    else
      var p := ShowSlaveRun(o, n + 1, info, now);
      if p.value.Failure? then Run(g.calls + p.calls, Some(p.value.error))
      else if Lagging(p.value.value) then Run(g.calls + p.calls, Some(SlaveBehind(p.value.value.behindSecond)))
      else if p.value.value.enable then
        var s := ExecRun(o, n + 2, info, StopSlaveSql);
        Run(g.calls + p.calls + s.calls, if s.value.Failure? then Some(s.value.error) else None)
      else Run(g.calls + p.calls, None)
  }

  /** Whether `ToSlave` finds the slave already following `m`. */
  predicate Following(s: SlaveStatus, m: MasterInfo) {
    s.enable && s.masterHost == m.host && s.masterPort == m.port
  }

  /** `ToSlave`: probe; nothing to do when already following `m`; otherwise
      stop an enabled slave (ignoring a failure), point it at `m`, start it. */
  function ToSlaveRun(o: Oracle, n: nat, info: ServiceInfo, m: MasterInfo, now: int64): Run<Outcome>
    requires Typed(o) && Complete(info)
  {
    var p := ShowSlaveRun(o, n, info, now);
    if p.value.Failure? then Run(p.calls, Some(p.value.error))
    else if Following(p.value.value, m) then Run(p.calls, None)
    else
      var r := RepointRun(o, n + 1, info, m, p.value.value.enable);
      Run(p.calls + r.calls, r.value)
  }

  /** The part of `ToSlave` after the probe returned `p`. */
  function AfterProbeRun(o: Oracle, n: nat, info: ServiceInfo, m: MasterInfo, p: Result<SlaveStatus>): Run<Outcome>
    requires Typed(o) && Complete(info)
  {
    if p.Failure? then Run([], Some(p.error))
    else if Following(p.value, m) then Run([], None)
    else RepointRun(o, n, info, m, p.value.enable)
  }

  /** `ToSlave` is the probe followed by its handling. */
  lemma ToSlaveProbesFirst(o: Oracle, n: nat, info: ServiceInfo, m: MasterInfo, now: int64)
    requires Typed(o) && Complete(info)
    ensures var p := ShowSlaveRun(o, n, info, now);
            var a := AfterProbeRun(o, n + |p.calls|, info, m, p.value);
            ToSlaveRun(o, n, info, m, now) == Run(p.calls + a.calls, a.value)
  {
  }

  /** The part of `ToSlave` after the probe, for a slave that does not
      follow `m` yet. */
  function RepointRun(o: Oracle, n: nat, info: ServiceInfo, m: MasterInfo, enabled: bool): Run<Outcome>
    requires Typed(o) && Complete(info)
  {
    var stop := if enabled then [ExecCall(info, StopSlaveSql)] else [];
    var p := PointAtRun(o, n + |stop|, info, m);
    Run(stop + p.calls, p.value)
  }

  /** Change the master to `m`, then start the slave unless that failed. */
  function PointAtRun(o: Oracle, n: nat, info: ServiceInfo, m: MasterInfo): Run<Outcome>
    requires Typed(o) && Complete(info)
  {
    var c := ExecRun(o, n, info, ChangeMasterSql(info.env.value, m));
    if c.value.Failure? then Run(c.calls, Some(c.value.error))
    else
      var s := ExecRun(o, n + 1, info, StartSlaveSql);
      Run(c.calls + s.calls, if s.value.Failure? then Some(s.value.error) else None)
  }

  function BackupCall(info: ServiceInfo): Call
    requires Complete(info)
  {
    JobService(BackupJobName(info), info, BackupCommands(info))
  }

  function RestoreCall(info: ServiceInfo): Call
    requires Complete(info)
  {
    JobService(RestoreJobName(info), info, RestoreCommands(info))
  }

  /** `Backup`: run the back-up job; on success the back-up directory. */
  function BackupRun(o: Oracle, n: nat, info: ServiceInfo): Run<Result<string>>
    requires Complete(info) && info.HasBackPath()
  {
    var r := o(n, BackupCall(info));
    Run([BackupCall(info)], if r.Failed? then Failure(r.error) else Success(info.volumes.value.backPath.value.value))
  }

  /** `Restore`: stop the service; unless that fails, run the restore job
      and start the service again whatever the job's outcome. */
  function RestoreRun(o: Oracle, n: nat, info: ServiceInfo): Run<Outcome>
    requires Complete(info)
  {
    var stop := StopService(info.name, info);
    if o(n, stop).Failed? then Run([stop], ErrorOf(o(n, stop)))
    else Run([stop, RestoreCall(info), StartService(info.name, info)], ErrorOf(o(n + 1, RestoreCall(info))))
  }

  // ---------------------------------------------------------------------------
  // Protocol properties

  lemma ExecCallsDiffer(info: ServiceInfo, a: string, b: string)
    requires info.env.Some? && a != b
    ensures ExecCall(info, a) != ExecCall(info, b)
  {
    var qa := "\"" + a + "\"";
    var qb := "\"" + b + "\"";
    assert qa[1..|qa| - 1] == a && qb[1..|qb| - 1] == b;
    var xa := ExecCall(info, a).command;
    var xb := ExecCall(info, b).command;
    assert xa[|xa| - 1] == qa && xb[|xb| - 1] == qb;
  }

  /** The statements `ToMaster` may run are different statements. */
  lemma MasterStatementsDiffer(info: ServiceInfo)
    requires info.env.Some?
    ensures ExecCall(info, StopSlaveSql) != ExecCall(info, GrantReplicateSql(info.env.value))
    ensures ExecCall(info, StopSlaveSql) != ExecCall(info, ShowSlaveStatusCmd)
  {
    var g := GrantReplicateSql(info.env.value);
    assert g[0] == 'g' && StopSlaveSql[0] == 's';
    ExecCallsDiffer(info, StopSlaveSql, g);
    assert ShowSlaveStatusCmd[1] == 'h' && StopSlaveSql[1] == 't';
    ExecCallsDiffer(info, StopSlaveSql, ShowSlaveStatusCmd);
  }

  /** `ToMaster` runs the grant first, and a grant failure ends it with that
      error. */
  lemma ToMasterGrantFirst(o: Oracle, n: nat, info: ServiceInfo, now: int64)
    requires Typed(o) && Complete(info)
    ensures |ToMasterRun(o, n, info, now).calls| >= 1
    ensures ToMasterRun(o, n, info, now).calls[0] == ExecCall(info, GrantReplicateSql(info.env.value))
    ensures o(n, ExecCall(info, GrantReplicateSql(info.env.value))).Failed? ==>
              ToMasterRun(o, n, info, now) ==
              Run([ExecCall(info, GrantReplicateSql(info.env.value))],
                  Some(o(n, ExecCall(info, GrantReplicateSql(info.env.value))).error))
  {
  }

  /** `ToMaster` stops the slave exactly when the grant and the probe
      succeed and the probed slave is enabled and not lagging; in particular
      a lagging slave is never stopped. */
  lemma ToMasterStopIff(o: Oracle, n: nat, info: ServiceInfo, now: int64)
    requires Typed(o) && Complete(info)
    ensures ExecCall(info, StopSlaveSql) in ToMasterRun(o, n, info, now).calls <==>
            ExecRun(o, n, info, GrantReplicateSql(info.env.value)).value.Success? &&
            ShowSlaveRun(o, n + 1, info, now).value.Success? &&
            ShowSlaveRun(o, n + 1, info, now).value.value.enable &&
            !Lagging(ShowSlaveRun(o, n + 1, info, now).value.value)
  {
    MasterStatementsDiffer(info);
    var g := ExecCall(info, GrantReplicateSql(info.env.value));
    var p := ExecCall(info, ShowSlaveStatusCmd);
    var s := ExecCall(info, StopSlaveSql);
    var calls := ToMasterRun(o, n, info, now).calls;
    assert calls == [g] || calls == [g, p] || calls == [g, p, s];
  }

  /** The outcome of `ToMaster`: the first failing step's error, a lag
      refusal, or, for an enabled slave, the stop's error. */
  lemma ToMasterOutcome(o: Oracle, n: nat, info: ServiceInfo, now: int64)
    requires Typed(o) && Complete(info)
    requires ExecRun(o, n, info, GrantReplicateSql(info.env.value)).value.Success?
    ensures var p := ShowSlaveRun(o, n + 1, info, now).value;
            var r := ToMasterRun(o, n, info, now).value;
            (p.Failure? ==> r == Some(p.error)) &&
            (p.Success? && Lagging(p.value) ==> r == Some(SlaveBehind(p.value.behindSecond))) &&
            (p.Success? && !p.value.enable ==> r == None) &&
            (p.Success? && p.value.enable && !Lagging(p.value) ==>
               r == ErrorOf(o(n + 2, ExecCall(info, StopSlaveSql))))
  {
  }

  /** `ToSlave` fails with the probe's error, issuing nothing else, when the
      probe fails, and does nothing more when already following `m`. */
  lemma ToSlaveEarlyExits(o: Oracle, n: nat, info: ServiceInfo, m: MasterInfo, now: int64)
    requires Typed(o) && Complete(info)
    ensures var p := ShowSlaveRun(o, n, info, now);
            (p.value.Failure? ==> ToSlaveRun(o, n, info, m, now) == Run([ExecCall(info, ShowSlaveStatusCmd)], Some(p.value.error))) &&
            (p.value.Success? && Following(p.value.value, m) ==>
               ToSlaveRun(o, n, info, m, now) == Run([ExecCall(info, ShowSlaveStatusCmd)], None))
  {
  }

  /** Otherwise `ToSlave` is the probe followed by the repoint of the
      probed slave: stop it when enabled, then change the master and start
      it (`RepointSteps`). */
  lemma ToSlaveRepoints(o: Oracle, n: nat, info: ServiceInfo, m: MasterInfo, now: int64)
    requires Typed(o) && Complete(info)
    requires ShowSlaveRun(o, n, info, now).value.Success?
    requires !Following(ShowSlaveRun(o, n, info, now).value.value, m)
    ensures var r := RepointRun(o, n + 1, info, m, ShowSlaveRun(o, n, info, now).value.value.enable);
            ToSlaveRun(o, n, info, m, now) == Run([ExecCall(info, ShowSlaveStatusCmd)] + r.calls, r.value)
  {
  }

  /** The requests and the outcome of `RepointRun`, spelled out. */
  lemma RepointSteps(o: Oracle, n: nat, info: ServiceInfo, m: MasterInfo, enabled: bool)
    requires Typed(o) && Complete(info)
    ensures var stop := if enabled then [ExecCall(info, StopSlaveSql)] else [];
            var k := n + |stop|;
            var change := ExecCall(info, ChangeMasterSql(info.env.value, m));
            var start := ExecCall(info, StartSlaveSql);
            var run := RepointRun(o, n, info, m, enabled);
            (o(k, change).Failed? ==> run == Run(stop + [change], ErrorOf(o(k, change)))) &&
            (!o(k, change).Failed? ==> run == Run(stop + [change, start], ErrorOf(o(k + 1, start))))
  {
    var stop := if enabled then [ExecCall(info, StopSlaveSql)] else [];
    PointAtSteps(o, n + |stop|, info, m);
  }

  /** Change-master, then start-slave only after the change succeeded. */
  lemma PointAtSteps(o: Oracle, n: nat, info: ServiceInfo, m: MasterInfo)
    requires Typed(o) && Complete(info)
    ensures var change := ExecCall(info, ChangeMasterSql(info.env.value, m));
            var start := ExecCall(info, StartSlaveSql);
            var run := PointAtRun(o, n, info, m);
            (o(n, change).Failed? ==> run == Run([change], ErrorOf(o(n, change)))) &&
            (!o(n, change).Failed? ==> run == Run([change, start], ErrorOf(o(n + 1, start))))
  {
    var change := ExecCall(info, ChangeMasterSql(info.env.value, m));
    var start := ExecCall(info, StartSlaveSql);
    assert [change] + [start] == [change, start];
  }

  /** `Restore` stops the service first; a stop failure ends it. Otherwise
      the restore job runs and the service is started again even when the
      job failed, and the result is the job's error. */
  lemma RestoreAlwaysRestarts(o: Oracle, n: nat, info: ServiceInfo)
    requires Complete(info)
    ensures RestoreRun(o, n, info).calls[0] == StopService(info.name, info)
    ensures o(n, StopService(info.name, info)).Failed? <==> |RestoreRun(o, n, info).calls| == 1
    ensures !o(n, StopService(info.name, info)).Failed? ==>
              RestoreRun(o, n, info).calls[2] == StartService(info.name, info) &&
              RestoreRun(o, n, info).value == ErrorOf(o(n + 1, RestoreCall(info)))
    ensures RestoreRun(o, n, info).value.None? ==> !o(n, StopService(info.name, info)).Failed?
  {
  }

  // ---------------------------------------------------------------------------
  // The module

  class Mariadb {
    const hub: Hub

    constructor (hub: Hub)
      ensures this.hub == hub
    {
      this.hub := hub;
    }

    method ExecDatabaseCmd(info: ServiceInfo, sql: string) returns (r: Result<string>)
      requires Typed(hub.reply) && info.env.Some?
      modifies hub
      ensures var run := ExecRun(hub.reply, |old(hub.trace)|, info, sql);
              hub.trace == old(hub.trace) + run.calls && r == run.value
    {
      var reply := hub.Send(ExecCall(info, sql));
      r := TextOf(reply);
    }

    method ShowMasterStatus(info: ServiceInfo, now: int64) returns (r: Result<MasterStatus>)
      requires Typed(hub.reply) && Complete(info)
      modifies hub
      ensures var run := ShowMasterRun(hub.reply, |old(hub.trace)|, info, now);
              hub.trace == old(hub.trace) + run.calls && r == run.value
    {
      var out := ExecDatabaseCmd(info, ShowMasterStatusCmd);
      if out.Failure? {
        return Failure(out.error);
      }
      var scan := ParseMasterOutput(out.value);
      r := Success(MasterStatusOf(scan, info.svc.value, now));
    }

    method ShowSlaveStatus(info: ServiceInfo, now: int64) returns (r: Result<SlaveStatus>)
      requires Typed(hub.reply) && Complete(info)
      modifies hub
      ensures var run := ShowSlaveRun(hub.reply, |old(hub.trace)|, info, now);
              hub.trace == old(hub.trace) + run.calls && r == run.value
    {
      var out := ExecDatabaseCmd(info, ShowSlaveStatusCmd);
      if out.Failure? {
        return Failure(out.error);
      }
      var scan := ParseSlaveOutput(out.value);
      r := Success(SlaveStatusOf(scan, now));
    }

    method ToMaster(info: ServiceInfo, now: int64) returns (err: Outcome)
      requires Typed(hub.reply) && Complete(info)
      modifies hub
      ensures var run := ToMasterRun(hub.reply, |old(hub.trace)|, info, now);
              hub.trace == old(hub.trace) + run.calls && err == run.value
    {
      ghost var g := ExecCall(info, GrantReplicateSql(info.env.value));
      ghost var p := ExecCall(info, ShowSlaveStatusCmd);
      var grant := ExecDatabaseCmd(info, GrantReplicateSql(info.env.value));
      if grant.Failure? {
        return Some(grant.error);
      }
      assert hub.trace == old(hub.trace) + [g];
      var status := ShowSlaveStatus(info, now);
      assert hub.trace == old(hub.trace) + [g] + [p];
      if status.Failure? {
        return Some(status.error);
      }
      var st := status.value;
      if st.enable && st.runningOK && st.behindSecond > 0 {
        return Some(SlaveBehind(st.behindSecond));
      }
      if st.enable {
        var stop := ExecDatabaseCmd(info, StopSlaveSql);
        return if stop.Failure? then Some(stop.error) else None;
      }
      err := None;
    }

    method CheckMaster(info: ServiceInfo, now: int64) returns (r: Result<MasterStatus>)
      requires Typed(hub.reply) && Complete(info)
      modifies hub
      ensures var run := ShowMasterRun(hub.reply, |old(hub.trace)|, info, now);
              hub.trace == old(hub.trace) + run.calls && r == run.value
    {
      r := ShowMasterStatus(info, now);
    }

    method Backup(info: ServiceInfo) returns (r: Result<string>)
      requires Complete(info) && info.HasBackPath()
      modifies hub
      ensures var run := BackupRun(hub.reply, |old(hub.trace)|, info);
              hub.trace == old(hub.trace) + run.calls && r == run.value
    {
      var reply := hub.Send(BackupCall(info));
      if reply.Failed? {
        return Failure(reply.error);
      }
      r := Success(info.volumes.value.backPath.value.value);
    }

    method ToSlave(info: ServiceInfo, m: MasterInfo, now: int64) returns (err: Outcome)
      requires Typed(hub.reply) && Complete(info)
      modifies hub
      ensures var run := ToSlaveRun(hub.reply, |old(hub.trace)|, info, m, now);
              hub.trace == old(hub.trace) + run.calls && err == run.value
    {
      ghost var p := ShowSlaveRun(hub.reply, |hub.trace|, info, now);
      ToSlaveProbesFirst(hub.reply, |hub.trace|, info, m, now);
      var status := ShowSlaveStatus(info, now);
      ghost var t1 := hub.trace;
      err := AfterProbe(info, m, status);
      CallsAssoc(old(hub.trace), p.calls, AfterProbeRun(hub.reply, |t1|, info, m, status).calls);
    }

    /** What `ToSlave` does with the probed status. */
    method AfterProbe(info: ServiceInfo, m: MasterInfo, status: Result<SlaveStatus>) returns (err: Outcome)
      requires Typed(hub.reply) && Complete(info)
      modifies hub
      ensures var run := AfterProbeRun(hub.reply, |old(hub.trace)|, info, m, status);
              hub.trace == old(hub.trace) + run.calls && err == run.value
    {
      if status.Failure? {
        return Some(status.error);
      }
      var st := status.value;
      if st.enable && st.masterHost == m.host && st.masterPort == m.port {
        return None;
      }
      err := Repoint(info, m, st.enable);
    }

    method Repoint(info: ServiceInfo, m: MasterInfo, enabled: bool) returns (err: Outcome)
      requires Typed(hub.reply) && Complete(info)
      modifies hub
      ensures var run := RepointRun(hub.reply, |old(hub.trace)|, info, m, enabled);
              hub.trace == old(hub.trace) + run.calls && err == run.value
    {
      ghost var t0 := hub.trace;
      if enabled {
        var _ := ExecDatabaseCmd(info, StopSlaveSql);
      }
      ghost var stop := if enabled then [ExecCall(info, StopSlaveSql)] else [];
      assert hub.trace == t0 + stop;
      ghost var t1 := hub.trace;
      err := PointAt(info, m);
      assert hub.trace == t0 + (stop + PointAtRun(hub.reply, |t1|, info, m).calls);
    }

    method PointAt(info: ServiceInfo, m: MasterInfo) returns (err: Outcome)
      requires Typed(hub.reply) && Complete(info)
      modifies hub
      ensures var run := PointAtRun(hub.reply, |old(hub.trace)|, info, m);
              hub.trace == old(hub.trace) + run.calls && err == run.value
    {
      var change := ExecDatabaseCmd(info, ChangeMasterSql(info.env.value, m));
      if change.Failure? {
        return Some(change.error);
      }
      var start := ExecDatabaseCmd(info, StartSlaveSql);
      assert hub.trace == old(hub.trace) + ([ExecCall(info, ChangeMasterSql(info.env.value, m))] + [ExecCall(info, StartSlaveSql)]);
      err := if start.Failure? then Some(start.error) else None;
    }

    method CheckSlave(info: ServiceInfo, now: int64) returns (r: Result<SlaveStatus>)
      requires Typed(hub.reply) && Complete(info)
      modifies hub
      ensures var run := ShowSlaveRun(hub.reply, |old(hub.trace)|, info, now);
              hub.trace == old(hub.trace) + run.calls && r == run.value
    {
      r := ShowSlaveStatus(info, now);
    }

    method Restore(info: ServiceInfo) returns (err: Outcome)
      requires Complete(info)
      modifies hub
      ensures var run := RestoreRun(hub.reply, |old(hub.trace)|, info);
              hub.trace == old(hub.trace) + run.calls && err == run.value
    {
      var stop := hub.Send(StopService(info.name, info));
      if stop.Failed? {
        return Some(stop.error);
      }
      var job := hub.Send(RestoreCall(info));
      var _ := hub.Send(StartService(info.name, info));
      err := ErrorOf(job);
    }
  }
}
