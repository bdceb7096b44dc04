/** The kernel's half of a role switch for one MariaDB service: look the
    service up through the driver, then either promote it (and point the
    cluster service back at this node) or check that the peer really is the
    master, resynchronise from the peer when the local binlog position is
    too old, demote the service to a slave of the peer and redirect the
    cluster service to the peer.

    As in the MariaDB module, each operation is a `...Run` function listing
    the requests it makes, in order, and what it returns, for any answers;
    the methods of `Kernel.Base` are proved to make exactly those requests. */
module KernelMariadb {
  import opened Wrappers
  import opened Text
  import opened Common
  import opened Effects
  import Config

  /** The package-wide values the kernel reads while switching: the peer's
      address and shared secret, the temporary directory (`GetTmpPath`) and
      the port of the peer's agent (`GetNodePort`). */
  datatype Settings = Settings(remoteHost: string, syncSecret: string, tmpPath: string, nodePort: string)

  function SettingsOf(c: Config.CfgItem, nodePort: string): Settings {
    Settings(c.remoteHost, c.syncSecret, Config.TmpPathOf(c), nodePort)
  }

  function BackPath(info: ServiceInfo): string
    requires info.HasBackPath()
  {
    info.volumes.value.backPath.value.value
  }

  /** A service whose back-up directory lies below the temporary directory,
      so that the relative name the sync module is given exists. */
  predicate Placed(info: ServiceInfo, tmp: string) {
    info.HasBackPath() && |tmp| < |BackPath(info)|
  }

  /** What the kernel takes for granted about the answers it gets, without
      checking: the source dereferences or slices them and would panic
      otherwise.  A driver describes a service with its back-up directory
      below the temporary one; the peer describes its service with an
      endpoint; the peer's back-up directory lies below the temporary one. */
  ghost predicate Sound(o: Oracle, tmp: string) {
    (forall n: nat, name: string, catalog: string ::
       o(n, QueryService(name, catalog)).Service? ==> Placed(o(n, QueryService(name, catalog)).info, tmp)) &&
    (forall n: nat, host: string, port: string, name: string, catalog: string ::
       o(n, QueryRemoteService(host, port, name, catalog)).Service? ==>
         o(n, QueryRemoteService(host, port, name, catalog)).info.svc.Some?) &&
    (forall n: nat, host: string, port: string, name: string, secret: string ::
       o(n, BackupFromRemote(host, port, name, secret)).DataPath? ==>
         |tmp| < |o(n, BackupFromRemote(host, port, name, secret)).path|)
  }

  ghost predicate Answers(o: Oracle, tmp: string) {
    Typed(o) && Sound(o, tmp)
  }

  // ---------------------------------------------------------------------------
  // Files under the back-up directory

  function MasterFile(info: ServiceInfo): string
    requires info.HasBackPath()
  {
    Config.PathJoin(BackPath(info), "master.json")
  }

  function SlaveFile(info: ServiceInfo): string
    requires info.HasBackPath()
  {
    Config.PathJoin(BackPath(info), "slave.json")
  }

  /** The position marker `mariabackup` leaves in a back-up. */
  function BinlogFile(info: ServiceInfo): string
    requires info.HasBackPath()
  {
    Config.PathJoin(BackPath(info), MariadbBackupBinlogFile)
  }

  /** The three files the kernel reads or writes under a back-up directory
      are distinct. */
  lemma BackupFilesDistinct(info: ServiceInfo)
    requires info.HasBackPath()
    ensures MasterFile(info) != SlaveFile(info)
    ensures MasterFile(info) != BinlogFile(info) && SlaveFile(info) != BinlogFile(info)
  {
    var d := BackPath(info);
    var names := ["master.json", "slave.json", MariadbBackupBinlogFile];
    forall i, j | 0 <= i < j < 3
      ensures Config.PathJoin(d, names[i]) != Config.PathJoin(d, names[j])
    {
      assert |names[i]| != |names[j]|;
    }
  }

  // ---------------------------------------------------------------------------
  // Looking services up

  /** `queryLocalServiceInfo`: the driver's record of the MariaDB service of
      that name; an answer that is not a service record is an error. */
  function LocalInfoRun(o: Oracle, n: nat, name: string): Run<Result<ServiceInfo>> {
    var c := QueryService(name, Mariadb);
    var r := o(n, c);
    Run([c], if r.Failed? then Failure(r.error) else if r.Service? then Success(r.info) else Failure(IllegalServiceInfo))
  }

  /** `QueryLocalMariadbStatus`: look the service up, then ask the MariaDB
      module for its master status and its slave status; the first failure
      ends it. */
  function ProbeRun(o: Oracle, n: nat, name: string): Run<Result<(MasterStatus, SlaveStatus)>>
    requires Typed(o)
  {
    var q := LocalInfoRun(o, n, name);
    if q.value.Failure? then Run(q.calls, Failure(q.value.error))
    else
      var info := q.value.value;
      var m := o(n + 1, CheckMaster(info));
      if m.Failed? then Run(q.calls + [CheckMaster(info)], Failure(m.error))
      else
        var s := o(n + 2, CheckSlave(info));
        Run(q.calls + [CheckMaster(info), CheckSlave(info)],
            if s.Failed? then Failure(s.error) else Success((m.master, s.slave)))
  }

  /** The probe stops at the first failing request.  It succeeds exactly
      when the driver returns a service record and both status requests
      succeed, and then returns the two statuses the MariaDB module
      reported. */
  lemma ProbeSteps(o: Oracle, n: nat, name: string)
    requires Typed(o)
    ensures var q := o(n, QueryService(name, Mariadb));
            var p := ProbeRun(o, n, name);
            (!q.Service? ==> p == Run([QueryService(name, Mariadb)], Failure(if q.Failed? then q.error else IllegalServiceInfo))) &&
            (q.Service? ==>
               var m := o(n + 1, CheckMaster(q.info));
               var s := o(n + 2, CheckSlave(q.info));
               (m.Failed? ==> p == Run([QueryService(name, Mariadb), CheckMaster(q.info)], Failure(m.error))) &&
               (!m.Failed? ==> p.calls == [QueryService(name, Mariadb), CheckMaster(q.info), CheckSlave(q.info)]) &&
               (p.value.Success? <==> !m.Failed? && !s.Failed?) &&
               (p.value.Success? ==> p.value.value == (m.master, s.slave)))
  {
  }

  // ---------------------------------------------------------------------------
  // Checking the peer

  /** The peer may become our master only when it reports an enabled master
      and no enabled slave. */
  function Eligibility(m: Option<MasterStatus>, s: Option<SlaveStatus>): Outcome {
    if m.None? || !m.value.enable then Some(MasterMissingOrDisabled)
    else if s.Some? && s.value.enable then Some(RemoteRemainsSlave)
    else None
  }

  /** How long a saved binlog position stays usable: three days, in
      milliseconds. */
  const Retention: int := 3 * 24 * 60 * 60 * 1000

  /** The saved position is recent enough: the 64-bit difference between
      the clock and its time stamp is below three days. */
  predicate Fresh(now: int64, stamp: int64) {
    WrapInt64(now - stamp) < Retention
  }

  /** Without overflow, freshness is the strict comparison of the elapsed
      time with three days: a position exactly three days old is stale. */
  lemma FreshIff(now: int64, stamp: int64)
    requires InRange(Bits64, now - stamp)
    ensures Fresh(now, stamp) <==> now - stamp < 259200000
    ensures now - stamp == 259200000 ==> !Fresh(now, stamp)
  {
  }

  /** A full resynchronisation is needed unless `master.json` loads and is
      fresh. */
  function NeedsFullSync(load: Reply, now: int64): bool
    requires load.Failed? || load.Master?
  {
    load.Failed? || !Fresh(now, load.master.timeStamp)
  }

  /** `queryRemoteMariadbStatus` at the peer `host`. */
  function RemoteStatusCall(info: ServiceInfo, host: string, g: Settings): Call {
    QueryRemoteStatus(host, g.nodePort, info.name, g.syncSecret)
  }

  /** `verifyRemoteMasterMariadb`: ask the peer for its status and reject a
      peer that is not a lone master; then, when the saved position is
      missing or stale, restore from the peer and take the position from
      the back-up. */
  function VerifyRun(o: Oracle, n: nat, info: ServiceInfo, host: string, g: Settings, now: int64): Run<Result<MasterStatus>>
    requires Answers(o, g.tmpPath) && Placed(info, g.tmpPath)
  {
    var st := RemoteStatusCall(info, host, g);
    var r := o(n, st);
    if r.Failed? then Run([st], Failure(r.error))
    else if Eligibility(r.remoteMaster, r.remoteSlave).Some? then
      Run([st], Failure(Eligibility(r.remoteMaster, r.remoteSlave).value))
    else
      var ld := LoadStatusFile(MasterFile(info));
      if !NeedsFullSync(o(n + 1, ld), now) then Run([st, ld], Success(r.remoteMaster.value))
      else
        var f := FullSyncRun(o, n + 2, info, host, g, r.remoteMaster.value);
        Run([st, ld] + f.calls, f.value)
  }

  /** The resynchronising part of `verifyRemoteMasterMariadb`: restore,
      read the position marker, overwrite the peer's position with it and
      save the result; a failed save does not fail the check. */
  function FullSyncRun(o: Oracle, n: nat, info: ServiceInfo, host: string, g: Settings, ms: MasterStatus): Run<Result<MasterStatus>>
    requires Answers(o, g.tmpPath) && Placed(info, g.tmpPath)
  {
    var r := RestoreInternalRun(o, n, info, host, g);
    if r.value.Some? then Run(r.calls, Failure(r.value.value))
    else
      var x := ExtractRun(o, n + |r.calls|, info);
      if x.value.Failure? then Run(r.calls + x.calls, Failure(x.value.error))
      else
        var ms' := ms.(logFile := x.value.value.0, logPos := x.value.value.1);
        Run(r.calls + x.calls + [SaveStatusFile(MasterFile(info), ms')], Success(ms'))
  }

  /** A peer that fails the status request, or is not a lone master, ends
      the check at once with that error. */
  lemma VerifyRejects(o: Oracle, n: nat, info: ServiceInfo, host: string, g: Settings, now: int64)
    requires Answers(o, g.tmpPath) && Placed(info, g.tmpPath)
    ensures var r := o(n, RemoteStatusCall(info, host, g));
            var v := VerifyRun(o, n, info, host, g, now);
            (r.Failed? ==> v == Run([RemoteStatusCall(info, host, g)], Failure(r.error))) &&
            (r.RemoteStatus? && (r.remoteMaster.None? || !r.remoteMaster.value.enable) ==>
               v == Run([RemoteStatusCall(info, host, g)], Failure(MasterMissingOrDisabled))) &&
            (r.RemoteStatus? && r.remoteMaster.Some? && r.remoteMaster.value.enable &&
             r.remoteSlave.Some? && r.remoteSlave.value.enable ==>
               v == Run([RemoteStatusCall(info, host, g)], Failure(RemoteRemainsSlave)))
  {
  }

  /** With a lone master as peer and a fresh saved position, the peer's
      status is accepted unchanged and nothing is restored. */
  lemma VerifyFresh(o: Oracle, n: nat, info: ServiceInfo, host: string, g: Settings, now: int64)
    requires Answers(o, g.tmpPath) && Placed(info, g.tmpPath)
    requires o(n, RemoteStatusCall(info, host, g)).RemoteStatus?
    requires Eligibility(o(n, RemoteStatusCall(info, host, g)).remoteMaster, o(n, RemoteStatusCall(info, host, g)).remoteSlave).None?
    requires o(n + 1, LoadStatusFile(MasterFile(info))).Master?
    requires Fresh(now, o(n + 1, LoadStatusFile(MasterFile(info))).master.timeStamp)
    ensures VerifyRun(o, n, info, host, g, now) ==
            Run([RemoteStatusCall(info, host, g), LoadStatusFile(MasterFile(info))],
                Success(o(n, RemoteStatusCall(info, host, g)).remoteMaster.value))
  {
  }

  /** On the resynchronising path a restore or marker failure ends the
      check; otherwise the result is the peer's status with the marker's
      file and position, which is saved, and the save's answer is ignored. */
  lemma FullSyncOutcome(o: Oracle, n: nat, info: ServiceInfo, host: string, g: Settings, ms: MasterStatus)
    requires Answers(o, g.tmpPath) && Placed(info, g.tmpPath)
    ensures var r := RestoreInternalRun(o, n, info, host, g);
            var f := FullSyncRun(o, n, info, host, g, ms);
            (r.value.Some? ==> f == Run(r.calls, Failure(r.value.value))) &&
            (r.value.None? ==>
               var x := ExtractRun(o, n + |r.calls|, info);
               (x.value.Failure? ==> f.value == Failure(x.value.error) && |f.calls| == |r.calls| + 1) &&
               (x.value.Success? ==>
                  f.value.Success? &&
                  f.value.value == MasterStatus(ms.enable, ms.host, ms.port, x.value.value.0, x.value.value.1, ms.timeStamp) &&
                  f.calls[|f.calls| - 1] == SaveStatusFile(MasterFile(info), f.value.value)))
  {
  }

  // ---------------------------------------------------------------------------
  // Restoring from the peer

  /** `syncRemoteMariadbToLocal`'s request: the local and the remote
      back-up directories relative to the temporary directory (their first
      `|tmp| + 1` characters dropped). */
  function SyncInfoOf(info: ServiceInfo, remotePath: string, tmp: string): SyncInfo
    requires Placed(info, tmp) && |tmp| < |remotePath|
  {
    SyncInfo(info.name, BackPath(info)[|tmp| + 1..], remotePath[|tmp| + 1..])
  }

  /** For directories of the form `tmp/<name>` the request carries exactly
      the two relative names. */
  lemma SyncInfoRelative(info: ServiceInfo, tmp: string, local: string, remote: string)
    requires info.HasBackPath() && BackPath(info) == tmp + "/" + local
    ensures Placed(info, tmp)
    ensures SyncInfoOf(info, tmp + "/" + remote, tmp) == SyncInfo(info.name, local, remote)
  {
    assert BackPath(info)[|tmp| + 1..] == local;
    assert (tmp + "/" + remote)[|tmp| + 1..] == remote;
  }

  function BackupRemoteCall(info: ServiceInfo, host: string, g: Settings): Call {
    BackupFromRemote(host, g.nodePort, info.name, g.syncSecret)
  }

  /** `restoreMariadbInternal`: have the peer back itself up, copy the
      back-up here, and restore it; the first failure ends it. */
  function RestoreInternalRun(o: Oracle, n: nat, info: ServiceInfo, host: string, g: Settings): Run<Outcome>
    requires Answers(o, g.tmpPath) && Placed(info, g.tmpPath)
  {
    var b := BackupRemoteCall(info, host, g);
    var rb := o(n, b);
    if rb.Failed? then Run([b], Some(rb.error))
    else
      var s := SyncFilesToLocal(SyncInfoOf(info, rb.path, g.tmpPath));
      if o(n + 1, s).Failed? then Run([b, s], Some(o(n + 1, s).error))
      else Run([b, s, RestoreDatabase(info)], ErrorOf(o(n + 2, RestoreDatabase(info))))
  }

  /** The restore runs back-up, sync and restore in that order, stops at
      the first failure, and succeeds only when all three do. */
  lemma RestoreInternalOrder(o: Oracle, n: nat, info: ServiceInfo, host: string, g: Settings)
    requires Answers(o, g.tmpPath) && Placed(info, g.tmpPath)
    ensures var r := RestoreInternalRun(o, n, info, host, g);
            1 <= |r.calls| <= 3 && r.calls[0] == BackupRemoteCall(info, host, g) &&
            (|r.calls| >= 2 ==> r.calls[1].SyncFilesToLocal? && !o(n, r.calls[0]).Failed?) &&
            (|r.calls| == 3 ==> r.calls[2] == RestoreDatabase(info) && !o(n + 1, r.calls[1]).Failed?) &&
            (r.value.Some? <==> o(n + |r.calls| - 1, r.calls[|r.calls| - 1]).Failed?) &&
            (r.value.None? ==> |r.calls| == 3)
  {
    var b := BackupRemoteCall(info, host, g);
    if o(n, b).DataPath? {
      assert |g.tmpPath| < |o(n, BackupFromRemote(host, g.nodePort, info.name, g.syncSecret)).path|;
    }
  }

  // ---------------------------------------------------------------------------
  // The position marker

  /** `extractBinlog`'s parse of the marker: the first line must hold
      exactly three tab-separated fields, the file name and the position
      (parsed base 10 with the error ignored) are the first two. */
  function ParseBinlog(text: string): Result<(string, int64)> {
    var lines := ScanLines(text);
    if |lines| == 0 then Failure(EmptyBinlog)
    else
      var items := Split(lines[0], '\t');
      if |items| != 3 then Failure(IllegalBinlog(|items|))
      else Success((items[0], ParseIntValue(items[1], Bits64)))
  }

  /** `extractBinlog`: read the marker of the service's back-up. */
  function ExtractRun(o: Oracle, n: nat, info: ServiceInfo): Run<Result<(string, int64)>>
    requires Typed(o) && info.HasBackPath()
  {
    var c := ReadFile(BinlogFile(info));
    var r := o(n, c);
    Run([c], if r.Failed? then Failure(r.error) else ParseBinlog(r.text))
  }

  /** A marker line `file<TAB>pos<TAB>gtid` followed by anything gives back
      the file and the position. */
  lemma BinlogRoundTrip(file: string, pos: int64, gtid: string, rest: string)
    requires '\t' !in file && '\n' !in file && '\t' !in gtid && '\n' !in gtid && '\r' !in gtid
    ensures ParseBinlog(file + "\t" + FormatInt(pos) + "\t" + gtid + "\n" + rest) == Success((file, pos))
  {
    var p := FormatInt(pos);
    FormatIntChars(pos);
    var line := file + "\t" + p + "\t" + gtid;
    MarkerLineChars(file, p, gtid);
    SplitThree(file, p, gtid);
    FirstLine(line, rest);
    ParseFormatInt(pos, Bits64);
    ParseBinlogOf(line + "\n" + rest, line);
  }

  /** The first line of a marker is a single line without a trailing
      carriage return. */
  lemma MarkerLineChars(file: string, pos: string, gtid: string)
    requires '\n' !in file && '\n' !in gtid && '\r' !in gtid
    requires forall k :: 0 <= k < |pos| ==> pos[k] == '-' || IsDigit(pos[k])
    ensures var line := file + "\t" + pos + "\t" + gtid;
            '\n' !in line && (|line| == 0 || line[|line| - 1] != '\r')
  {
    var line := file + "\t" + pos + "\t" + gtid;
    assert forall k :: 0 <= k < |line| ==>
      (k < |file| && line[k] == file[k]) || line[k] == '\t' ||
      (|file| + 1 <= k < |file| + 1 + |pos| && line[k] == pos[k - |file| - 1]) ||
      (|file| + |pos| + 2 <= k && line[k] == gtid[k - |file| - |pos| - 2]);
  }

  lemma ParseBinlogOf(text: string, line: string)
    requires |ScanLines(text)| > 0 && ScanLines(text)[0] == line && |Split(line, '\t')| == 3
    ensures ParseBinlog(text) == Success((Split(line, '\t')[0], ParseIntValue(Split(line, '\t')[1], Bits64)))
  {
  }

  /** Splitting `a<TAB>b<TAB>c` on tabs gives the three fields back. */
  lemma SplitThree(a: string, b: string, c: string)
    requires '\t' !in a && '\t' !in c
    requires forall k :: 0 <= k < |b| ==> b[k] == '-' || IsDigit(b[k])
    ensures Split(a + "\t" + b + "\t" + c, '\t') == [a, b, c]
  {
    assert '\t' !in b;
    assert Join([b, c], "\t") == b + "\t" + c;
    assert [a, b, c][1..] == [b, c];
    assert Join([a, b, c], "\t") == a + "\t" + b + "\t" + c;
    SplitJoin([a, b, c], '\t');
  }

  /** The first line the scanner yields for `line\nrest`. */
  lemma FirstLine(line: string, rest: string)
    requires '\n' !in line && (|line| == 0 || line[|line| - 1] != '\r')
    ensures |ScanLines(line + "\n" + rest)| > 0 && ScanLines(line + "\n" + rest)[0] == line
  {
    var s := line + "\n" + rest;
    IndexOfFirst(line, '\n', rest);
    assert s[..|line|] == line;
  }

  /** An empty marker, or a first line that does not hold exactly three
      fields, is an error naming the field count; an unparsable position
      reads as 0. */
  lemma BinlogErrors(text: string)
    ensures text == "" ==> ParseBinlog(text) == Failure(EmptyBinlog)
    ensures |ScanLines(text)| > 0 && |Split(ScanLines(text)[0], '\t')| != 3 ==>
              ParseBinlog(text) == Failure(IllegalBinlog(|Split(ScanLines(text)[0], '\t')|))
    ensures |ScanLines(text)| > 0 && |Split(ScanLines(text)[0], '\t')| == 3 && !IntSyntax(Split(ScanLines(text)[0], '\t')[1]) ==>
              ParseBinlog(text) == Success((Split(ScanLines(text)[0], '\t')[0], 0))
  {
  }

  // ---------------------------------------------------------------------------
  // Switching

  /** `changeServiceEndpoint`: ask the peer (the configured remote host)
      for its own record of the service and redirect the cluster service to
      the peer's endpoint. */
  function EndpointRun(o: Oracle, n: nat, info: ServiceInfo, g: Settings): Run<Outcome>
    requires Answers(o, g.tmpPath)
  {
    var q := QueryRemoteService(g.remoteHost, g.nodePort, info.name, info.catalog);
    var r := o(n, q);
    if r.Failed? then Run([q], Some(r.error))
    else
      var e := ChangeEndpoints(info, r.info.svc.value);
      Run([q, e], ErrorOf(o(n + 1, e)))
  }

  /** What `SwitchMariadb` passes on to the MariaDB module. */
  function MasterInfoOf(ms: MasterStatus): MasterInfo {
    MasterInfo(ms.host, ms.port, ms.logFile, ms.logPos)
  }

  /** `SwitchMariadb` of the service `name` under the designation `cfg`. */
  function SwitchRun(o: Oracle, n: nat, name: string, cfg: Config.CfgItem, g: Settings, now: int64): Run<Outcome>
    requires Answers(o, g.tmpPath) && cfg.status.Some?
  {
    var q := LocalInfoRun(o, n, name);
    if q.value.Failure? then Run(q.calls, Some(q.value.error))
    else
      var info := q.value.value;
      var rest := if cfg.localHost == cfg.status.value.master then PromoteRun(o, n + 1, info)
                  else DemoteRun(o, n + 1, info, cfg.remoteHost, g, now);
      Run(q.calls + rest.calls, rest.value)
  }

  /** The master branch: switch to master, then restore the endpoints. */
  function PromoteRun(o: Oracle, n: nat, info: ServiceInfo): Run<Outcome> {
    var m := SwitchToMaster(info);
    if o(n, m).Failed? then Run([m], Some(o(n, m).error))
    else Run([m, RestoreEndpoints(info)], ErrorOf(o(n + 1, RestoreEndpoints(info))))
  }

  /** The slave branch: verify the peer `host`, switch to slave of it, then
      point the endpoints at the peer. */
  function DemoteRun(o: Oracle, n: nat, info: ServiceInfo, host: string, g: Settings, now: int64): Run<Outcome>
    requires Answers(o, g.tmpPath) && Placed(info, g.tmpPath)
  {
    var v := VerifyRun(o, n, info, host, g, now);
    var a := ThenSlaveRun(o, n + |v.calls|, info, v.value, g);
    Run(v.calls + a.calls, a.value)
  }

  /** The slave branch after the verification returned `verified`. */
  function ThenSlaveRun(o: Oracle, n: nat, info: ServiceInfo, verified: Result<MasterStatus>, g: Settings): Run<Outcome>
    requires Answers(o, g.tmpPath)
  {
    if verified.Failure? then Run([], Some(verified.error))
    else
      var s := SwitchToSlave(info, MasterInfoOf(verified.value));
      if o(n, s).Failed? then Run([s], Some(o(n, s).error))
      else
        var e := EndpointRun(o, n + 1, info, g);
        Run([s] + e.calls, e.value)
  }

  /** The local service was found. */
  predicate Found(o: Oracle, n: nat, name: string) {
    o(n, QueryService(name, Mariadb)).Service?
  }

  /** The master branch is taken exactly when this node is the designated
      master; there the endpoints are restored only after a successful
      switch to master, the result then being the restore's error, and the
      slave-side requests are never made. */
  lemma SwitchPromotes(o: Oracle, n: nat, name: string, cfg: Config.CfgItem, g: Settings, now: int64)
    requires Answers(o, g.tmpPath) && cfg.status.Some? && Found(o, n, name)
    requires cfg.localHost == cfg.status.value.master
    ensures var info := o(n, QueryService(name, Mariadb)).info;
            var r := SwitchRun(o, n, name, cfg, g, now);
            r.calls[..2] == [QueryService(name, Mariadb), SwitchToMaster(info)] &&
            (RestoreEndpoints(info) in r.calls <==> !o(n + 1, SwitchToMaster(info)).Failed?) &&
            (o(n + 1, SwitchToMaster(info)).Failed? ==> r.value == Some(o(n + 1, SwitchToMaster(info)).error)) &&
            (!o(n + 1, SwitchToMaster(info)).Failed? ==> r.value == ErrorOf(o(n + 2, RestoreEndpoints(info)))) &&
            (forall c :: c in r.calls ==> !c.SwitchToSlave? && !c.ChangeEndpoints?)
  {
  }

  /** Off the master, the switch is the look-up followed by the slave
      branch (`DemoteShape`), so no promotion is ever requested there. */
  lemma SwitchDemotes(o: Oracle, n: nat, name: string, cfg: Config.CfgItem, g: Settings, now: int64)
    requires Answers(o, g.tmpPath) && cfg.status.Some? && Found(o, n, name)
    requires cfg.localHost != cfg.status.value.master
    ensures var info := o(n, QueryService(name, Mariadb)).info;
            Placed(info, g.tmpPath) &&
            var d := DemoteRun(o, n + 1, info, cfg.remoteHost, g, now);
            SwitchRun(o, n, name, cfg, g, now) == Run([QueryService(name, Mariadb)] + d.calls, d.value)
  {
    var info := o(n, QueryService(name, Mariadb)).info;
    assert Placed(info, g.tmpPath);
  }

  /** The slave branch on its own: nothing is promoted or restored, a failed
      verification ends it, and otherwise the switch to slave follows the
      verification and precedes the endpoint change. */
  lemma DemoteShape(o: Oracle, n: nat, info: ServiceInfo, host: string, g: Settings, now: int64)
    requires Answers(o, g.tmpPath) && Placed(info, g.tmpPath)
    ensures var v := VerifyRun(o, n, info, host, g, now);
            var d := DemoteRun(o, n, info, host, g, now);
            (forall c :: c in d.calls ==> !c.SwitchToMaster? && !c.RestoreEndpoints?) &&
            (v.value.Failure? ==> d == Run(v.calls, Some(v.value.error))) &&
            (v.value.Success? ==>
               var s := SwitchToSlave(info, MasterInfoOf(v.value.value));
               var k := n + |v.calls|;
               |d.calls| > |v.calls| && d.calls[..1 + |v.calls|] == v.calls + [s] &&
               (o(k, s).Failed? ==> d == Run(v.calls + [s], Some(o(k, s).error))) &&
               (!o(k, s).Failed? ==> |d.calls| > 1 + |v.calls| && d.calls[1 + |v.calls|].QueryRemoteService? &&
                                     d.value == EndpointRun(o, k + 1, info, g).value))
  {
    var v := VerifyRun(o, n, info, host, g, now);
    var a := ThenSlaveRun(o, n + |v.calls|, info, v.value, g);
    VerifyCallsKinds(o, n, info, host, g, now);
    ThenSlaveShape(o, n + |v.calls|, info, v.value, g);
    var d := DemoteRun(o, n, info, host, g, now);
    assert d.calls == v.calls + a.calls;
    if v.value.Success? {
      assert d.calls[..1 + |v.calls|] == v.calls + a.calls[..1];
      if |a.calls| > 1 {
        assert d.calls[1 + |v.calls|] == a.calls[1];
      }
    }
  }

  /** What follows the verification: nothing when it failed; otherwise the
      switch to slave first, and the peer query next when that succeeded. */
  lemma ThenSlaveShape(o: Oracle, n: nat, info: ServiceInfo, verified: Result<MasterStatus>, g: Settings)
    requires Answers(o, g.tmpPath)
    ensures var a := ThenSlaveRun(o, n, info, verified, g);
            (forall c :: c in a.calls ==> !c.SwitchToMaster? && !c.RestoreEndpoints?) &&
            (verified.Failure? ==> a == Run([], Some(verified.error))) &&
            (verified.Success? ==>
               var s := SwitchToSlave(info, MasterInfoOf(verified.value));
               |a.calls| > 0 && a.calls[0] == s &&
               (o(n, s).Failed? ==> a == Run([s], Some(o(n, s).error))) &&
               (!o(n, s).Failed? ==> |a.calls| > 1 && a.calls[1].QueryRemoteService? &&
                                     a.value == EndpointRun(o, n + 1, info, g).value))
  {
  }

  /** The check of the peer never promotes, demotes or redirects anything. */
  lemma VerifyCallsKinds(o: Oracle, n: nat, info: ServiceInfo, host: string, g: Settings, now: int64)
    requires Answers(o, g.tmpPath) && Placed(info, g.tmpPath)
    ensures forall c :: c in VerifyRun(o, n, info, host, g, now).calls ==>
              !c.SwitchToMaster? && !c.RestoreEndpoints? && !c.SwitchToSlave? && !c.ChangeEndpoints?
  {
  }

  // ---------------------------------------------------------------------------
  // Back-up and restore on the peer's request

  /** `BackupMariadb`: look the service up and have the MariaDB module back
      it up; the result is the back-up directory it reports. */
  function BackupMariadbRun(o: Oracle, n: nat, name: string): Run<Result<string>>
    requires Typed(o)
  {
    var q := LocalInfoRun(o, n, name);
    if q.value.Failure? then Run(q.calls, Failure(q.value.error))
    else
      var b := o(n + 1, BackupDatabase(q.value.value));
      Run(q.calls + [BackupDatabase(q.value.value)], if b.Failed? then Failure(b.error) else Success(b.path))
  }

  /** `RestoreMariadb`: look the service up and restore it from the
      configured peer. */
  function RestoreMariadbRun(o: Oracle, n: nat, name: string, g: Settings): Run<Outcome>
    requires Answers(o, g.tmpPath)
  {
    var q := LocalInfoRun(o, n, name);
    if q.value.Failure? then Run(q.calls, Some(q.value.error))
    else
      var r := RestoreInternalRun(o, n + 1, q.value.value, g.remoteHost, g);
      Run(q.calls + r.calls, r.value)
  }

  /** Restoring on request restores from the configured peer: once the
      service is found it is exactly the internal restore. */
  lemma RestoreMariadbFromPeer(o: Oracle, n: nat, name: string, g: Settings)
    requires Answers(o, g.tmpPath) && Found(o, n, name)
    ensures var info := o(n, QueryService(name, Mariadb)).info;
            Placed(info, g.tmpPath) &&
            RestoreMariadbRun(o, n, name, g) ==
              Run([QueryService(name, Mariadb)] + RestoreInternalRun(o, n + 1, info, g.remoteHost, g).calls,
                  RestoreInternalRun(o, n + 1, info, g.remoteHost, g).value)
  {
    assert Placed(o(n, QueryService(name, Mariadb)).info, g.tmpPath);
  }
}
