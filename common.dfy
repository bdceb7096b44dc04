/** The records shared by every module: service descriptions with their
    volumes, credentials and endpoint, the per-catalog service listing, the
    replication status records of the MariaDB module and the Galera cluster
    status predicate. Go pointers become `Option`s. */
module Common {
  import opened Wrappers
  import opened Text

  // ---------------------------------------------------------------------------
  // Catalogs.  The values of these identifiers live outside this model; any
  // six distinct strings, none a substring of another, behave the same way.

  const Mariadb := "mariadb"
  const TsDB := "tsdb"
  const MongoDB := "mongodb"
  const PostgreSQL := "postgresql"
  const FileService := "fileservice"
  const VxBase := "vxbase"

  /** The six catalogs the drivers group services by, in the order they are
      listed. */
  const KnownCatalogs: seq<string> := [Mariadb, TsDB, MongoDB, PostgreSQL, FileService, VxBase]

  // Path types
  const HostPath := "host-path"
  const LocalPath := "local-path"
  const InnerPath := "inner-path"

  /** The marker file mariabackup leaves inside a backup. */
  const MariadbBackupBinlogFile := "data/xtrabackup_binlog_info"

  // ---------------------------------------------------------------------------
  // Service description

  type Labels = map<string, string>

  datatype Spec = Spec(cpu: string, memory: string)
  datatype Path = Path(name: string, value: string, pathType: string)
  datatype Volumes = Volumes(confPath: Option<Path>, dataPath: Option<Path>, backPath: Option<Path>)
  datatype Env = Env(root: string, password: string)
  datatype Svc = Svc(host: string, port: int32)
  datatype ServiceStatus = ServiceStatus(available: bool)

  /** An endpoint is a host and a port, like `Svc`. */
  type Endpoint = Svc

  datatype ServiceInfo = ServiceInfo(
    name: string,
    namespace: string,
    catalog: string,
    image: string,
    labels: Labels,
    spec: Option<Spec>,
    volumes: Option<Volumes>,
    env: Option<Env>,
    svc: Option<Svc>,
    replicas: int32,
    status: Option<ServiceStatus>)
  {
    /** True when the record names a back-up directory. */
    predicate HasBackPath() {
      volumes.Some? && volumes.value.backPath.Some?
    }
  }

  /** Names of services grouped by catalog. */
  type Catalog2ServiceList = map<string, seq<string>>

  datatype SyncInfo = SyncInfo(name: string, local: string, remote: string)

  // ---------------------------------------------------------------------------
  // ServiceInfo.String

  /** `catalog:name`, the key services are logged and reported under. */
  function ServiceKey(s: ServiceInfo): string {
    s.catalog + ":" + s.name
  }

  /** Catalogs never contain ':', so the key identifies the catalog and the
      name it was built from. */
  lemma ServiceKeyInjective(a: ServiceInfo, b: ServiceInfo)
    requires ':' !in a.catalog && ':' !in b.catalog
    requires ServiceKey(a) == ServiceKey(b)
    ensures a.catalog == b.catalog && a.name == b.name
  {
    IndexOfFirst(a.catalog, ':', a.name);
    IndexOfFirst(b.catalog, ':', b.name);
    var k := ServiceKey(a);
    assert a.catalog == k[..|a.catalog|] && b.catalog == k[..|b.catalog|];
    assert a.name == k[|a.catalog| + 1..] && b.name == k[|b.catalog| + 1..];
  }

  // ---------------------------------------------------------------------------
  // Labels.String

  function Pair(k: string, v: string): string {
    k + "=" + v
  }

  /** The `k=v` items of `labels` in the order `order` names the keys. */
  function Pairs(labels: Labels, order: seq<string>): (r: seq<string>)
    requires forall i :: 0 <= i < |order| ==> order[i] in labels
    ensures |r| == |order|
    ensures forall i :: 0 <= i < |order| ==> r[i] == Pair(order[i], labels[order[i]])
  {
    if |order| == 0 then [] else [Pair(order[0], labels[order[0]])] + Pairs(labels, order[1..])
  }

  /** `order` lists every key of a map exactly once: one iteration order of
      a Go map. */
  predicate IsIterationOrder(order: seq<string>, keys: set<string>) {
    (forall i :: 0 <= i < |order| ==> order[i] in keys) &&
    (forall k :: k in keys ==> k in order) &&
    (forall i, j :: 0 <= i < j < |order| ==> order[i] != order[j])
  }

  /** Visit the keys of a Go map: some order listing each key once. */
  method IterationOrder(keys: set<string>) returns (order: seq<string>)
    ensures IsIterationOrder(order, keys)
  {
    order := [];
    var rest := keys;
    while rest != {}
      invariant rest <= keys
      invariant forall i :: 0 <= i < |order| ==> order[i] in keys && order[i] !in rest
      invariant forall k :: k in keys ==> k in rest || k in order
      invariant forall i, j :: 0 <= i < j < |order| ==> order[i] != order[j]
      decreases rest
    {
      var k :| k in rest;
      order := order + [k];
      rest := rest - {k};
    }
  }

  /** The text of `Labels.String` for one iteration order. */
  function LabelsText(labels: Labels, order: seq<string>): string
    requires forall i :: 0 <= i < |order| ==> order[i] in labels
  {
    Join(Pairs(labels, order), ",")
  }

  /** One more key adds its item after a ',' (none before the first), and
      the text is empty only before the first item. */
  lemma LabelsTextSnoc(labels: Labels, order: seq<string>, k: string)
    requires forall i :: 0 <= i < |order| ==> order[i] in labels
    requires k in labels
    ensures var t := LabelsText(labels, order);
            var item := Pair(k, labels[k]);
            LabelsText(labels, order + [k]) == (if |order| == 0 then item else t + "," + item) &&
            LabelsText(labels, order + [k]) != ""
  {
    var item := Pair(k, labels[k]);
    assert Pairs(labels, order + [k]) == Pairs(labels, order) + [item];
    JoinSnoc(Pairs(labels, order), item, ",");
    assert item[|k|] == '=';
  }

  /** `Labels.String`: the map's `k=v` items joined by ',', in the order the
      map happens to be iterated (which Go leaves unspecified; `order` is that
      order). */
  method LabelsString(labels: Labels) returns (str: string, ghost order: seq<string>)
    ensures IsIterationOrder(order, labels.Keys)
    ensures str == LabelsText(labels, order)
  {
    str := "";
    order := [];
    var rest := labels.Keys;
    while rest != {}
      invariant rest <= labels.Keys
      invariant forall i :: 0 <= i < |order| ==> order[i] in labels.Keys && order[i] !in rest
      invariant forall k :: k in labels.Keys ==> k in rest || k in order
      invariant forall i, j :: 0 <= i < j < |order| ==> order[i] != order[j]
      invariant str == LabelsText(labels, order)
      invariant str == "" <==> |order| == 0
      decreases rest
    {
      var k :| k in rest;
      var item := Pair(k, labels[k]);
      LabelsTextSnoc(labels, order, k);
      if str != "" {
        str := str + "," + item;
      } else {
        str := item;
      }
      order := order + [k];
      rest := rest - {k};
    }
  }

  /** An empty map prints as the empty string. */
  lemma LabelsTextEmpty(labels: Labels, order: seq<string>)
    requires |labels| == 0 && IsIterationOrder(order, labels.Keys)
    ensures LabelsText(labels, order) == ""
  {
    DistinctCard(order, labels.Keys);
  }

  /** A single label prints as `k=v`. */
  lemma LabelsTextSingle(labels: Labels, k: string, v: string, order: seq<string>)
    requires labels == map[k := v] && IsIterationOrder(order, labels.Keys)
    ensures LabelsText(labels, order) == k + "=" + v
  {
    DistinctCard(order, labels.Keys);
    assert labels.Keys == {k};
    assert order[0] in labels.Keys;
  }

  lemma PairSplits(k: string, v: string)
    requires '=' !in k && '=' !in v
    ensures Split(Pair(k, v), '=') == [k, v]
  {
    assert Join([k, v], "=") == Pair(k, v);
    SplitJoin([k, v], '=');
  }

  /** When no key or value contains ',' or '=', the text lists every label
      exactly once: splitting on ',' gives one item per key, and splitting
      item i on '=' gives back the i-th key and its value. */
  lemma LabelsTextRecoverable(labels: Labels, order: seq<string>)
    requires IsIterationOrder(order, labels.Keys)
    requires forall k :: k in labels ==> ',' !in k && '=' !in k && ',' !in labels[k] && '=' !in labels[k]
    requires |labels| > 0
    ensures var items := Split(LabelsText(labels, order), ',');
      |items| == |labels| == |order| &&
      forall i :: 0 <= i < |items| ==> Split(items[i], '=') == [order[i], labels[order[i]]]
  {
    var ps := Pairs(labels, order);
    assert |order| > 0 by {
      var k :| k in labels;
      assert k in order;
    }
    forall i | 0 <= i < |ps|
      ensures ',' !in ps[i]
    {
      assert ps[i] == order[i] + "=" + labels[order[i]];
    }
    SplitJoin(ps, ',');
    assert |labels| == |order| by {
      DistinctCard(order, labels.Keys);
    }
    forall i | 0 <= i < |ps|
      ensures Split(ps[i], '=') == [order[i], labels[order[i]]]
    {
      PairSplits(order[i], labels[order[i]]);
    }
  }

  /** A repetition-free listing of a set has the set's size. */
  lemma {:induction false} DistinctCard(order: seq<string>, keys: set<string>)
    requires IsIterationOrder(order, keys)
    ensures |order| == |keys|
    decreases |order|
  {
    if |order| > 0 {
      var last := order[|order| - 1];
      var front := order[..|order| - 1];
      assert forall i :: 0 <= i < |front| ==> front[i] == order[i];
      forall k | k in keys - {last}
        ensures k in front
      {
        var i :| 0 <= i < |order| && order[i] == k;
        assert i < |order| - 1;
      }
      DistinctCard(front, keys - {last});
    }
  }

  // ---------------------------------------------------------------------------
  // Galera cluster status

  const Primary := "Primary"
  const NonPrimary := "Non-Primary"
  const Joining := "Joining"
  const Joined := "Joined"
  const Synced := "Synced"
  const Donor := "Donor"
  const Desynced := "Desynced"
  const Undefined := "Undefined"

  datatype ClusterStatus = ClusterStatus(nodes: seq<string>, nodeSize: int, status: string)
  {
    /** `ClusterStatus.IsNormal`: the node is in one of the six states of a
        working cluster member. */
    predicate IsNormal() {
      match status
      case "Primary" => true
      case "Joining" => true
      case "Joined" => true
      case "Synced" => true
      case "Donor" => true
      case "Desynced" => true
      case _ => false
    }
  }

  /** A node is normal exactly in the states Primary, Joining, Joined, Synced,
      Donor and Desynced; Non-Primary, Undefined and every other string are
      not normal. */
  lemma IsNormalStates(c: ClusterStatus)
    ensures c.IsNormal() <==> c.status in {Primary, Joining, Joined, Synced, Donor, Desynced}
    ensures c.status == NonPrimary || c.status == Undefined ==> !c.IsNormal()
  {
  }

  // ---------------------------------------------------------------------------
  // Replication records of the MariaDB module

  /** The coordinates a slave is pointed at. */
  datatype MasterInfo = MasterInfo(host: string, port: int32, logFile: string, logPos: int64)

  /** `MasterInfo.Dump`. */
  function MasterInfoDump(m: MasterInfo): string {
    "Host:" + m.host + ", Port:" + FormatInt(m.port) + ", LogFile:" + m.logFile +
    ", LogPos:" + FormatInt(m.logPos)
  }

  /** The dump lists Host, Port, LogFile and LogPos in that order: for a host
      and a log file without ',', it splits on ',' into exactly four labelled
      items, and the two numbers read back unchanged. */
  lemma MasterInfoDumpFields(m: MasterInfo)
    requires ',' !in m.host && ',' !in m.logFile
    ensures var items := Split(MasterInfoDump(m), ',');
      items == ["Host:" + m.host, " Port:" + FormatInt(m.port),
                " LogFile:" + m.logFile, " LogPos:" + FormatInt(m.logPos)] &&
      ParseInt(items[1][6..], Bits32) == Some(m.port as int) &&
      ParseInt(items[3][8..], Bits64) == Some(m.logPos as int)
  {
    var items := ["Host:" + m.host, " Port:" + FormatInt(m.port),
                  " LogFile:" + m.logFile, " LogPos:" + FormatInt(m.logPos)];
    MasterInfoDumpJoined(m);
    NoCommaInNumber(m.port);
    NoCommaInNumber(m.logPos);
    forall i | 0 <= i < 4
      ensures ',' !in items[i]
    {
      NoCommaIn(i, items, m);
    }
    SplitJoin(items, ',');
    assert items[1][6..] == FormatInt(m.port);
    assert items[3][8..] == FormatInt(m.logPos);
    ParseFormatInt(m.port, Bits32);
    ParseFormatInt(m.logPos, Bits64);
  }

  /** The dump is its four labelled items joined by ','. */
  lemma MasterInfoDumpJoined(m: MasterInfo)
    ensures Join(["Host:" + m.host, " Port:" + FormatInt(m.port),
                  " LogFile:" + m.logFile, " LogPos:" + FormatInt(m.logPos)], ",") == MasterInfoDump(m)
  {
    var p, f := FormatInt(m.port), FormatInt(m.logPos);
    JoinFour("Host:" + m.host, " Port:" + p, " LogFile:" + m.logFile, " LogPos:" + f, ",");
    LabelAfterComma("Host:" + m.host, " Port:", p);
    LabelAfterComma("Host:" + m.host + ", Port:" + p, " LogFile:", m.logFile);
    LabelAfterComma("Host:" + m.host + ", Port:" + p + ", LogFile:" + m.logFile, " LogPos:", f);
  }

  lemma LabelAfterComma(s: string, tag: string, v: string)
    ensures s + "," + (tag + v) == s + ("," + tag) + v
  {
  }

  lemma JoinFour(a: string, b: string, c: string, d: string, sep: string)
    ensures Join([a, b, c, d], sep) == a + sep + b + sep + c + sep + d
  {
    var items := [a, b, c, d];
    assert Join(items[3..], sep) == d;
    assert Join(items[2..], sep) == c + sep + d by {
      assert items[2..][1..] == items[3..];
    }
    assert Join(items[1..], sep) == b + sep + c + sep + d by {
      assert items[1..][1..] == items[2..];
    }
  }

  lemma NoCommaInNumber(n: int)
    ensures ',' !in FormatInt(n)
  {
    var s := FormatInt(n);
    if n < 0 {
      assert s[1..] == NatToDecimal(-n);
      assert forall j :: 1 <= j < |s| ==> IsDigit(s[j]) by {
        forall j | 1 <= j < |s| ensures IsDigit(s[j]) {
          assert s[j] == s[1..][j - 1];
        }
      }
    }
  }

  lemma NoCommaIn(i: int, items: seq<string>, m: MasterInfo)
    requires 0 <= i < 4
    requires ',' !in m.host && ',' !in m.logFile
    requires ',' !in FormatInt(m.port) && ',' !in FormatInt(m.logPos)
    requires items == ["Host:" + m.host, " Port:" + FormatInt(m.port),
                       " LogFile:" + m.logFile, " LogPos:" + FormatInt(m.logPos)]
    ensures ',' !in items[i]
  {
    var heads := ["Host:", " Port:", " LogFile:", " LogPos:"];
    var tails := [m.host, FormatInt(m.port), m.logFile, FormatInt(m.logPos)];
    assert items[i] == heads[i] + tails[i];
  }

  /** What `show master status` reports, with the service endpoint and the
      time it was read. */
  datatype MasterStatus = MasterStatus(
    enable: bool, host: string, port: int32, logFile: string, logPos: int64, timeStamp: int64)
  {
    /** `MasterStatus.IsOK`: the status names a binlog position. */
    predicate IsOK() {
      logFile != "" && logPos > 0
    }
  }

  /** What `show slave status` reports. */
  datatype SlaveStatus = SlaveStatus(
    enable: bool, masterHost: string, masterPort: int32, runningOK: bool,
    behindSecond: int64, timeStamp: int64)
  {
    /** `SlaveStatus.IsOK` as the source writes it: a running slave counts as
        healthy only while it is behind its master. */
    predicate IsOK() {
      !enable || (runningOK && behindSecond > 0)
    }

    /** The health test the rest of the agent applies: a slave is healthy when
        it is disabled, or running and not behind its master. */
    predicate IsHealthy() {
      !enable || (runningOK && !(behindSecond > 0))
    }
  }

  /** `MasterStatus.IsOK` holds exactly for a non-empty log file and a positive
      position. */
  lemma MasterIsOKIff(m: MasterStatus)
    ensures m.IsOK() <==> m.logFile != "" && m.logPos > 0
  {
  }

  /** Both slave predicates hold whenever the slave is disabled; they differ
      only on running, enabled slaves. */
  lemma SlaveIsOKDisabled(s: SlaveStatus)
    requires !s.enable
    ensures s.IsOK() && s.IsHealthy()
  {
  }

  /** The written `IsOK` rejects a running slave that has caught up with its
      master and accepts one that lags: the opposite of the lag rule the
      readiness probe and the promotion step apply. */
  lemma SlaveIsOKAsWritten()
    ensures !SlaveStatus(true, "host", 3306, true, 0, 0).IsOK()
    ensures SlaveStatus(true, "host", 3306, true, 5, 0).IsOK()
  {
  }

  /** For every enabled, running slave the written `IsOK` is the negation
      of the corrected test: it holds exactly when the slave lags. */
  lemma SlaveIsOKInverted(s: SlaveStatus)
    requires s.enable && s.runningOK
    ensures s.IsOK() <==> s.behindSecond > 0
    ensures s.IsOK() <==> !s.IsHealthy()
  {
  }
}
