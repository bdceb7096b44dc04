/** The cluster designation: which node is the MariaDB master and which the
    slave, with the addresses, secret and paths of this node.  The record is
    read from a file on the shared volume; `Store` is the package-wide current
    copy that `init` and `ReloadConfig` overwrite. */
module Config {
  import opened Wrappers
  import opened Text

  /** The designation file on the shared volume. */
  const CfgFile := "/var/local/share/cluster/cluster-info.json"

  const Workspace := "workspace"
  const ConfigDir := "config"
  const DataDir := "data"
  const BackupDir := "backup"

  datatype DataPath = DataPath(data: string)

  /** Who is master and who is slave, and when that was decided. */
  datatype Status = Status(master: string, slave: string, updateTime: string)
  {
    /** `Status.IsSame`: the same two roles, whatever the time stamps. */
    predicate IsSame(other: Status) {
      master == other.master && slave == other.slave
    }
  }

  datatype CfgItem = CfgItem(
    localHost: string,
    remoteHost: string,
    syncSecret: string,
    dataPath: Option<DataPath>,
    tmpPath: string,
    status: Option<Status>)

  /** The built-in designation used when the file cannot be read at start-up. */
  const DefaultConfig := CfgItem(
    "192.168.18.204",
    "192.168.18.205",
    "PgDt4pxv6Uy9MMraAPjePSdZXnveYKtV",
    Some(DataPath("/root/workspace/data")),
    "/root/workspace/data/backup",
    Some(Status("192.168.18.204", "192.168.18.205", "2023-11-15 18:20:00")))

  /** The roles a designation assigns, or none: the part of the record that
      decides a role switch. */
  function Roles(c: CfgItem): Option<(string, string)> {
    match c.status
    case None => None
    case Some(s) => Some((s.master, s.slave))
  }

  /** `two statuses are the same` means `their roles are equal`. */
  lemma IsSameIffRolesEqual(a: Status, b: Status, ta: string, tb: string)
    ensures a.IsSame(b) <==> Status(a.master, a.slave, ta).IsSame(Status(b.master, b.slave, tb))
    ensures a.IsSame(b) <==> (a.master, a.slave) == (b.master, b.slave)
  {
  }

  /** `CfgItem.StatusChange`.  Go dereferences nil when neither side has a
      status, so that case is excluded. */
  function StatusChange(cur: CfgItem, next: CfgItem): bool
    requires cur.status.Some? || next.status.Some?
  {
    if cur.status.None? && next.status.Some? then true
    else if cur.status.Some? && next.status.None? then true
    else !cur.status.value.IsSame(next.status.value)
  }

  /** A designation changes exactly when the assigned roles differ; time
      stamps and every other field are ignored, and the test is symmetric. */
  lemma StatusChangeIffRolesDiffer(cur: CfgItem, next: CfgItem)
    requires cur.status.Some? || next.status.Some?
    ensures StatusChange(cur, next) <==> Roles(cur) != Roles(next)
    ensures StatusChange(cur, next) == StatusChange(next, cur)
  {
  }

  /** Re-stamping a designation with a new time never counts as a change. */
  lemma RestampIsNoChange(cur: CfgItem, next: CfgItem)
    requires cur.status.Some? && next.status.Some?
    requires next.status.value.master == cur.status.value.master
    requires next.status.value.slave == cur.status.value.slave
    ensures !StatusChange(cur, next)
  {
  }

  /** `CfgItem.Dump`: a deep copy, field by field, with fresh `DataPath` and
      `Status` records when present. */
  function Dump(c: CfgItem): (r: CfgItem)
    ensures r == c
  {
    CfgItem(
      c.localHost, c.remoteHost, c.syncSecret,
      match c.dataPath case None => None case Some(d) => Some(DataPath(d.data)),
      c.tmpPath,
      match c.status case None => None case Some(s) => Some(Status(s.master, s.slave, s.updateTime)))
  }

  /** `GetTmpPath`: the temporary path without its trailing '/'s. */
  function TmpPathOf(c: CfgItem): (r: string)
    ensures |r| <= |c.tmpPath| && r == c.tmpPath[..|r|]
    ensures |r| == 0 || r[|r| - 1] != '/'
    ensures forall k :: |r| <= k < |c.tmpPath| ==> c.tmpPath[k] == '/'
  {
    TrimRight(c.tmpPath, '/')
  }

  /** Trimming the trimmed path again changes nothing. */
  lemma TmpPathIdempotent(c: CfgItem)
    ensures TmpPathOf(c.(tmpPath := TmpPathOf(c))) == TmpPathOf(c)
  {
  }

  /** `GetNodePort`: `NODEPORT` from the environment when it is set, the port
      the agent listens on otherwise. */
  function NodePort(environ: map<string, string>, listenPort: string): (r: string)
    ensures "NODEPORT" in environ ==> r == environ["NODEPORT"]
    ensures "NODEPORT" !in environ ==> r == listenPort
  {
    if "NODEPORT" in environ then environ["NODEPORT"] else listenPort
  }

  /** `path.Join` of a directory and a relative name.  Cleaning of "." and
      ".." and of doubled '/' is not modelled. */
  function PathJoin(dir: string, name: string): string {
    if dir == "" then name else if name == "" then dir else dir + "/" + name
  }

  /** A join of two non-empty sides is the directory, one '/', then the
      name; an empty side leaves the other unchanged. */
  lemma PathJoinSplits(dir: string, name: string)
    ensures dir == "" ==> PathJoin(dir, name) == name
    ensures dir != "" && name == "" ==> PathJoin(dir, name) == dir
    ensures dir != "" && name != "" ==>
              var p := PathJoin(dir, name);
              |p| == |dir| + 1 + |name| && p[..|dir|] == dir && p[|dir|] == '/' && p[|dir| + 1..] == name
  {
    if dir != "" && name != "" {
      var p := PathJoin(dir, name);
      assert p[..|dir|] == dir && p[|dir| + 1..] == name;
    }
  }

  /** The package-wide state: the current designation, the listen port and
      the working directory captured at start-up. */
  class Store {
    var configItem: CfgItem
    var listenPort: string
    const workPath: string

    /** `init`: the designation file when it loads, the built-in default
        otherwise. */
    constructor Init(loaded: Option<CfgItem>, cwd: string)
      ensures loaded.Some? ==> configItem == loaded.value
      ensures loaded.None? ==> configItem == DefaultConfig
      ensures workPath == cwd && listenPort == ""
    {
      configItem := if loaded.Some? then loaded.value else DefaultConfig;
      workPath := cwd;
      listenPort := "";
    }

    method SetListenPort(port: string)
      modifies this
      ensures listenPort == port && configItem == old(configItem)
    {
      listenPort := port;
    }

    /** `ReloadConfig`, given what loading the designation file produced: on
        failure nothing changes and there is no result; on success the new
        record is installed and returned. */
    method Reload(loaded: Option<CfgItem>) returns (r: Option<CfgItem>)
      modifies this
      ensures r == loaded
      ensures loaded.None? ==> configItem == old(configItem)
      ensures loaded.Some? ==> configItem == loaded.value
      ensures listenPort == old(listenPort)
    {
      if loaded.None? {
        return None;
      }
      configItem := loaded.value;
      r := Some(configItem);
    }

    function GetWorkspace(): string
      reads this
    {
      PathJoin(workPath, Workspace)
    }

    function GetConfigPath(): string
      reads this
    {
      PathJoin(PathJoin(workPath, Workspace), ConfigDir)
    }

    function GetDataPath(): string
      reads this
    {
      PathJoin(PathJoin(workPath, Workspace), DataDir)
    }

    function GetBackPath(): string
      reads this
    {
      PathJoin(PathJoin(PathJoin(workPath, Workspace), DataDir), BackupDir)
    }
  }
}
