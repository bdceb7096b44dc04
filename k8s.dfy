/** The Kubernetes driver: the cache of the services it learns about by
    watching deployments, the service listing grouped by catalog, the lookup
    the other modules query, the credentials it reads from a deployment and
    the way it runs a command inside a service's pod.  The Kubernetes API
    itself is a collaborator reached through the hub. */
module K8sDriver {
  import opened Wrappers
  import opened Text
  import opened Common
  import opened Effects

  // ---------------------------------------------------------------------------
  // Deployments: the parts the driver reads

  datatype EnvVar = EnvVar(name: string, value: string)
  datatype Container = Container(name: string, env: seq<EnvVar>)
  datatype Deployment = Deployment(name: string, containers: seq<Container>)

  /** The environment variable a MariaDB container takes its root password
      from. */
  const PasswordVariable := "MYSQL_ROOT_PASSWORD"

  /** `getServiceName`: a deployment whose name contains the MariaDB catalog
      is that MariaDB service; any other deployment is no service, ("", ""). */
  function ServiceName(d: Deployment): (r: (string, string))
    ensures r.1 != "" <==> Contains(d.name, Mariadb)
    ensures r.1 != "" ==> r == (d.name, Mariadb)
    ensures r.1 == "" ==> r == ("", "")
  {
    if Contains(d.name, Mariadb) then (d.name, Mariadb) else ("", "")
  }

  // ---------------------------------------------------------------------------
  // getEnv

  /** The value of the last variable of `envs` called `key`, if any. */
  function LastValue(envs: seq<EnvVar>, key: string): Option<string> {
    if |envs| == 0 then None
    else if envs[|envs| - 1].name == key then Some(envs[|envs| - 1].value)
    else LastValue(envs[..|envs| - 1], key)
  }

  /** `LastValue` finds nothing exactly when no entry has the key. */
  lemma {:induction false} LastValueAbsent(envs: seq<EnvVar>, key: string)
    ensures LastValue(envs, key).None? <==> forall i :: 0 <= i < |envs| ==> envs[i].name != key
  {
    if |envs| > 0 && envs[|envs| - 1].name != key {
      var init := envs[..|envs| - 1];
      LastValueAbsent(init, key);
      assert forall i :: 0 <= i < |init| ==> init[i] == envs[i];
    }
  }

  /** What `LastValue` finds is the last entry with the key. */
  lemma {:induction false} LastValueIsLast(envs: seq<EnvVar>, key: string)
    ensures LastValue(envs, key).Some? ==>
      exists i :: 0 <= i < |envs| && envs[i] == EnvVar(key, LastValue(envs, key).value) &&
        forall j :: i < j < |envs| ==> envs[j].name != key
  {
    if |envs| > 0 && envs[|envs| - 1].name != key {
      var init := envs[..|envs| - 1];
      LastValueIsLast(init, key);
      if LastValue(init, key).Some? {
        var i :| 0 <= i < |init| && init[i] == EnvVar(key, LastValue(init, key).value) &&
          forall j :: i < j < |init| ==> init[j].name != key;
        assert envs[i] == init[i];
        assert forall j :: i < j < |envs| ==> envs[j].name != key by {
          forall j | i < j < |envs| ensures envs[j].name != key {
            if j < |init| { assert envs[j] == init[j]; }
          }
        }
      }
    } else if |envs| > 0 {
      assert envs[|envs| - 1] == EnvVar(key, LastValue(envs, key).value);
    }
  }

  /** The root password a deployment declares: the last `MYSQL_ROOT_PASSWORD`
      of its first container, empty when there is none. */
  function DeclaredPassword(d: Deployment): string {
    if |d.containers| == 0 then ""
    else match LastValue(d.containers[0].env, PasswordVariable)
      case Some(v) => v
      case None => ""
  }

  /** `getEnv`: the default root account with the declared password. */
  method GetEnv(d: Deployment, defaultRoot: string) returns (env: Env)
    ensures env.root == defaultRoot
    ensures env.password == DeclaredPassword(d)
  {
    env := Env(defaultRoot, "");
    if |d.containers| == 0 {
      return;
    }
    var envs := d.containers[0].env;
    for i := 0 to |envs|
      invariant env.root == defaultRoot
      invariant env.password == match LastValue(envs[..i], PasswordVariable) case Some(v) => v case None => ""
    {
      assert envs[..i + 1][..i] == envs[..i];
      if envs[i].name == PasswordVariable {
        env := env.(password := envs[i].value);
      }
    }
    assert envs[..|envs|] == envs;
  }

  // ---------------------------------------------------------------------------
  // enumService: services grouped by catalog

  /** The names of the services of catalog `c`, in the order given. */
  function NamesOf(services: seq<ServiceInfo>, c: string): seq<string> {
    if |services| == 0 then []
    else
      var last := services[|services| - 1];
      NamesOf(services[..|services| - 1], c) + if last.catalog == c then [last.name] else []
  }

  /** The listing the driver reports: one list per known catalog that has a
      service, holding the names of its services. */
  function Grouped(services: seq<ServiceInfo>): (r: Catalog2ServiceList)
    ensures forall c :: c in r ==> c in KnownCatalogs && |r[c]| > 0
  {
    map c | c in KnownCatalogs && |NamesOf(services, c)| > 0 :: NamesOf(services, c)
  }

  /** The services of the cache, in the order `order` visits their names. */
  function InOrder(cache: map<string, ServiceInfo>, order: seq<string>): (s: seq<ServiceInfo>)
    requires forall i :: 0 <= i < |order| ==> order[i] in cache
    ensures |s| == |order|
    ensures forall i :: 0 <= i < |order| ==> s[i] == cache[order[i]]
  {
    seq(|order|, i requires 0 <= i < |order| => cache[order[i]])
  }

  predicate DistinctNames(services: seq<ServiceInfo>) {
    forall i, j :: 0 <= i < j < |services| ==> services[i].name != services[j].name
  }

  /** Grouping keeps the order: the list of a catalog for `a + b` is the list
      for `a` followed by the list for `b`. */
  lemma {:induction false} NamesOfAppend(a: seq<ServiceInfo>, b: seq<ServiceInfo>, c: string)
    ensures NamesOf(a + b, c) == NamesOf(a, c) + NamesOf(b, c)
    decreases |b|
  {
    if |b| > 0 {
      var b' := b[..|b| - 1];
      assert (a + b)[..|a + b| - 1] == a + b';
      NamesOfAppend(a, b', c);
    } else {
      assert a + b == a;
    }
  }

  /** A name is in the list of catalog `c` exactly when some service of that
      catalog carries it. */
  lemma {:induction false} NamesOfMembers(services: seq<ServiceInfo>, c: string, x: string)
    ensures x in NamesOf(services, c) <==>
      exists j :: 0 <= j < |services| && services[j].catalog == c && services[j].name == x
    decreases |services|
  {
    if |services| > 0 {
      var init := services[..|services| - 1];
      NamesOfMembers(init, c, x);
      assert forall j :: 0 <= j < |init| ==> init[j] == services[j];
      var last := services[|services| - 1];
      if x in NamesOf(services, c) && x !in NamesOf(init, c) {
        assert last.catalog == c && last.name == x;
      }
    }
  }

  /** `m` with the list `names` under `c`, when that list is not empty. */
  function AddIfAny(m: Catalog2ServiceList, c: string, names: seq<string>): Catalog2ServiceList {
    if |names| > 0 then m[c := names] else m
  }

  /** The six lists of `enumService`, added under their catalogs when not
      empty, are the grouping. */
  lemma ListingIsGrouped(services: seq<ServiceInfo>, r: Catalog2ServiceList)
    requires r == AddIfAny(AddIfAny(AddIfAny(AddIfAny(AddIfAny(AddIfAny(map[],
      Mariadb, NamesOf(services, Mariadb)), TsDB, NamesOf(services, TsDB)),
      MongoDB, NamesOf(services, MongoDB)), PostgreSQL, NamesOf(services, PostgreSQL)),
      FileService, NamesOf(services, FileService)), VxBase, NamesOf(services, VxBase))
    ensures r == Grouped(services)
  {
    var names := c => NamesOf(services, c);
    ListingOfLists(names, r);
    assert Grouped(services) == map c | c in KnownCatalogs && |names(c)| > 0 :: names(c);
  }

  lemma ListingOfLists(names: string -> seq<string>, r: Catalog2ServiceList)
    requires r == AddIfAny(AddIfAny(AddIfAny(AddIfAny(AddIfAny(AddIfAny(map[],
      Mariadb, names(Mariadb)), TsDB, names(TsDB)), MongoDB, names(MongoDB)),
      PostgreSQL, names(PostgreSQL)), FileService, names(FileService)), VxBase, names(VxBase))
    ensures r == map c | c in KnownCatalogs && |names(c)| > 0 :: names(c)
  {
    var g := map c | c in KnownCatalogs && |names(c)| > 0 :: names(c);
    forall c ensures c in r <==> c in g {
      ListingAt(names, r, c);
    }
    forall c | c in r ensures r[c] == g[c] {
      ListingAt(names, r, c);
    }
  }

  lemma ListingAt(names: string -> seq<string>, r: Catalog2ServiceList, c: string)
    requires r == AddIfAny(AddIfAny(AddIfAny(AddIfAny(AddIfAny(AddIfAny(map[],
      Mariadb, names(Mariadb)), TsDB, names(TsDB)), MongoDB, names(MongoDB)),
      PostgreSQL, names(PostgreSQL)), FileService, names(FileService)), VxBase, names(VxBase))
    ensures c in r <==> c in KnownCatalogs && |names(c)| > 0
    ensures c in r ==> r[c] == names(c)
  {
  }

  /** One more service extends the list of its own catalog by its name. */
  lemma NamesOfSnoc(services: seq<ServiceInfo>, i: nat, c: string)
    requires i < |services|
    ensures NamesOf(services[..i + 1], c) ==
      NamesOf(services[..i], c) + if services[i].catalog == c then [services[i].name] else []
  {
    assert services[..i + 1][..i] == services[..i];
  }

  /** Distinct services give lists without repeated names. */
  lemma {:induction false} NamesOfDistinct(services: seq<ServiceInfo>, c: string)
    requires DistinctNames(services)
    ensures forall i, j :: 0 <= i < j < |NamesOf(services, c)| ==> NamesOf(services, c)[i] != NamesOf(services, c)[j]
    decreases |services|
  {
    if |services| > 0 {
      var init := services[..|services| - 1];
      var last := services[|services| - 1];
      assert DistinctNames(init);
      NamesOfDistinct(init, c);
      if last.catalog == c {
        NamesOfMembers(init, c, last.name);
        forall j | 0 <= j < |init| ensures init[j].name != last.name {
          assert init[j] == services[j];
        }
      }
    }
  }

  /** Where each service of a listing ends up: a service of a known catalog
      is in the list of its catalog, and every listed name belongs to a
      service of that catalog. */
  lemma GroupedPlacement(services: seq<ServiceInfo>, j: nat)
    requires j < |services|
    ensures services[j].catalog in KnownCatalogs ==>
      services[j].catalog in Grouped(services) && services[j].name in Grouped(services)[services[j].catalog]
    ensures forall c :: c in Grouped(services) && services[j].name in Grouped(services)[c] ==>
      exists i :: 0 <= i < |services| && services[i].catalog == c && services[i].name == services[j].name
  {
    var s := services[j];
    NamesOfMembers(services, s.catalog, s.name);
    forall c | c in Grouped(services) && s.name in Grouped(services)[c]
      ensures exists i :: 0 <= i < |services| && services[i].catalog == c && services[i].name == s.name
    {
      NamesOfMembers(services, c, s.name);
    }
  }

  /** With distinct names (as in the cache), each service of a known catalog
      is listed exactly once, under its own catalog only, and a service of
      any other catalog is listed nowhere. */
  lemma GroupedExactlyOnce(services: seq<ServiceInfo>, j: nat)
    requires DistinctNames(services)
    requires j < |services|
    ensures forall c :: c in Grouped(services) ==>
      (services[j].name in Grouped(services)[c] <==> c == services[j].catalog)
    ensures services[j].catalog in KnownCatalogs ==>
      services[j].catalog in Grouped(services) &&
      multiset(Grouped(services)[services[j].catalog])[services[j].name] == 1
  {
    var s := services[j];
    GroupedPlacement(services, j);
    forall c | c in Grouped(services) && s.name in Grouped(services)[c]
      ensures c == s.catalog
    {
      var i :| 0 <= i < |services| && services[i].catalog == c && services[i].name == s.name;
      assert i == j;
    }
    if s.catalog in KnownCatalogs {
      var names := NamesOf(services, s.catalog);
      NamesOfDistinct(services, s.catalog);
      OnceInDistinct(names, s.name);
    }
  }

  lemma {:induction false} OnceInDistinct(names: seq<string>, x: string)
    requires x in names
    requires forall i, j :: 0 <= i < j < |names| ==> names[i] != names[j]
    ensures multiset(names)[x] == 1
    decreases |names|
  {
    var init := names[..|names| - 1];
    assert names == init + [names[|names| - 1]];
    assert forall i, j :: 0 <= i < j < |init| ==> init[i] != init[j] by {
      forall i, j | 0 <= i < j < |init| ensures init[i] != init[j] {
        assert init[i] == names[i] && init[j] == names[j];
      }
    }
    if x == names[|names| - 1] {
      forall i | 0 <= i < |init| ensures init[i] != x {
        assert init[i] == names[i];
      }
      assert multiset(init)[x] == 0;
    } else {
      OnceInDistinct(init, x);
    }
  }

  /** The cache keys every service under its own name, so the services of
      any visit of its keys have distinct names. */
  lemma CacheNamesDistinct(cache: map<string, ServiceInfo>, order: seq<string>)
    requires forall k :: k in cache ==> cache[k].name == k
    requires IsIterationOrder(order, cache.Keys)
    ensures DistinctNames(InOrder(cache, order))
  {
  }

  // ---------------------------------------------------------------------------
  // Query

  /** `Query`: the cached service of that name, provided it has the catalog
      asked for. */
  function Lookup(cache: map<string, ServiceInfo>, name: string, catalog: string): (r: Result<ServiceInfo>)
    ensures name !in cache ==> r == Failure(NotExist(name))
    ensures name in cache && cache[name].catalog != catalog ==> r == Failure(CatalogMismatch(name))
    ensures r.Success? <==> name in cache && cache[name].catalog == catalog
    ensures r.Success? ==> r.value == cache[name]
  {
    if name !in cache then Failure(NotExist(name))
    else if cache[name].catalog != catalog then Failure(CatalogMismatch(name))
    else Success(cache[name])
  }

  /** After a service is put in the cache, it is what a query for its name
      and catalog finds; queries for other names are unaffected. */
  lemma LookupAfterPut(cache: map<string, ServiceInfo>, info: ServiceInfo, name: string, catalog: string)
    ensures Lookup(cache[info.name := info], info.name, info.catalog) == Success(info)
    ensures name != info.name ==> Lookup(cache[info.name := info], name, catalog) == Lookup(cache, name, catalog)
  {
  }

  /** After a name is removed, queries for it fail with "not exist"; queries
      for other names are unaffected. */
  lemma LookupAfterRemove(cache: map<string, ServiceInfo>, removed: string, name: string, catalog: string)
    ensures Lookup(cache - {removed}, removed, catalog) == Failure(NotExist(removed))
    ensures name != removed ==> Lookup(cache - {removed}, name, catalog) == Lookup(cache, name, catalog)
  {
  }

  // ---------------------------------------------------------------------------
  // ExecuteCommand

  /** The pods are listed first (an error, or no pod, ends the command); the
      command line, argv joined by single spaces, then runs in the first
      container of the first pod. */
  function ExecRun(o: Oracle, n: nat, service: string, info: ServiceInfo, command: seq<string>): Run<Result<string>>
    requires Typed(o)
  {
    var list := ListPods(service);
    var pods := o(n, list);
    if pods.Failed? then Run([list], Failure(pods.error))
    else if |pods.pods| == 0 then Run([list], Failure(NoPods(info.name)))
    else
      var exec := ExecInPod(pods.pods[0].name, pods.pods[0].containers[0], Join(command, " "));
      Run([list, exec], TextOf(o(n + 1, exec)))
  }

  /** The two ways `ExecuteCommand` ends: without a pod there is no command
      and the error names the service; otherwise exactly one command runs,
      in the first container of the first pod, and its output is the
      result. */
  lemma ExecTargetsFirstPod(o: Oracle, n: nat, service: string, info: ServiceInfo, command: seq<string>)
    requires Typed(o)
    ensures var r := o(n, ListPods(service));
      var run := ExecRun(o, n, service, info, command);
      (r.Failed? || r.pods == [] <==> run.calls == [ListPods(service)]) &&
      (r.Pods? && r.pods == [] ==> run.value == Failure(NoPods(info.name))) &&
      (r.Pods? && r.pods != [] ==>
        |run.calls| == 2 && run.calls[1] == ExecInPod(r.pods[0].name, r.pods[0].containers[0], Join(command, " ")) &&
        run.value == TextOf(o(n + 1, run.calls[1])))
  {
  }

  /** The command line the pod receives splits back into the argv, provided
      no argument holds a space. */
  lemma CommandLineSplits(command: seq<string>)
    requires |command| >= 1
    requires forall k :: 0 <= k < |command| ==> ' ' !in command[k]
    ensures Split(Join(command, " "), ' ') == command
  {
    SplitJoin(command, ' ');
  }

  // ---------------------------------------------------------------------------
  // The driver object

  /** The service operations the driver performs on a cached service. */
  datatype Lifecycle = StartOp | StopOp | DestroyOp

  function LifecycleCall(op: Lifecycle, info: ServiceInfo): Call {
    match op
    case StartOp => StartDeployment(info)
    case StopOp => StopDeployment(info)
    case DestroyOp => DestroyDeployment(info)
  }

  class Driver {
    const hub: Hub
    /** The service cache, keyed by service name. */
    var cache: map<string, ServiceInfo>

    ghost predicate Valid()
      reads this
    {
      forall k :: k in cache ==> cache[k].name == k
    }

    constructor (hub: Hub)
      ensures this.hub == hub && cache == map[] && Valid()
    {
      this.hub := hub;
      cache := map[];
    }

    /** `addService` (`action` Add) and `modService` (`action` Mod), given
        what reading the deployment gave: an error, no managed service, or
        the service.  Only a service is announced, then cached under its
        name. */
    method PutService(action: Action, described: Result<Option<ServiceInfo>>)
      requires action == Add || action == Mod
      requires Valid()
      modifies this, hub
      ensures Valid()
      ensures described.Success? && described.value.Some? ==>
        hub.trace == old(hub.trace) + [NotifyService(action, described.value.value)] &&
        cache == old(cache)[described.value.value.name := described.value.value]
      ensures !(described.Success? && described.value.Some?) ==>
        hub.trace == old(hub.trace) && cache == old(cache)
    {
      if described.Failure? || described.value.None? {
        return;
      }
      var info := described.value.value;
      var _ := hub.Send(NotifyService(action, info));
      cache := cache[info.name := info];
    }

    /** `delService`: a deployment that is no MariaDB service changes
        nothing; otherwise its cached record is announced as deleted, its
        HA service port is removed and it leaves the cache.  The source
        casts the cached value without a check, so the service must be in
        the cache. */
    method DelService(d: Deployment)
      requires Valid()
      requires Contains(d.name, Mariadb) ==> d.name in cache
      modifies this, hub
      ensures Valid()
      ensures !Contains(d.name, Mariadb) ==> hub.trace == old(hub.trace) && cache == old(cache)
      ensures Contains(d.name, Mariadb) ==>
        hub.trace == old(hub.trace) + [NotifyService(Del, old(cache)[d.name]), CleanHAServicePort(d.name)] &&
        cache == old(cache) - {d.name}
    {
      var (name, catalog) := ServiceName(d);
      if catalog == "" {
        return;
      }
      var _ := hub.Send(NotifyService(Del, cache[name]));
      var _ := hub.Send(CleanHAServicePort(name));
      cache := cache - {name};
    }

    /** `enumService`: the cache visited in some order of its keys, and
        grouped by catalog. */
    method EnumService() returns (r: Catalog2ServiceList, ghost order: seq<string>)
      ensures IsIterationOrder(order, cache.Keys)
      ensures r == Grouped(InOrder(cache, order))
    {
      var keys := IterationOrder(cache.Keys);
      order := keys;
      var services := InOrder(cache, keys);
      var mariadbList, tsDBList, mongoList, postgreList, fileList, vxBaseList := [], [], [], [], [], [];
      for i := 0 to |services|
        invariant mariadbList == NamesOf(services[..i], Mariadb)
        invariant tsDBList == NamesOf(services[..i], TsDB)
        invariant mongoList == NamesOf(services[..i], MongoDB)
        invariant postgreList == NamesOf(services[..i], PostgreSQL)
        invariant fileList == NamesOf(services[..i], FileService)
        invariant vxBaseList == NamesOf(services[..i], VxBase)
      {
        NamesOfSnoc(services, i, Mariadb);
        NamesOfSnoc(services, i, TsDB);
        NamesOfSnoc(services, i, MongoDB);
        NamesOfSnoc(services, i, PostgreSQL);
        NamesOfSnoc(services, i, FileService);
        NamesOfSnoc(services, i, VxBase);
        var s := services[i];
        if s.catalog == Mariadb {
          mariadbList := mariadbList + [s.name];
        } else if s.catalog == TsDB {
          tsDBList := tsDBList + [s.name];
        } else if s.catalog == MongoDB {
          mongoList := mongoList + [s.name];
        } else if s.catalog == PostgreSQL {
          postgreList := postgreList + [s.name];
        } else if s.catalog == FileService {
          fileList := fileList + [s.name];
        } else if s.catalog == VxBase {
          vxBaseList := vxBaseList + [s.name];
        }
      }
      assert services[..|services|] == services;
      r := AddIfAny(map[], Mariadb, mariadbList);
      r := AddIfAny(r, TsDB, tsDBList);
      r := AddIfAny(r, MongoDB, mongoList);
      r := AddIfAny(r, PostgreSQL, postgreList);
      r := AddIfAny(r, FileService, fileList);
      r := AddIfAny(r, VxBase, vxBaseList);
      ListingIsGrouped(services, r);
    }

    /** `ListService`: every catalog, whatever catalog was asked for. */
    method ListService(catalog: string) returns (r: Catalog2ServiceList, ghost order: seq<string>)
      ensures IsIterationOrder(order, cache.Keys)
      ensures r == Grouped(InOrder(cache, order))
    {
      r, order := EnumService();
    }

    /** `ExecuteCommand`. */
    method ExecuteCommand(service: string, info: ServiceInfo, command: seq<string>) returns (r: Result<string>)
      requires Typed(hub.reply)
      modifies hub
      ensures var run := ExecRun(hub.reply, |old(hub.trace)|, service, info, command);
        hub.trace == old(hub.trace) + run.calls && r == run.value
    {
      var pods := hub.Send(ListPods(service));
      if pods.Failed? {
        return Failure(pods.error);
      }
      if |pods.pods| == 0 {
        return Failure(NoPods(info.name));
      }
      var out := hub.Send(ExecInPod(pods.pods[0].name, pods.pods[0].containers[0], Join(command, " ")));
      r := TextOf(out);
    }

    /** `Start`, `Stop` and `Destroy`: the service is looked up first, and a
        failed lookup is the result, with nothing done. A found service of a
        catalog other than Mariadb is acted on by no call and gives no error,
        since only the Mariadb catalog has lifecycle operations. */
    method Control(op: Lifecycle, name: string, catalog: string) returns (err: Outcome)
      modifies hub
      ensures var q := Lookup(cache, name, catalog);
        (q.Failure? ==> err == Some(q.error) && hub.trace == old(hub.trace)) &&
        (q.Success? && q.value.catalog != Mariadb ==>
          err == None && hub.trace == old(hub.trace)) &&
        (q.Success? && q.value.catalog == Mariadb ==>
          hub.trace == old(hub.trace) + [LifecycleCall(op, q.value)] &&
          err == ErrorOf(hub.reply(|old(hub.trace)|, LifecycleCall(op, q.value))))
    {
      var q := Lookup(cache, name, catalog);
      if q.Failure? {
        return Some(q.error);
      }
      if q.value.catalog != Mariadb {
        return None;
      }
      var reply := hub.Send(LifecycleCall(op, q.value));
      err := ErrorOf(reply);
    }
  }
}
