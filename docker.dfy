/** The docker-compose driver: the default description of a new MariaDB
    service, the compose file a command runs from (written once from a
    template, then reused), the `docker-compose` command lines, and the
    parser that reads service descriptions back from the labels of a compose
    file.  Template rendering, file access and processes are collaborators
    reached through the hub; YAML decoding is an input. */
module DockerDriver {
  import opened Wrappers
  import opened Text
  import opened Common
  import opened Effects
  import Config

  /** The built-in values of a new service (`common.DefaultMariadbImage`,
      `DefaultLabels`, `DefaultMariadbRoot`, `DefaultMariadbPassword`,
      `DefaultMariadbPort`), whose values live outside this model. */
  datatype Defaults = Defaults(image: string, labels: Labels, root: string, password: string, port: int32)

  /** `common.CmdInfo`: a command for one service. */
  datatype CmdInfo = CmdInfo(service: string, info: ServiceInfo, command: seq<string>)

  // ---------------------------------------------------------------------------
  // getDefaultServiceInfo

  /** `getDefaultServiceInfo`: a MariaDB service named `serviceName`, its
      configuration inside the container, its data and back-up directories
      under the host's data and back-up roots, one replica. */
  function DefaultServiceInfo(store: Config.Store, defaults: Defaults, serviceName: string, catalog: string): ServiceInfo
    reads store
  {
    ServiceInfo(
      serviceName, "", Mariadb, defaults.image,
      defaults.labels["app" := serviceName]["catalog" := catalog],
      None,
      Some(Volumes(
        Some(Path("config", Config.PathJoin(store.GetConfigPath(), "conf.d"), InnerPath)),
        Some(Path("dataPath", Config.PathJoin(store.GetDataPath(), serviceName), HostPath)),
        Some(Path("backPath", Config.PathJoin(store.GetBackPath(), serviceName), HostPath)))),
      Some(Env(defaults.root, defaults.password)),
      Some(Svc(store.configItem.localHost, defaults.port)),
      1,
      None)
  }

  /** The catalog argument only reaches the `catalog` label: the service is
      a MariaDB one whatever it says, labelled with the service's name. */
  lemma DefaultIgnoresCatalog(store: Config.Store, defaults: Defaults, serviceName: string, c1: string, c2: string)
    ensures var a := DefaultServiceInfo(store, defaults, serviceName, c1);
      var b := DefaultServiceInfo(store, defaults, serviceName, c2);
      a.catalog == Mariadb && a.replicas == 1 &&
      a.labels["app"] == serviceName && a.labels["catalog"] == c1 &&
      (forall k :: k in defaults.labels && k != "app" && k != "catalog" ==> a.labels[k] == defaults.labels[k]) &&
      a.(labels := map[]) == b.(labels := map[])
  {
  }

  /** Below one directory, different names are different paths. */
  lemma PathJoinApart(dir: string, a: string, b: string)
    requires dir != "" && a != "" && b != "" && a != b
    ensures Config.PathJoin(dir, a) != Config.PathJoin(dir, b)
  {
    assert Config.PathJoin(dir, a)[|dir| + 1..] == a;
    assert Config.PathJoin(dir, b)[|dir| + 1..] == b;
  }

  /** Two services of different (non-empty) names never share a data or a
      back-up directory. */
  lemma DefaultPathsApart(store: Config.Store, defaults: Defaults, n1: string, n2: string, c: string)
    requires n1 != "" && n2 != "" && n1 != n2
    ensures var a := DefaultServiceInfo(store, defaults, n1, c).volumes.value;
      var b := DefaultServiceInfo(store, defaults, n2, c).volumes.value;
      a.dataPath.value.value != b.dataPath.value.value && a.backPath.value.value != b.backPath.value.value
  {
    assert store.GetDataPath() != "" && store.GetBackPath() != "";
    PathJoinApart(store.GetDataPath(), n1, n2);
    PathJoinApart(store.GetBackPath(), n1, n2);
  }

  // ---------------------------------------------------------------------------
  // The compose file

  /** The two templates a compose file is rendered from. */
  const ServiceDockerTemplate := "service"
  const JobDockerTemplate := "job"

  const Compose := "docker-compose"

  /** `getYamlFile`: the directory of the service's catalog in the workspace,
      and the file named after the service in it. */
  function YamlDir(workspace: string, cmd: CmdInfo): string {
    Config.PathJoin(workspace, cmd.info.catalog)
  }

  function YamlFile(workspace: string, cmd: CmdInfo): string {
    Config.PathJoin(YamlDir(workspace, cmd), cmd.service + ".yml")
  }

  /** The compose file lives at workspace/catalog/service.yml. */
  lemma YamlFileLayout(workspace: string, cmd: CmdInfo)
    requires workspace != "" && cmd.info.catalog != ""
    ensures YamlFile(workspace, cmd) == workspace + "/" + cmd.info.catalog + "/" + cmd.service + ".yml"
  {
  }

  /** `getYamlFile`: creating the directory may fail. */
  function YamlRun(o: Oracle, n: nat, workspace: string, cmd: CmdInfo): Run<Result<string>> {
    var mk := MakeDirs(YamlDir(workspace, cmd));
    var made := o(n, mk);
    Run([mk], if made.Failed? then Failure(made.error) else Success(YamlFile(workspace, cmd)))
  }

  /** `getCommandFile`: an existing compose file is used as it is; otherwise
      the template is rendered with the commands joined by " && " and
      written to it. */
  function CommandFileRun(o: Oracle, n: nat, workspace: string, cmd: CmdInfo, template: string): Run<Result<string>>
    requires Typed(o)
  {
    var y := YamlRun(o, n, workspace, cmd);
    if y.value.Failure? then y
    else
      var file := y.value.value;
      var probe := FileExists(file);
      var found := o(n + 1, probe);
      if found.Flag? && found.flag then Run(y.calls + [probe], Success(file))
      else
        var render := RenderTemplate(template, cmd.info, Join(cmd.command, " && "));
        var text := o(n + 2, render);
        if text.Failed? then Run(y.calls + [probe, render], Failure(text.error))
        else
          var write := WriteFile(file, text.text);
          var written := o(n + 3, write);
          Run(y.calls + [probe, render, write], if written.Failed? then Failure(written.error) else Success(file))
  }

  /** What `getCommandFile` does: it only ever names the service's compose
      file; a file that exists is neither rendered nor rewritten; otherwise
      the rendering of the commands joined by " && " is written to that file
      and nowhere else. */
  lemma CommandFileReuse(o: Oracle, n: nat, workspace: string, cmd: CmdInfo, template: string)
    requires Typed(o)
    ensures var run := CommandFileRun(o, n, workspace, cmd, template);
      var file := YamlFile(workspace, cmd);
      (run.value.Success? ==> run.value.value == file) &&
      (o(n, MakeDirs(YamlDir(workspace, cmd))).Done? && o(n + 1, FileExists(file)) == Flag(true) ==>
        run == Run([MakeDirs(YamlDir(workspace, cmd)), FileExists(file)], Success(file))) &&
      (forall k :: 0 <= k < |run.calls| && run.calls[k].WriteFile? ==>
        k == 3 && run.calls[k].path == file &&
        run.calls[2] == RenderTemplate(template, cmd.info, Join(cmd.command, " && ")) &&
        run.calls[k].content == o(n + 2, run.calls[2]).text) &&
      (!o(n, MakeDirs(YamlDir(workspace, cmd))).Failed? && o(n + 1, FileExists(file)) != Flag(true) ==>
        var render := RenderTemplate(template, cmd.info, Join(cmd.command, " && "));
        var text := o(n + 2, render);
        (text.Failed? ==>
          run == Run([MakeDirs(YamlDir(workspace, cmd)), FileExists(file), render], Failure(text.error))) &&
        (!text.Failed? ==>
          var written := o(n + 3, WriteFile(file, text.text));
          run.calls == [MakeDirs(YamlDir(workspace, cmd)), FileExists(file), render, WriteFile(file, text.text)] &&
          (run.value.Success? <==> !written.Failed?) &&
          (written.Failed? ==> run.value == Failure(written.error))))
  {
  }

  /** `docker-compose -f <file> <args>` run from the service's compose file;
      a missing compose file is the error. */
  function ComposeRun(o: Oracle, n: nat, workspace: string, cmd: CmdInfo, template: string, args: seq<string>): Run<Result<string>>
    requires Typed(o)
  {
    var f := CommandFileRun(o, n, workspace, cmd, template);
    if f.value.Failure? then Run(f.calls, Failure(f.value.error))
    else
      var e := Execute(Compose, ["-f", f.value.value] + args);
      Run(f.calls + [e], TextOf(o(n + |f.calls|, e)))
  }

  /** The arguments after the file of `ExecuteCommand`: exec as root in the
      service's container, then the command's own argv. */
  function ExecArgs(cmd: CmdInfo): seq<string> {
    ["exec", "-u", "root", cmd.service] + cmd.command
  }

  /** `ExecuteCommand` runs exactly one process, `docker-compose` with argv
      `-f file exec -u root service` followed by the command, unless the
      compose file is missing. */
  lemma ExecArgv(o: Oracle, n: nat, workspace: string, cmd: CmdInfo)
    requires Typed(o)
    ensures var run := ComposeRun(o, n, workspace, cmd, ServiceDockerTemplate, ExecArgs(cmd));
      var f := CommandFileRun(o, n, workspace, cmd, ServiceDockerTemplate);
      f.value.Success? ==>
        var argv := run.calls[|run.calls| - 1].args;
        run.calls[|run.calls| - 1].Execute? && run.calls[|run.calls| - 1].program == Compose &&
        argv[..6] == ["-f", YamlFile(workspace, cmd), "exec", "-u", "root", cmd.service] &&
        argv[6..] == cmd.command
  {
    CommandFileReuse(o, n, workspace, cmd, ServiceDockerTemplate);
  }

  /** `JobService`: the job is brought up detached and then down again; a
      failed "up -d" is the result and no "down" is run. */
  function JobRun(o: Oracle, n: nat, workspace: string, cmd: CmdInfo): Run<Outcome>
    requires Typed(o)
  {
    var f := CommandFileRun(o, n, workspace, cmd, JobDockerTemplate);
    if f.value.Failure? then Run(f.calls, Some(f.value.error))
    else
      var up := Execute(Compose, ["-f", f.value.value, "up", "-d"]);
      var upped := o(n + |f.calls|, up);
      if upped.Failed? then Run(f.calls + [up], Some(upped.error))
      else
        var down := Execute(Compose, ["-f", f.value.value, "down"]);
        Run(f.calls + [up, down], ErrorOf(o(n + |f.calls| + 1, down)))
  }

  /** "down" runs exactly when "up -d" succeeded, right after it, and its
      error is then the result; a failed "up -d" is the result otherwise. */
  lemma JobDownOnlyAfterUp(o: Oracle, n: nat, workspace: string, cmd: CmdInfo)
    requires Typed(o)
    ensures var run := JobRun(o, n, workspace, cmd);
      var f := CommandFileRun(o, n, workspace, cmd, JobDockerTemplate);
      var file := YamlFile(workspace, cmd);
      var up := Execute(Compose, ["-f", file, "up", "-d"]);
      var down := Execute(Compose, ["-f", file, "down"]);
      (f.value.Failure? ==> run.calls == f.calls && run.value == Some(f.value.error)) &&
      (f.value.Success? ==>
        run.calls[..|f.calls|] == f.calls && run.calls[|f.calls|] == up &&
        (down in run.calls <==> !o(n + |f.calls|, up).Failed?) &&
        (o(n + |f.calls|, up).Failed? ==> run.value == Some(o(n + |f.calls|, up).error)) &&
        (!o(n + |f.calls|, up).Failed? ==>
          run.calls == f.calls + [up, down] && run.value == ErrorOf(o(n + |f.calls| + 1, down))))
  {
    CommandFileReuse(o, n, workspace, cmd, JobDockerTemplate);
    var f := CommandFileRun(o, n, workspace, cmd, JobDockerTemplate);
    if f.value.Success? {
      assert forall k :: 0 <= k < |f.calls| ==> !f.calls[k].Execute?;
    }
  }

  // ---------------------------------------------------------------------------
  // loadCommandFile

  /** What `yaml.Unmarshal` gives an `interface{}`: strings, lists, mappings
      (their entries in the order Go visits the decoded map, each key once)
      and any other scalar.  Keys are strings: the source asserts that. */
  datatype Yaml = Str(s: string) | List(items: seq<Yaml>) | Mapping(entries: seq<(string, Yaml)>) | Scalar

  /** The value under `key`, if any. */
  function Get(entries: seq<(string, Yaml)>, key: string): Option<Yaml> {
    if |entries| == 0 then None
    else if entries[0].0 == key then Some(entries[0].1)
    else Get(entries[1..], key)
  }

  function VolumesOf(info: ServiceInfo): Volumes {
    if info.volumes.Some? then info.volumes.value else Volumes(None, None, None)
  }

  function EnvOf(info: ServiceInfo): Env {
    if info.env.Some? then info.env.value else Env("", "")
  }

  function SvcOf(info: ServiceInfo): Svc {
    if info.svc.Some? then info.svc.value else Svc("", 0)
  }

  /** The label keys the parser knows. */
  const LabelKeys: set<string> := {
    "service.catalog", "service.image", "service.confPath", "service.dataPath", "service.backPath",
    "service.root", "service.password", "service.host", "service.port" }

  /** The service a labelled entry starts from: its name, and empty volumes,
      credentials and endpoint. */
  function Blank(name: string): ServiceInfo {
    ServiceInfo(name, "", "", "", map[], None, Some(Volumes(None, None, None)), Some(Env("", "")), Some(Svc("", 0)), 0, None)
  }

  /** The key and value of a label: a string that splits on "=" into
      exactly two pieces. */
  function Setting(tag: Yaml): Option<(string, string)> {
    if tag.Str? && |Split(tag.s, '=')| == 2 then Some((Split(tag.s, '=')[0], Split(tag.s, '=')[1])) else None
  }

  /** One label: a known key sets its field to the value; an unknown key, or
      a label that is no key and value, changes nothing. */
  function ApplyLabel(info: ServiceInfo, tag: Yaml): (r: ServiceInfo)
    ensures Setting(tag).None? || Setting(tag).value.0 !in LabelKeys ==> r == info
    ensures r.name == info.name
    ensures info.volumes.Some? ==> r.volumes.Some?
    ensures info.env.Some? ==> r.env.Some?
    ensures info.svc.Some? ==> r.svc.Some?
  {
    match Setting(tag)
    case None => info
    case Some((key, value)) => SetField(info, key, value)
  }

  function SetField(info: ServiceInfo, key: string, value: string): ServiceInfo {
    if key == "service.catalog" then info.(catalog := value)
    else if key == "service.image" then info.(image := value)
    else if key == "service.confPath" then
      info.(volumes := Some(VolumesOf(info).(confPath := Some(Path("config", value, InnerPath)))))
    else if key == "service.dataPath" then
      info.(volumes := Some(VolumesOf(info).(dataPath := Some(Path("dataPath", value, InnerPath)))))
    else if key == "service.backPath" then
      info.(volumes := Some(VolumesOf(info).(backPath := Some(Path("backPath", value, InnerPath)))))
    else if key == "service.root" then info.(env := Some(EnvOf(info).(root := value)))
    else if key == "service.password" then info.(env := Some(EnvOf(info).(password := value)))
    else if key == "service.host" then info.(svc := Some(SvcOf(info).(host := value)))
    else if key == "service.port" then info.(svc := Some(SvcOf(info).(port := WrapInt32(ParseIntValue(value, Bits64)))))
    else info
  }

  /** The labels applied in order. */
  function ApplyLabels(info: ServiceInfo, labels: seq<Yaml>): (r: ServiceInfo)
    ensures r.name == info.name
    ensures info.volumes.Some? ==> r.volumes.Some?
    ensures info.env.Some? ==> r.env.Some?
    ensures info.svc.Some? ==> r.svc.Some?
  {
    if |labels| == 0 then info else ApplyLabel(ApplyLabels(info, labels[..|labels| - 1]), labels[|labels| - 1])
  }

  /** The service described by a `labels` list. */
  function ServiceOf(name: string, labels: seq<Yaml>): ServiceInfo {
    ApplyLabels(Blank(name), labels)
  }

  /** The services of one entry of `services`: one for each `labels` key
      holding a list. */
  function ServiceEntries(name: string, entries: seq<(string, Yaml)>): seq<ServiceInfo> {
    if |entries| == 0 then []
    else
      var last := entries[|entries| - 1];
      ServiceEntries(name, entries[..|entries| - 1]) +
        if last.0 == "labels" && last.1.List? then [ServiceOf(name, last.1.items)] else []
  }

  /** The services of the `services` mapping, entry by entry. */
  function Services(services: seq<(string, Yaml)>): seq<ServiceInfo> {
    if |services| == 0 then []
    else
      var last := services[|services| - 1];
      Services(services[..|services| - 1]) +
        if last.1.Mapping? then ServiceEntries(last.0, last.1.entries) else []
  }

  /** The services a decoded compose file describes. */
  function LoadServices(doc: Yaml): seq<ServiceInfo> {
    if doc.Mapping? then
      match Get(doc.entries, "services")
      case Some(Mapping(services)) => Services(services)
      case _ => []
    else []
  }

  // --- the label parser against a reference definition

  /** The value of the last label that sets `key`, if any. */
  function LabelValue(labels: seq<Yaml>, key: string): Option<string> {
    if |labels| == 0 then None
    else
      var l := Setting(labels[|labels| - 1]);
      if l.Some? && l.value.0 == key then Some(l.value.1) else LabelValue(labels[..|labels| - 1], key)
  }

  function StringField(v: Option<string>, otherwise: string): string {
    if v.Some? then v.value else otherwise
  }

  function PathField(name: string, v: Option<string>, otherwise: Option<Path>): Option<Path> {
    if v.Some? then Some(Path(name, v.value, InnerPath)) else otherwise
  }

  /** Two strings that differ at one position differ. */
  lemma DiffAt(a: string, b: string, i: nat)
    requires i < |a| && i < |b| && a[i] != b[i]
    ensures a != b
  {
  }

  /** The label keys are pairwise different, so at most one case of the
      label switch applies. */
  lemma LabelKeysDistinct()
    ensures "service.image" != "service.catalog"
    ensures "service.confPath" != "service.catalog" && "service.confPath" != "service.image"
    ensures "service.dataPath" != "service.catalog" && "service.dataPath" != "service.image" && "service.dataPath" != "service.confPath"
    ensures "service.backPath" != "service.catalog" && "service.backPath" != "service.image" && "service.backPath" != "service.confPath" && "service.backPath" != "service.dataPath"
    ensures "service.root" != "service.catalog" && "service.root" != "service.image" && "service.root" != "service.confPath" && "service.root" != "service.dataPath" && "service.root" != "service.backPath"
    ensures "service.password" != "service.catalog" && "service.password" != "service.image" && "service.password" != "service.confPath" && "service.password" != "service.dataPath" && "service.password" != "service.backPath" && "service.password" != "service.root"
    ensures "service.host" != "service.catalog" && "service.host" != "service.image" && "service.host" != "service.confPath" && "service.host" != "service.dataPath" && "service.host" != "service.backPath" && "service.host" != "service.root" && "service.host" != "service.password"
    ensures "service.port" != "service.catalog" && "service.port" != "service.image" && "service.port" != "service.confPath" && "service.port" != "service.dataPath" && "service.port" != "service.backPath" && "service.port" != "service.root" && "service.port" != "service.password" && "service.port" != "service.host"
  {
    DiffAt("service.dataPath", "service.confPath", 8);
    DiffAt("service.backPath", "service.confPath", 8);
    DiffAt("service.backPath", "service.dataPath", 8);
    DiffAt("service.password", "service.confPath", 8);
    DiffAt("service.password", "service.dataPath", 8);
    DiffAt("service.password", "service.backPath", 8);
    DiffAt("service.host", "service.root", 8);
    DiffAt("service.port", "service.root", 8);
    DiffAt("service.port", "service.host", 8);
  }

  /** Setting one field by key: each text field takes the value exactly
      when the key names it. */
  lemma SetFieldText(info: ServiceInfo, key: string, value: string)
    ensures var r := SetField(info, key, value);
      r.catalog == (if key == "service.catalog" then value else info.catalog) &&
      r.image == (if key == "service.image" then value else info.image) &&
      EnvOf(r).root == (if key == "service.root" then value else EnvOf(info).root) &&
      EnvOf(r).password == (if key == "service.password" then value else EnvOf(info).password) &&
      SvcOf(r).host == (if key == "service.host" then value else SvcOf(info).host)
  {
    LabelKeysDistinct();
  }

  /** Setting one field by key: the port. */
  lemma SetFieldPort(info: ServiceInfo, key: string, value: string)
    ensures SvcOf(SetField(info, key, value)).port ==
      (if key == "service.port" then WrapInt32(ParseIntValue(value, Bits64)) else SvcOf(info).port)
  {
    LabelKeysDistinct();
  }

  /** Setting one field by key: the paths. */
  lemma SetFieldPaths(info: ServiceInfo, key: string, value: string)
    ensures var r := SetField(info, key, value);
      VolumesOf(r).confPath == (if key == "service.confPath" then Some(Path("config", value, InnerPath)) else VolumesOf(info).confPath) &&
      VolumesOf(r).dataPath == (if key == "service.dataPath" then Some(Path("dataPath", value, InnerPath)) else VolumesOf(info).dataPath) &&
      VolumesOf(r).backPath == (if key == "service.backPath" then Some(Path("backPath", value, InnerPath)) else VolumesOf(info).backPath)
  {
    LabelKeysDistinct();
  }

  /** What one label does to each text field. */
  lemma LabelStepText(info: ServiceInfo, tag: Yaml)
    ensures var r := ApplyLabel(info, tag);
      var t := Setting(tag);
      r.catalog == StringField(if t.Some? && t.value.0 == "service.catalog" then Some(t.value.1) else None, info.catalog) &&
      r.image == StringField(if t.Some? && t.value.0 == "service.image" then Some(t.value.1) else None, info.image) &&
      EnvOf(r).root == StringField(if t.Some? && t.value.0 == "service.root" then Some(t.value.1) else None, EnvOf(info).root) &&
      EnvOf(r).password == StringField(if t.Some? && t.value.0 == "service.password" then Some(t.value.1) else None, EnvOf(info).password) &&
      SvcOf(r).host == StringField(if t.Some? && t.value.0 == "service.host" then Some(t.value.1) else None, SvcOf(info).host)
  {
    var t := Setting(tag);
    if t.Some? {
      SetFieldText(info, t.value.0, t.value.1);
    }
  }

  /** What one label does to the port: a `service.port` value is parsed as
      64 bits and truncated to 32. */
  lemma LabelStepPort(info: ServiceInfo, tag: Yaml)
    ensures var r := ApplyLabel(info, tag);
      var t := Setting(tag);
      SvcOf(r).port == (if t.Some? && t.value.0 == "service.port" then WrapInt32(ParseIntValue(t.value.1, Bits64)) else SvcOf(info).port)
  {
    var t := Setting(tag);
    if t.Some? {
      SetFieldPort(info, t.value.0, t.value.1);
    }
  }

  /** What one label does to each path. */
  lemma LabelStepPaths(info: ServiceInfo, tag: Yaml)
    ensures var r := ApplyLabel(info, tag);
      var t := Setting(tag);
      VolumesOf(r).confPath == PathField("config", if t.Some? && t.value.0 == "service.confPath" then Some(t.value.1) else None, VolumesOf(info).confPath) &&
      VolumesOf(r).dataPath == PathField("dataPath", if t.Some? && t.value.0 == "service.dataPath" then Some(t.value.1) else None, VolumesOf(info).dataPath) &&
      VolumesOf(r).backPath == PathField("backPath", if t.Some? && t.value.0 == "service.backPath" then Some(t.value.1) else None, VolumesOf(info).backPath)
  {
    var t := Setting(tag);
    if t.Some? {
      SetFieldPaths(info, t.value.0, t.value.1);
    }
  }

  /** Each text field is set by the last label with its key (so a later
      label overrides an earlier one), and keeps its starting value when no
      label sets it. */
  lemma {:induction false} LabelsSetText(info: ServiceInfo, labels: seq<Yaml>)
    ensures var r := ApplyLabels(info, labels);
      r.catalog == StringField(LabelValue(labels, "service.catalog"), info.catalog) &&
      r.image == StringField(LabelValue(labels, "service.image"), info.image) &&
      EnvOf(r).root == StringField(LabelValue(labels, "service.root"), EnvOf(info).root) &&
      EnvOf(r).password == StringField(LabelValue(labels, "service.password"), EnvOf(info).password) &&
      SvcOf(r).host == StringField(LabelValue(labels, "service.host"), SvcOf(info).host)
    decreases |labels|
  {
    if |labels| > 0 {
      LabelsSetText(info, labels[..|labels| - 1]);
      LabelStepText(ApplyLabels(info, labels[..|labels| - 1]), labels[|labels| - 1]);
    }
  }

  /** The port is the 64-bit parse of the last `service.port` value,
      truncated to 32 bits: 0 when it does not parse, the nearest 64-bit
      bound when it overflows. */
  lemma {:induction false} LabelsSetPort(info: ServiceInfo, labels: seq<Yaml>)
    ensures SvcOf(ApplyLabels(info, labels)).port ==
      match LabelValue(labels, "service.port")
      case Some(v) => WrapInt32(ParseIntValue(v, Bits64))
      case None => SvcOf(info).port
    decreases |labels|
  {
    if |labels| > 0 {
      LabelsSetPort(info, labels[..|labels| - 1]);
      LabelStepPort(ApplyLabels(info, labels[..|labels| - 1]), labels[|labels| - 1]);
    }
  }

  /** Each path is set, as a path inside the container, by the last label
      with its key. */
  lemma {:induction false} LabelsSetPaths(info: ServiceInfo, labels: seq<Yaml>)
    ensures var r := ApplyLabels(info, labels);
      VolumesOf(r).confPath == PathField("config", LabelValue(labels, "service.confPath"), VolumesOf(info).confPath) &&
      VolumesOf(r).dataPath == PathField("dataPath", LabelValue(labels, "service.dataPath"), VolumesOf(info).dataPath) &&
      VolumesOf(r).backPath == PathField("backPath", LabelValue(labels, "service.backPath"), VolumesOf(info).backPath)
    decreases |labels|
  {
    if |labels| > 0 {
      LabelsSetPaths(info, labels[..|labels| - 1]);
      LabelStepPaths(ApplyLabels(info, labels[..|labels| - 1]), labels[|labels| - 1]);
    }
  }

  /** Splitting `k=v` when `k` has no '=': `k`, then the pieces of `v`. */
  lemma SplitAtFirst(k: string, v: string)
    requires '=' !in k
    ensures Split(k + "=" + v, '=') == [k] + Split(v, '=')
  {
    IndexOfFirst(k, '=', v);
    var s := k + "=" + v;
    assert s[..|k|] == k && s[|k| + 1..] == v;
  }

  /** A label `k=v` with a known key and no '=' in either part sets the
      field of `k` to `v`. */
  lemma LabelSets(k: string, v: string)
    requires '=' !in k && '=' !in v
    ensures LabelValue([Str(k + "=" + v)], k) == Some(v)
  {
    SplitAtFirst(k, v);
    assert Split(v, '=') == [v];
    assert [Str(k + "=" + v)][..0] == [];
  }

  /** A value holding '=' splits into more than two pieces, so the label is
      dropped. */
  lemma LabelWithEqualsDropped(info: ServiceInfo, k: string, v: string)
    requires '=' !in k && '=' in v
    ensures ApplyLabel(info, Str(k + "=" + v)) == info
  {
    SplitAtFirst(k, v);
    var i := IndexOf(v, '=');
    assert |Split(v, '=')| >= 2 by {
      assert Split(v, '=') == [v[..i]] + Split(v[i + 1..], '=');
    }
  }

  /** A service holds a `labels` list. */
  predicate Labelled(entries: seq<(string, Yaml)>) {
    exists j :: 0 <= j < |entries| && entries[j].0 == "labels" && entries[j].1.List?
  }

  lemma {:induction false} ServiceEntriesShape(name: string, entries: seq<(string, Yaml)>, k: nat)
    requires k < |ServiceEntries(name, entries)|
    ensures var r := ServiceEntries(name, entries)[k];
      r.name == name && r.volumes.Some? && r.env.Some? && r.svc.Some? && Labelled(entries)
    decreases |entries|
  {
    var init := entries[..|entries| - 1];
    var last := entries[|entries| - 1];
    if k < |ServiceEntries(name, init)| {
      ServiceEntriesShape(name, init, k);
      var j :| 0 <= j < |init| && init[j].0 == "labels" && init[j].1.List?;
      assert entries[j] == init[j];
    } else {
      assert entries[|entries| - 1] == last;
    }
  }

  /** The loaded records are the labelled entries: each is named by the key
      of a service holding a `labels` list and has volumes, credentials and
      an endpoint. */
  lemma {:induction false} LoadedShape(services: seq<(string, Yaml)>, k: nat)
    requires k < |Services(services)|
    ensures var r := Services(services)[k];
      r.volumes.Some? && r.env.Some? && r.svc.Some? &&
      exists i :: 0 <= i < |services| && services[i].0 == r.name &&
        services[i].1.Mapping? && Labelled(services[i].1.entries)
    decreases |services|
  {
    var init := services[..|services| - 1];
    var last := services[|services| - 1];
    var r := Services(services)[k];
    if k < |Services(init)| {
      LoadedShape(init, k);
      var i :| 0 <= i < |init| && init[i].0 == r.name && init[i].1.Mapping? && Labelled(init[i].1.entries);
      assert services[i] == init[i];
    } else {
      ServiceEntriesShape(last.0, last.1.entries, k - |Services(init)|);
      assert services[|services| - 1] == last;
    }
  }

  /** Every labelled service entry yields a loaded service of its name. */
  lemma {:induction false} LoadedAll(services: seq<(string, Yaml)>, i: nat)
    requires i < |services| && services[i].1.Mapping? && Labelled(services[i].1.entries)
    ensures exists k :: 0 <= k < |Services(services)| && Services(services)[k].name == services[i].0
    decreases |services|
  {
    var init := services[..|services| - 1];
    if i < |init| {
      LoadedAll(init, i);
      var k :| 0 <= k < |Services(init)| && Services(init)[k].name == services[i].0;
      assert Services(services)[k] == Services(init)[k];
    } else {
      var last := services[i];
      LabelledYields(last.0, last.1.entries);
      var k :| 0 <= k < |ServiceEntries(last.0, last.1.entries)|;
      ServiceEntriesShape(last.0, last.1.entries, k);
      assert Services(services)[|Services(init)| + k] == ServiceEntries(last.0, last.1.entries)[k];
    }
  }

  lemma {:induction false} LabelledYields(name: string, entries: seq<(string, Yaml)>)
    requires Labelled(entries)
    ensures |ServiceEntries(name, entries)| > 0
    decreases |entries|
  {
    var init := entries[..|entries| - 1];
    var last := entries[|entries| - 1];
    if !(last.0 == "labels" && last.1.List?) {
      var j :| 0 <= j < |entries| && entries[j].0 == "labels" && entries[j].1.List?;
      assert init[j] == entries[j];
      LabelledYields(name, init);
    }
  }

  // ---------------------------------------------------------------------------
  // The driver object

  class Docker {
    const hub: Hub

    constructor (hub: Hub)
      ensures this.hub == hub
    {
      this.hub := hub;
    }

    method GetYamlFile(workspace: string, cmd: CmdInfo) returns (r: Result<string>)
      modifies hub
      ensures var run := YamlRun(hub.reply, |old(hub.trace)|, workspace, cmd);
        hub.trace == old(hub.trace) + run.calls && r == run.value
    {
      var made := hub.Send(MakeDirs(YamlDir(workspace, cmd)));
      if made.Failed? {
        return Failure(made.error);
      }
      r := Success(YamlFile(workspace, cmd));
    }

    method GetCommandFile(workspace: string, cmd: CmdInfo, template: string) returns (r: Result<string>)
      requires Typed(hub.reply)
      modifies hub
      ensures var run := CommandFileRun(hub.reply, |old(hub.trace)|, workspace, cmd, template);
        hub.trace == old(hub.trace) + run.calls && r == run.value
    {
      var file := GetYamlFile(workspace, cmd);
      if file.Failure? {
        return file;
      }
      var found := hub.Send(FileExists(file.value));
      if found.Flag? && found.flag {
        return file;
      }
      var text := hub.Send(RenderTemplate(template, cmd.info, Join(cmd.command, " && ")));
      if text.Failed? {
        return Failure(text.error);
      }
      var written := hub.Send(WriteFile(file.value, text.text));
      if written.Failed? {
        return Failure(written.error);
      }
      r := file;
    }

    /** The docker-compose run of `ExecuteCommand`: the compose file as
        `getCommandFile` gives it, then `docker-compose -f <file>` with the
        arguments given. */
    method RunCompose(workspace: string, cmd: CmdInfo, template: string, args: seq<string>) returns (r: Result<string>)
      requires Typed(hub.reply)
      modifies hub
      ensures var run := ComposeRun(hub.reply, |old(hub.trace)|, workspace, cmd, template, args);
        hub.trace == old(hub.trace) + run.calls && r == run.value
    {
      var file := GetCommandFile(workspace, cmd, template);
      if file.Failure? {
        return Failure(file.error);
      }
      var out := hub.Send(Execute(Compose, ["-f", file.value] + args));
      r := TextOf(out);
    }

    method ExecuteCommand(workspace: string, cmd: CmdInfo) returns (r: Result<string>)
      requires Typed(hub.reply)
      modifies hub
      ensures var run := ComposeRun(hub.reply, |old(hub.trace)|, workspace, cmd, ServiceDockerTemplate, ExecArgs(cmd));
        hub.trace == old(hub.trace) + run.calls && r == run.value
    {
      r := RunCompose(workspace, cmd, ServiceDockerTemplate, ExecArgs(cmd));
    }

    method JobService(workspace: string, cmd: CmdInfo) returns (err: Outcome)
      requires Typed(hub.reply)
      modifies hub
      ensures var run := JobRun(hub.reply, |old(hub.trace)|, workspace, cmd);
        hub.trace == old(hub.trace) + run.calls && err == run.value
    {
      var file := GetCommandFile(workspace, cmd, JobDockerTemplate);
      if file.Failure? {
        return Some(file.error);
      }
      var up := hub.Send(Execute(Compose, ["-f", file.value, "up", "-d"]));
      if up.Failed? {
        return Some(up.error);
      }
      var down := hub.Send(Execute(Compose, ["-f", file.value, "down"]));
      err := ErrorOf(down);
    }

    /** `loadCommandFile`, given what reading and decoding the file gave. */
    method LoadCommandFile(decoded: Result<Yaml>) returns (r: Result<seq<ServiceInfo>>)
      ensures decoded.Failure? ==> r == Failure(decoded.error)
      ensures decoded.Success? ==> r == Success(LoadServices(decoded.value))
    {
      if decoded.Failure? {
        return Failure(decoded.error);
      }
      var doc := decoded.value;
      var ret: seq<ServiceInfo> := [];
      if doc.Mapping? {
        var services := Get(doc.entries, "services");
        if services.Some? && services.value.Mapping? {
          var entries := services.value.entries;
          for i := 0 to |entries|
            invariant ret == Services(entries[..i])
          {
            assert entries[..i + 1][..i] == entries[..i];
            if entries[i].1.Mapping? {
              var found := ParseService(entries[i].0, entries[i].1.entries);
              ret := ret + found;
            }
          }
          assert entries[..|entries|] == entries;
        }
      }
      r := Success(ret);
    }

    /** The services one entry of `services` yields. */
    method ParseService(name: string, entries: seq<(string, Yaml)>) returns (ret: seq<ServiceInfo>)
      ensures ret == ServiceEntries(name, entries)
    {
      ret := [];
      for i := 0 to |entries|
        invariant ret == ServiceEntries(name, entries[..i])
      {
        assert entries[..i + 1][..i] == entries[..i];
        if entries[i].0 == "labels" && entries[i].1.List? {
          var info := ParseLabels(name, entries[i].1.items);
          ret := ret + [info];
        }
      }
      assert entries[..|entries|] == entries;
    }

    /** One `labels` list, label by label. */
    method ParseLabels(name: string, labels: seq<Yaml>) returns (info: ServiceInfo)
      ensures info == ServiceOf(name, labels)
    {
      info := Blank(name);
      for i := 0 to |labels|
        invariant info == ApplyLabels(Blank(name), labels[..i])
      {
        assert labels[..i + 1][..i] == labels[..i];
        info := ApplyLabel(info, labels[i]);
      }
      assert labels[..|labels|] == labels;
    }
  }
}
