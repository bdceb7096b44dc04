/** Everything the agent asks of the world outside its own logic: events sent
    to the other modules over the event hub, HTTP requests to the peer node,
    file-system access, the Kubernetes API and child processes.  `Hub` records
    each request in `trace` and answers it from `reply`, an arbitrary but
    fixed function of the request and of its position in the trace, so every
    answer a collaborator could give is covered. */
module Effects {
  import opened Wrappers
  import opened Common
  import Config

  /** The container names of a pod: Kubernetes admits no pod without one. */
  type Containers = s: seq<string> | |s| > 0 witness ["mariadb"]

  /** A pod of a deployment and the names of its containers. */
  datatype Pod = Pod(name: string, containers: Containers)

  datatype Call =
    // designation file
    | StatFile(path: string)
    | LoadConfigFile(path: string)
    // events the kernel sends to the driver (k8s or docker) module
    | ListService(catalog: string)
    | QueryService(name: string, catalog: string)
    | RestoreEndpoints(info: ServiceInfo)
    | ChangeEndpoints(info: ServiceInfo, endpoint: Endpoint)
    // events the kernel sends to the MariaDB module
    | SwitchToMaster(info: ServiceInfo)
    | SwitchToSlave(info: ServiceInfo, master: MasterInfo)
    | CheckMaster(info: ServiceInfo)
    | CheckSlave(info: ServiceInfo)
    | RestoreDatabase(info: ServiceInfo)
    | BackupDatabase(info: ServiceInfo)
    // event the kernel sends to the file-sync module
    | SyncFilesToLocal(sync: SyncInfo)
    // HTTP requests to the peer agent
    | QueryRemoteService(host: string, port: string, name: string, catalog: string)
    | QueryRemoteStatus(host: string, port: string, name: string, secret: string)
    | BackupFromRemote(host: string, port: string, name: string, secret: string)
    // files under a service's back-up directory
    | LoadStatusFile(path: string)
    | SaveStatusFile(path: string, status: MasterStatus)
    | ReadFile(path: string)
    // events the MariaDB module sends to the driver module
    | ExecuteCommand(service: string, info: ServiceInfo, command: seq<string>)
    | JobService(service: string, info: ServiceInfo, commands: seq<string>)
    | StopService(service: string, info: ServiceInfo)
    | StartService(service: string, info: ServiceInfo)
    // what the drivers do
    | NotifyService(action: Action, info: ServiceInfo)
    | CleanHAServicePort(name: string)
    | ListPods(deployment: string)
    | ExecInPod(pod: string, container: string, commandLine: string)
    | StartDeployment(info: ServiceInfo)
    | StopDeployment(info: ServiceInfo)
    | DestroyDeployment(info: ServiceInfo)
    | MakeDirs(path: string)
    | FileExists(path: string)
    | RenderTemplate(template: string, info: ServiceInfo, commandLine: string)
    | WriteFile(path: string, content: string)
    | Execute(program: string, args: seq<string>)

  /** The action header of a service notification. */
  datatype Action = Add | Mod | Del

  datatype Reply =
    | Failed(error: Error)
    | Done
    | Output(text: string)
    | FileTime(modTime: int)
    | Loaded(cfg: Config.CfgItem)
    | Listing(services: Catalog2ServiceList)
    | Service(info: ServiceInfo)
    | Master(master: MasterStatus)
    | Slave(slave: SlaveStatus)
    | RemoteStatus(remoteMaster: Option<MasterStatus>, remoteSlave: Option<SlaveStatus>)
    | DataPath(path: string)
    | Pods(pods: seq<Pod>)
    | Flag(flag: bool)
    | Unexpected                      // a value of a type the caller does not expect

  /** The shape of reply each request gets: either a failure or the value
      its handler produces.  The source asserts these types without checking
      them (a mismatch would panic), except for the service query, whose
      caller checks the type and so may also see `Unexpected`. */
  predicate Fits(c: Call, r: Reply) {
    r.Failed? ||
    match c
    case StatFile(_) => r.FileTime?
    case LoadConfigFile(_) => r.Loaded?
    case ListService(_) => r.Listing?
    case QueryService(_, _) => r.Service? || r.Unexpected?
    case CheckMaster(_) => r.Master?
    case CheckSlave(_) => r.Slave?
    case QueryRemoteService(_, _, _, _) => r.Service?
    case QueryRemoteStatus(_, _, _, _) => r.RemoteStatus?
    case BackupFromRemote(_, _, _, _) => r.DataPath?
    case BackupDatabase(_) => r.DataPath?
    case LoadStatusFile(_) => r.Master?
    case ReadFile(_) => r.Output?
    case ExecuteCommand(_, _, _) => r.Output?
    case ListPods(_) => r.Pods?
    case ExecInPod(_, _, _) => r.Output?
    case FileExists(_) => r.Flag?
    case RenderTemplate(_, _, _) => r.Output?
    case Execute(_, _) => r.Output?
    case _ => r.Done?
  }

  /** The error a reply carries, if any (`result.Error()`). */
  function ErrorOf(r: Reply): Outcome {
    if r.Failed? then Some(r.error) else None
  }

  type Oracle = (nat, Call) -> Reply

  /** The requests a protocol makes, in order, and what it returns. */
  datatype Run<T> = Run(calls: seq<Call>, value: T)

  /** The text a command produced, or its error. */
  function TextOf(r: Reply): Result<string>
    requires r.Failed? || r.Output?
  {
    if r.Failed? then Failure(r.error) else Success(r.text)
  }

  /** Regrouping three pieces of a trace. */
  lemma CallsAssoc(a: seq<Call>, b: seq<Call>, c: seq<Call>)
    ensures a + (b + c) == a + b + c
  {
  }

  /** Every answer has the shape its request calls for (`Fits`). */
  ghost predicate Typed(o: Oracle) {
    forall n: nat, c: Call :: Fits(c, o(n, c))
  }

  lemma TypedFits(o: Oracle, n: nat, c: Call)
    requires Typed(o)
    ensures Fits(c, o(n, c))
  {
  }

  /** The request log and the oracle that answers it. */
  class Hub {
    /** The requests made so far, oldest first. */
    var trace: seq<Call>
    /** The answer to each request, by position in the trace. */
    const reply: Oracle

    constructor (reply: Oracle)
      ensures trace == [] && this.reply == reply
    {
      trace := [];
      this.reply := reply;
    }

    /** Make one request and return its answer. */
    method Send(c: Call) returns (r: Reply)
      modifies this
      ensures trace == old(trace) + [c]
      ensures r == reply(|old(trace)|, c)
      ensures Typed(reply) ==> Fits(c, r)
    {
      r := reply(|trace|, c);
      if Typed(reply) {
        TypedFits(reply, |trace|, c);
      }
      trace := trace + [c];
    }
  }
}
