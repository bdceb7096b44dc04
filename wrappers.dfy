/** Option and result types shared by every module of the agent model, and the
    error values the agent itself creates.  Errors that come back from a
    collaborator (the event hub, an HTTP peer, the file system, a process) are
    opaque: they are carried unchanged as `Driver` values. */
module Wrappers {

  datatype Option<+T> = None | Some(value: T)

  /** The errors of the agent.  Each constructor stands for one error the source
      creates with a fixed message; its arguments are the values formatted into
      that message. */
  datatype Error =
    | Driver(code: nat)                 // an error returned by a collaborator, passed through
    | IllegalServiceInfo                // "illegal service info"
    | NotExist(name: string)            // "<name> not exist"
    | CatalogMismatch(name: string)     // "<name> miss match catalog"
    | MasterMissingOrDisabled           // "missing master or master is disable"
    | RemoteRemainsSlave                // "remote service remain in slave mode"
    | IllegalBinlog(itemSize: nat)      // "illegal bin log file, itemSize:<n>, ..."
    | EmptyBinlog                       // "bin log file is empty"
    | SlaveBehind(seconds: int)         // "the current slave is <n>s behind the master"
    | NoPods(name: string)              // "not exist <name> pods"

  /** The `(value, *cd.Result)` pair of a Go call: a value or an error. */
  datatype Result<+T> = Success(value: T) | Failure(error: Error)

  /** The `err *cd.Result` of a Go call that returns nothing else. */
  type Outcome = Option<Error>

  const Pass: Outcome := None
}
