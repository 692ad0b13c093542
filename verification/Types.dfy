/** The entities the manager and the workers exchange and store. */
module Types {
  type TaskId = string
  type Name = string
  type ConnId = nat
  type ProcId = nat

  datatype Option<+T> = None | Some(value: T)

  /** Errors of the database layer.  Wrapped is fmt.Errorf with %w: a type assertion does not see through it. */
  datatype Error = NotFound | MySQL(number: int) | Wrapped(inner: Error) | NoWebSocket | WriteFailed

  const DUPLICATE_ENTRY := 1062

  /** The status column is a VARCHAR: Other stands for any text that is not one of the five statuses. */
  datatype Status = Pending | Running | Done | Failed | Deleted | Other(text: string)

  datatype Command = Command(modName: string, args: string, output: string)

  datatype File = File(contentB64: string, remotePath: string)

  /** The columns that UpdateTask overwrites besides status, workerName and priority. */
  datatype Details = Details(
    notes: string, commands: seq<Command>, files: seq<File>, name: string,
    duration: real, timeout: int, callbackURL: string, callbackToken: string)

  datatype Task = Task(
    id: TaskId, details: Details, status: Status, workerName: Name,
    username: string, priority: int, createdAt: int)

  datatype Worker = Worker(name: Name, defaultThreads: int, iddleThreads: int, up: bool, downCount: int)
}
