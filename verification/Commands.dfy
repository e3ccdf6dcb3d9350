/** Commands, their results, and the errors of the file-sharing program. */
module Commands {
  import opened Basics

  datatype Command =
    | Register(userName: string)
    | ListPeers
    | ListFiles(userName: string)
    | GetFile(userName: string, fileName: string)

  datatype CommandResult =
    | Registered
    | Peers(names: seq<string>)
    | Files(names: seq<string>)
    | Got(userName: string, fileName: string)

  datatype Error = InvalidCommand | UserNotRegistered(userName: string) | NamespaceTooLong | Io

  datatype Result<+T> = Ok(value: T) | Err(error: Error)

  /** The response sender of a request is identified by the request id. */
  datatype CommandRequest = CommandRequest(id: nat, command: Command)

  /** What was sent on the response channel of a request. */
  datatype Answer = Answer(id: nat, result: Result<CommandResult>)

  /** A successful result of the kind the command asks for; for a file, it names that file. */
  predicate Fits(c: Command, r: CommandResult) {
    match c
    case Register(_) => r.Registered?
    case ListPeers => r.Peers?
    case ListFiles(_) => r.Files?
    case GetFile(userName, fileName) => r == Got(userName, fileName)
  }
}
