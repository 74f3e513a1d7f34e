/**
 The messages of `proto/swim.proto` and the value types the protocol works with.

 A server is identified by its host name and port alone.  A record is what a
 server remembers, or gossips, about another one.
 */
module SwimTypes {

  datatype Option<+T> = None | Some(value: T)

  datatype Server = Server(hostname: string, port: int)

  datatype Record = Record(server: Server, incarnation: nat, timestamp: nat, lamport: nat)

  datatype Report = Report(sender: Server, alive: seq<Record>, suspected: seq<Record>)

  datatype Payload =
    | StatusUpdate
    | StatusReport(report: Report)
    | StatusRequest(destination: Server)
    | Unrecognized

  datatype Envelope = Envelope(sender: Server, dest: Server, lamport: nat, payload: Payload)

  datatype Status = Alive | Suspect | Removed

  /** One call of the status listener. */
  datatype Event = Event(server: Server, status: Status)

  function Max(x: nat, y: nat): nat {
    if x < y then y else x
  }

  function Min(x: nat, y: nat): nat {
    if x < y then x else y
  }
}
