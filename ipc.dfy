/** The messages the daemon and the pump exchange over their line streams
    (lib/executables/daemon.js and lib/executables/pump.js), as the JSON
    objects they are. */
module Ipc {
  import opened Wrappers

  /** One entry of the `emit` list of a setup message. */
  datatype EmitRecord = EmitRecord(name: string, state: string)

  /** A message object. A property the sender does not set is absent: the
      daemon's setup messages carry `emit`, `daemon` and `message`, the pump's
      pid reports carry only `pid` (an absent `emit` is the empty list). */
  datatype Msg = Msg(cmd: string, emit: seq<EmitRecord>, daemon: Option<int>, message: Option<string>, pid: Option<int>)
}
