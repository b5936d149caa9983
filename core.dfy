/** The settings builders of lib/core/core.js: each hands a settings object
    naming one of the executables to a new `Process`. */
module Core {
  import opened Wrappers
  import Helpers
  import Proc

  /** `helpers.executable(name)`: the path of `name` in the executables
      directory under the library directory `lib`. */
  function Executable(lib: string, name: string): (path: string)
    ensures |path| >= |lib| + |name|
    ensures path[..|lib|] == lib && path[|path| - |name|..] == name
  {
    lib + "/executables/" + name
  }

  /** The settings `spawnPump(options, detached, ipc)` builds: the pump is
      started as `node <lib>/executables/pump.js` with no further arguments,
      and carries the caller's options, `detached` and `ipc`. */
  function PumpSettings(lib: string, options: Proc.Settings, detached: Option<bool>, ipc: Option<bool>): (s: Proc.Settings)
    ensures forall nodePath :: Proc.ExecOf(s, nodePath) == nodePath
    ensures Proc.ArgsOf(s) == [Executable(lib, "pump.js")]
    ensures s.options == Some(options) && s.detached == detached && s.ipc == ipc
    ensures !s.close && !s.unattach
  {
    Proc.Settings(Executable(lib, "pump.js"), None, None, None, Some(options), false, false, detached, ipc, None, None)
  }

  /** The settings `spawnDaemon(options, detached, args)` builds: the daemon
      is started as `node <lib>/executables/daemon.js ...args`, carrying the
      caller's options and `detached`. */
  function DaemonSettings(lib: string, options: Proc.Settings, detached: Option<bool>, args: Option<seq<string>>): (s: Proc.Settings)
    ensures forall nodePath :: Proc.ExecOf(s, nodePath) == nodePath
    ensures Proc.ArgsOf(s) == [Executable(lib, "daemon.js")] + (if args.Some? then args.value else [])
    ensures s.options == Some(options) && s.detached == detached && s.ipc.None?
    ensures !s.close && !s.unattach
  {
    Proc.Settings(Executable(lib, "daemon.js"), args, None, None, Some(options), false, false, detached, None, None, None)
  }

  /** A daemon spawned with the arguments `["restart"]` finds "restart" at
      `process.argv[2]`, after the node executable and its own script. */
  lemma RestartedDaemonSeesRestart(lib: string, options: Proc.Settings, nodePath: string)
    ensures var s := DaemonSettings(lib, options, Some(false), Some(["restart"]));
            var argv := [Proc.ExecOf(s, nodePath)] + Proc.ArgsOf(s);
            |argv| == 3 && argv[2] == "restart"
  {
  }

  /** The spawned executable reads its options back from `spawnOptions` in
      its environment: with a codec that round-trips, it gets exactly the
      options the builder was given. */
  lemma OptionsReachTheChild(lib: string, options: Proc.Settings, detached: Option<bool>, ipc: Option<bool>,
                             processEnv: map<string, string>,
                             encode: Proc.Settings -> string, decode: string -> Option<Proc.Settings>)
    requires decode(encode(options)) == Some(options)
    ensures var env := Proc.EnvOf(PumpSettings(lib, options, detached, ipc), processEnv, encode);
            "spawnOptions" in env && decode(env["spawnOptions"]) == Some(options)
    ensures var env := Proc.EnvOf(DaemonSettings(lib, options, detached, None), processEnv, encode);
            "spawnOptions" in env && decode(env["spawnOptions"]) == Some(options)
  {
  }

  /** `spawnPump`: a new, not yet spawned `Process` for the pump. */
  method SpawnPump(lib: string, options: Proc.Settings, detached: Option<bool>, ipc: Option<bool>,
                   nodePath: string, processEnv: map<string, string>, encode: Proc.Settings -> string)
      returns (child: Proc.Process)
    ensures fresh(child) && child.Valid() && fresh(child.stdin) && fresh(child.stdout) && fresh(child.stderr)
    ensures child.settings == PumpSettings(lib, options, detached, ipc)
    ensures child.exec == nodePath && child.args == [Executable(lib, "pump.js")]
    ensures child.env == Proc.EnvOf(child.settings, processEnv, encode)
    ensures child.spawns == 0 && !child.alive && !child.closed && child.pid.None?
    ensures child.pending == [] && child.emitted == [] && child.listening == {} && child.destroyed == {}
    ensures child.stderr.delivered == [] && !child.stderr.paused && child.stdout.delivered == [] && !child.stdout.paused
    ensures child.signals == [] && child.clientCalls == 0 && child.pipes == []
  {
    child := new Proc.Process(PumpSettings(lib, options, detached, ipc), nodePath, processEnv, encode);
  }

  /** `spawnDaemon`: a new, not yet spawned `Process` for the daemon. */
  method SpawnDaemon(lib: string, options: Proc.Settings, detached: Option<bool>, args: seq<string>,
                     nodePath: string, processEnv: map<string, string>, encode: Proc.Settings -> string)
      returns (child: Proc.Process)
    ensures fresh(child) && child.Valid() && fresh(child.stdin) && fresh(child.stdout) && fresh(child.stderr)
    ensures child.settings == DaemonSettings(lib, options, detached, Some(args))
    ensures child.exec == nodePath && child.args == [Executable(lib, "daemon.js")] + args
    ensures child.env == Proc.EnvOf(child.settings, processEnv, encode)
    ensures child.spawns == 0 && !child.alive && !child.closed && child.pid.None?
    ensures child.pending == [] && child.emitted == [] && child.listening == {} && child.destroyed == {}
    ensures child.signals == [] && child.clientCalls == 0 && child.pipes == []
  {
    child := new Proc.Process(DaemonSettings(lib, options, detached, Some(args)), nodePath, processEnv, encode);
  }
}
