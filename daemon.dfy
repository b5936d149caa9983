/** The daemon tier of lib/executables/daemon.js: it keeps a pump running,
    collects the pump's standard error, remembers the last pid the pump
    reported for the target, and on pump death kills the target, flushes the
    channel and respawns the pump once the target is gone. */
module DaemonTier {
  import opened Wrappers
  import Streams
  import Helpers
  import Proc
  import Core
  import opened Ipc

  /** `state`: "restart" iff the daemon was started with "restart" at argv[2]. */
  function StartState(argv: seq<string>): (state: string)
    ensures state == "restart" <==> |argv| > 2 && argv[2] == "restart"
    ensures state == "start" || state == "restart"
  {
    if |argv| > 2 && argv[2] == "restart" then "restart" else "start"
  }

  /** The `emit` list sent when the pump starts: daemon, monitor and process,
      in that order, all in the daemon's start state. */
  function StartEmit(state: string): (emit: seq<EmitRecord>)
    ensures |emit| == 3
    ensures emit[0].name == "daemon" && emit[1].name == "monitor" && emit[2].name == "process"
    ensures forall k :: 0 <= k < |emit| ==> emit[k].state == state
  {
    [EmitRecord("daemon", state), EmitRecord("monitor", state), EmitRecord("process", state)]
  }

  /** The `emit` list sent when the pump restarts. */
  const RestartEmit: seq<EmitRecord> := [EmitRecord("monitor", "restart"), EmitRecord("process", "restart")]

  /** `setup(emit)`'s message: the daemon's own pid, and the collected error
      output as `message`, or null when none was collected. */
  function SetupMessage(emit: seq<EmitRecord>, daemonPid: int, errorBuffer: string): (m: Msg)
    ensures m.cmd == "setup" && m.emit == emit && m.daemon == Some(daemonPid) && m.pid.None?
    ensures m.message.None? <==> errorBuffer == ""
    ensures m.message.Some? ==> m.message.value == errorBuffer
  {
    Msg("setup", emit, Some(daemonPid), if errorBuffer == "" then None else Some(errorBuffer), None)
  }

  /** The pid of the last `pid` message of `msgs`, or `current` if there is none. */
  function LatestPid(current: Option<int>, msgs: seq<Msg>): (pid: Option<int>)
    ensures pid == current || exists k :: 0 <= k < |msgs| && msgs[k].cmd == "pid" && pid == msgs[k].pid
  {
    if msgs == [] then current
    else
      var last := msgs[|msgs| - 1];
      if last.cmd == "pid" then last.pid else LatestPid(current, msgs[..|msgs| - 1])
  }

  /** Handling one more message. */
  lemma LatestPidSnoc(current: Option<int>, msgs: seq<Msg>, m: Msg)
    ensures LatestPid(current, msgs + [m]) == if m.cmd == "pid" then m.pid else LatestPid(current, msgs)
  {
    assert (msgs + [m])[..|msgs|] == msgs;
  }

  /** `LatestPid` is the pid of the last `pid` message, and `current` when no
      message is one. */
  lemma {:induction false} LatestPidIsLastReport(current: Option<int>, msgs: seq<Msg>)
    ensures (forall k :: 0 <= k < |msgs| ==> msgs[k].cmd != "pid") ==> LatestPid(current, msgs) == current
    ensures forall k :: 0 <= k < |msgs| && msgs[k].cmd == "pid" && NoReportAfter(msgs, k) ==>
              LatestPid(current, msgs) == msgs[k].pid
    decreases |msgs|
  {
    if msgs != [] {
      var init := msgs[..|msgs| - 1];
      LatestPidIsLastReport(current, init);
      forall k | 0 <= k < |init| && init[k].cmd == "pid" && NoReportAfter(init, k)
        ensures msgs[k].cmd == "pid" && NoReportAfter(init, k)
      {
      }
      if msgs[|msgs| - 1].cmd != "pid" {
        forall k | 0 <= k < |msgs| && msgs[k].cmd == "pid" && NoReportAfter(msgs, k)
          ensures LatestPid(current, msgs) == msgs[k].pid
        {
          assert k < |init| && init[k] == msgs[k];
          assert NoReportAfter(init, k);
        }
      }
    }
  }

  /** No message after the k-th of `msgs` is a `pid` message. */
  ghost predicate NoReportAfter(msgs: seq<Msg>, k: int) {
    forall j :: 0 <= k < j < |msgs| ==> msgs[j].cmd != "pid"
  }

  /** The daemon process. The pump is `child`; `ipc` is the line stream over
      the pump's stdin and stdout, whose written lines reach the pump. */
  class Daemon {
    const ownPid: int
    const state: string
    const child: Proc.Process
    const ipc: Streams.LineStream<Msg>
    var errorBuffer: string
    var processPID: Option<int>
    var watcher: Helpers.ProcessWatcher?
    /** The pids the daemon sent the default signal to. */
    var killed: seq<int>
    /** How many of the pump's stderr chunks came before the last restart. */
    ghost var mark: nat

    ghost predicate Valid()
      reads this, child, child.tracker, child.stdout, child.stderr, ipc, watcher
    {
      && child.Valid() && ipc.Valid()
      && !child.closed && !child.stdout.paused && !child.stderr.paused
      && mark <= |child.stderr.delivered|
      && errorBuffer == Streams.Concat(child.stderr.delivered[mark..])
      && Proc.Starts(child.emitted + child.pending) == 1
      && (forall k :: 0 <= k < |child.pending| ==> !child.pending[k].Stop?)
      && (watcher == null ==> child.alive)
      && (watcher != null ==> watcher.Valid() && (child.alive <==> watcher.calls == 1))
    }

    /** The daemon's start-up: it parses `options` from its environment,
        builds the pump process and its channel, and spawns the pump, whose
        pid the operating system reports as `pumpPid`. */
    constructor (argv: seq<string>, ownPid: int, options: Proc.Settings, lib: string, nodePath: string,
                 processEnv: map<string, string>, encode: Proc.Settings -> string,
                 serialize: Msg -> string, parse: string -> Option<Msg>, pumpPid: Option<int>)
      ensures Valid()
      ensures this.ownPid == ownPid && state == StartState(argv)
      ensures child.settings == Core.PumpSettings(lib, options, Some(false), None)
      ensures ipc.serialize == serialize && ipc.parse == parse && ipc.buffer == "" && ipc.written == []
      ensures errorBuffer == "" && processPID.None? && watcher == null && killed == []
      ensures child.spawns == 1 && child.alive && child.pid == pumpPid
      ensures child.pending == [Proc.Start] && child.emitted == []
    {
      this.ownPid := ownPid;
      state := StartState(argv);
      var pump := Core.SpawnPump(lib, options, Some(false), None, nodePath, processEnv, encode);
      child := pump;
      ipc := new Streams.LineStream(serialize, parse);
      errorBuffer := "";
      processPID := None;
      watcher := null;
      killed := [];
      mark := 0;
      new;
      child.Spawn(false, pumpPid);
      assert Proc.Starts([Proc.Start]) == 1 by {
        assert [Proc.Start][1..] == [];
      }
    }

    /** A chunk of the pump's standard error: relayed, and collected. */
    method PumpStderr(chunk: string)
      requires Valid()
      modifies this, child.stderr
      ensures Valid()
      ensures errorBuffer == old(errorBuffer) + chunk
      ensures child.stderr.delivered == old(child.stderr.delivered) + [chunk]
      ensures processPID == old(processPID) && watcher == old(watcher) && killed == old(killed)
    {
      var flowing := child.ChildOutput(Proc.Stderr, chunk);
      errorBuffer := errorBuffer + chunk;
      var chunks := child.stderr.delivered;
      assert chunks[mark..] == old(child.stderr.delivered)[mark..] + [chunk];
      Streams.ConcatSnoc(old(child.stderr.delivered)[mark..], chunk);
    }

    /** A chunk of the pump's standard output: it passes the flowing stdout
        relay the channel reads from, then the channel's data handler runs. */
    method PumpStdout(chunk: string) returns (ok: bool, received: seq<Msg>)
      requires Valid()
      modifies this, ipc, child.stdout
      ensures ok ==> Valid()
      ensures child.stdout.delivered == old(child.stdout.delivered) + [chunk]
      ensures var frames := Streams.Split(old(ipc.buffer) + chunk).0;
              ok == Streams.AllParse(ipc.parse, frames) && received == Streams.ParsedPrefix(ipc.parse, frames)
      ensures processPID == LatestPid(old(processPID), received)
      ensures ipc.written == old(ipc.written)
      ensures errorBuffer == old(errorBuffer) && watcher == old(watcher) && killed == old(killed)
    {
      var flowing := child.ChildOutput(Proc.Stdout, chunk);
      assert Valid();
      ok, received := OnStdoutData(chunk);
    }

    /** The channel's data handler on a chunk of the pump's standard output,
        then the message handler for each message it emits, which keeps the
        pid of every `pid` report. `ok` is false when a frame failed to parse;
        the messages before it have been handled. */
    method OnStdoutData(chunk: string) returns (ok: bool, received: seq<Msg>)
      requires Valid()
      modifies this, ipc
      ensures ok ==> Valid()
      ensures var frames := Streams.Split(old(ipc.buffer) + chunk).0;
              ok == Streams.AllParse(ipc.parse, frames) && received == Streams.ParsedPrefix(ipc.parse, frames)
      ensures processPID == LatestPid(old(processPID), received)
      ensures ipc.written == old(ipc.written)
      ensures errorBuffer == old(errorBuffer) && watcher == old(watcher) && killed == old(killed)
    {
      ok, received := ipc.OnData(chunk);
      HandleMessages(received);
    }

    /** The message handler, for each message in turn: a `pid` message sets
        `processPID` to its pid; any other leaves it unchanged. */
    method HandleMessages(msgs: seq<Msg>)
      modifies this
      ensures processPID == LatestPid(old(processPID), msgs)
      ensures errorBuffer == old(errorBuffer) && watcher == old(watcher) && killed == old(killed)
      ensures mark == old(mark)
    {
      var k := 0;
      while k < |msgs|
        invariant 0 <= k <= |msgs|
        invariant processPID == LatestPid(old(processPID), msgs[..k])
        invariant errorBuffer == old(errorBuffer) && watcher == old(watcher) && killed == old(killed)
        invariant mark == old(mark)
      {
        var msg := msgs[k];
        assert msgs[..k + 1] == msgs[..k] + [msg];
        LatestPidSnoc(old(processPID), msgs[..k], msg);
        if msg.cmd == "pid" {
          processPID := msg.pid;
        }
        k := k + 1;
      }
      assert msgs[..k] == msgs;
    }

    /** `setup(emit)`: sends the setup message on the channel. */
    method Setup(emit: seq<EmitRecord>)
      requires Valid()
      modifies ipc
      ensures Valid()
      ensures ipc.written == old(ipc.written) + [ipc.serialize(SetupMessage(emit, ownPid, errorBuffer)) + [Streams.NL]]
      ensures ipc.buffer == old(ipc.buffer)
    {
      ipc.Send(SetupMessage(emit, ownPid, errorBuffer));
    }

    /** The next tick: the pump's queued `start` or `restart`, if any, is
        emitted and handled. On `start` the setup message announces daemon,
        monitor and process in the start state; on `restart` it announces
        monitor and process restarting, and the error output it carries is
        then dropped. */
    method PumpTick() returns (ev: Option<Proc.Event>)
      requires Valid()
      modifies this, child, ipc
      ensures Valid()
      ensures old(child.pending) == [] ==> ev.None? && ipc.written == old(ipc.written) && errorBuffer == old(errorBuffer)
      ensures old(child.pending) != [] ==> ev == Some(old(child.pending)[0])
      ensures ev == Some(Proc.Start) ==>
                ipc.written == old(ipc.written) + [ipc.serialize(SetupMessage(StartEmit(state), ownPid, old(errorBuffer))) + [Streams.NL]] &&
                errorBuffer == old(errorBuffer)
      ensures ev == Some(Proc.Restart) ==>
                ipc.written == old(ipc.written) + [ipc.serialize(SetupMessage(RestartEmit, ownPid, old(errorBuffer))) + [Streams.NL]] &&
                errorBuffer == ""
      ensures child.alive == old(child.alive) && child.pid == old(child.pid) && child.spawns == old(child.spawns)
      ensures processPID == old(processPID) && watcher == old(watcher) && killed == old(killed)
    {
      ghost var before := child.emitted + child.pending;
      ev := child.Tick();
      if ev.Some? {
        Proc.StartsTick(old(child.emitted), old(child.pending));
      }
      if ev == Some(Proc.Start) {
        Setup(StartEmit(state));
      } else if ev == Some(Proc.Restart) {
        Setup(RestartEmit);
        errorBuffer := "";
        mark := |child.stderr.delivered|;
      }
    }

    /** The pump exits. The stop handler signals the last reported target
        pid if the operating system says it exists (`targetPresent`), flushes
        the channel's buffer and starts watching that pid, whose existence the
        operating system then reports as `targetStillPresent`. */
    method PumpExit(childSuicide: bool, targetPresent: bool, targetStillPresent: bool)
      requires Valid() && child.alive
      modifies this, child, ipc
      ensures Valid()
      ensures !child.alive && child.emitted == old(child.emitted) + [Proc.Stop(childSuicide)]
      ensures Helpers.Alive(processPID, targetPresent) ==> killed == old(killed) + [processPID.value]
      ensures !Helpers.Alive(processPID, targetPresent) ==> killed == old(killed)
      ensures ipc.buffer == "" && ipc.written == old(ipc.written)
      ensures fresh(watcher) && watcher.pid == processPID && watcher.calls == 0
      ensures watcher.deadAtCall == !Helpers.Alive(processPID, targetStillPresent)
      ensures processPID == old(processPID) && errorBuffer == old(errorBuffer)
      ensures child.spawns == old(child.spawns) && child.pending == old(child.pending)
    {
      var ev := child.OnExit(childSuicide);
      Proc.StartsAddOther(old(child.emitted), ev, child.pending);
      if Helpers.Alive(processPID, targetPresent) {
        killed := killed + [processPID.value];
      }
      ipc.Flush();
      watcher := new Helpers.ProcessWatcher(processPID, targetStillPresent);
    }

    /** The watcher's queued next-tick callback, if any, respawns the pump,
        whose new pid is `pumpPid`. */
    method WatcherTick(pumpPid: Option<int>)
      requires Valid()
      modifies this, watcher, child
      ensures Valid()
      ensures var respawned := old(watcher) != null && old(watcher.deferred);
              child.spawns == old(child.spawns) + (if respawned then 1 else 0) &&
              (respawned ==> child.alive && child.pid == pumpPid && child.pending == old(child.pending) + [Proc.Restart]) &&
              (!respawned ==> child.pending == old(child.pending) && child.alive == old(child.alive))
      ensures processPID == old(processPID) && errorBuffer == old(errorBuffer) && killed == old(killed)
      ensures watcher == old(watcher)
    {
      if watcher == null {
        return;
      }
      var fire := watcher.deferred;
      watcher.Tick();
      if fire {
        Respawn(pumpPid);
      }
    }

    /** One poll of the watcher, with the operating system's answer
        `targetPresent` for the watched pid: when the pid is found dead, the
        pump is respawned with pid `pumpPid`. */
    method WatcherPoll(targetPresent: bool, pumpPid: Option<int>)
      requires Valid()
      modifies this, watcher, child
      ensures Valid()
      ensures var respawned := old(watcher) != null && old(watcher.polling) && !Helpers.Alive(old(watcher).pid, targetPresent);
              child.spawns == old(child.spawns) + (if respawned then 1 else 0) &&
              (respawned ==> child.alive && child.pid == pumpPid && child.pending == old(child.pending) + [Proc.Restart]) &&
              (!respawned ==> child.pending == old(child.pending) && child.alive == old(child.alive))
      ensures processPID == old(processPID) && errorBuffer == old(errorBuffer) && killed == old(killed)
      ensures watcher == old(watcher)
    {
      if watcher == null {
        return;
      }
      var fire := watcher.polling && !Helpers.Alive(watcher.pid, targetPresent);
      watcher.Poll(targetPresent);
      if fire {
        Respawn(pumpPid);
      }
    }

    /** The watcher's callback: `child.spawn(true)`. */
    method Respawn(pumpPid: Option<int>)
      requires child.Valid() && ipc.Valid() && watcher != null && watcher.Valid() && watcher.calls == 1
      requires !child.closed && !child.stdout.paused && !child.stderr.paused && !child.alive
      requires mark <= |child.stderr.delivered| && errorBuffer == Streams.Concat(child.stderr.delivered[mark..])
      requires Proc.Starts(child.emitted + child.pending) == 1
      requires forall k :: 0 <= k < |child.pending| ==> !child.pending[k].Stop?
      modifies child
      ensures Valid()
      ensures child.spawns == old(child.spawns) + 1 && child.alive && child.pid == pumpPid
      ensures child.pending == old(child.pending) + [Proc.Restart]
    {
      child.Spawn(true, pumpPid);
      Proc.StartsAppend(child.emitted + old(child.pending), [Proc.Restart]);
      assert child.emitted + child.pending == (child.emitted + old(child.pending)) + [Proc.Restart];
      assert Proc.Starts([Proc.Restart]) == 0 by {
        assert [Proc.Restart][1..] == [];
      }
    }
  }

  /** The daemon's invariant in words: `start` is emitted at most once over
      the daemon's lifetime, every later spawn of the pump being a respawn. */
  lemma AtMostOneStart(d: Daemon)
    requires d.Valid()
    ensures Proc.Starts(d.child.emitted) <= 1
  {
    Proc.StartsAppend(d.child.emitted, d.child.pending);
  }
}
