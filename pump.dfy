/** The pump tier of lib/executables/pump.js: it runs the target command
    under a monitor, replays the monitor events it was told about, keeps the
    monitor's `pid.process` slot in step with the target, respawns the target
    when it stops on its own and, under the daemon strategy, reports the
    target's pid to the daemon and replaces the daemon when it dies. */
module PumpTier {
  import opened Wrappers
  import Streams
  import Helpers
  import Proc
  import Core
  import opened Ipc

  // ---------------------------------------------------------------------------
  // The `emits` argument of `setupMonitor`.

  /** A JavaScript value handed to `monitor.emit`. */
  datatype Arg = Str(s: string) | Record(r: EmitRecord) | Undefined

  /** The value under a key of `emits`: an array, which `concat` spreads into
      the argument list, or a single value, which it appends as one. */
  datatype EmitValue = List(items: seq<Arg>) | Single(value: Arg)

  /** An `emits` object: its keys in `Object.keys` order, with their values. */
  type Emits = seq<(string, EmitValue)>

  /** One call `monitor.emit(event, ...args)`. */
  datatype Call = Call(event: string, args: seq<Arg>)

  /** `emits[key]`, or `None` when the key is absent. */
  function Lookup(emits: Emits, key: string): (v: Option<EmitValue>)
    ensures v.None? <==> forall k :: 0 <= k < |emits| ==> emits[k].0 != key
    ensures v.Some? ==> exists k :: 0 <= k < |emits| && emits[k] == (key, v.value)
  {
    if emits == [] then None
    else if emits[0].0 == key then Some(emits[0].1)
    else
      var v := Lookup(emits[1..], key);
      assert v.Some? ==> exists k :: 0 <= k < |emits[1..]| && emits[1..][k] == (key, v.value);
      v
  }

  /** The arguments after the event name in `[name].concat(value)`; an absent
      value is `undefined`. */
  function Spread(value: Option<EmitValue>): (args: seq<Arg>)
    ensures value.Some? && value.value.List? ==> args == value.value.items
    ensures !(value.Some? && value.value.List?) ==> |args| == 1
    ensures value.Some? && value.value.Single? ==> args[0] == value.value.value
  {
    match value
    case None => [Undefined]
    case Some(List(items)) => items
    case Some(Single(a)) => [a]
  }

  /** The calls the ready callback replays: one per key other than "process",
      in key order. */
  function Replay(emits: Emits): (calls: seq<Call>)
    ensures |calls| <= |emits|
  {
    if emits == [] then []
    else if emits[0].0 == "process" then Replay(emits[1..])
    else [Call(emits[0].0, Spread(Some(emits[0].1)))] + Replay(emits[1..])
  }

  /** The replay never emits `process`. */
  lemma {:induction false} ReplaySkipsProcess(emits: Emits)
    ensures forall c :: c in Replay(emits) ==> c.event != "process"
    decreases |emits|
  {
    if emits != [] {
      ReplaySkipsProcess(emits[1..]);
    }
  }

  /** When no key is "process", every entry is replayed, in key order, with
      its value spread into the arguments. */
  lemma {:induction false} ReplayKeepsOtherKeys(emits: Emits)
    requires forall k :: 0 <= k < |emits| ==> emits[k].0 != "process"
    ensures |Replay(emits)| == |emits|
    ensures forall k :: 0 <= k < |emits| ==> Replay(emits)[k] == Call(emits[k].0, Spread(Some(emits[k].1)))
    decreases |emits|
  {
    if emits != [] {
      assert forall k :: 0 <= k < |emits[1..]| ==> emits[1..][k] == emits[k + 1];
      ReplayKeepsOtherKeys(emits[1..]);
      var calls := Replay(emits);
      assert calls == [Call(emits[0].0, Spread(Some(emits[0].1)))] + Replay(emits[1..]);
      assert forall k :: 1 <= k < |calls| ==> calls[k] == Replay(emits[1..])[k - 1];
    }
  }

  /** The `forEach` over `Object.keys(emits)` in the ready callback. */
  method ReplayCalls(emits: Emits) returns (replayed: seq<Call>)
    ensures replayed == Replay(emits)
  {
    replayed := [];
    var k := 0;
    while k < |emits|
      invariant 0 <= k <= |emits|
      invariant replayed + Replay(emits[k..]) == Replay(emits)
    {
      var (name, value) := emits[k];
      assert emits[k..][1..] == emits[k + 1..];
      if name != "process" {
        replayed := replayed + [Call(name, Spread(Some(value)))];
      }
      k := k + 1;
    }
  }

  function Digit(d: nat): (c: char)
    requires d < 10
    ensures Helpers.IsDigit(c)
  {
    "0123456789"[d]
  }

  /** The decimal representation of `n`: the key of the n-th item of an array. */
  function DecimalString(n: nat): (s: string)
    ensures s != [] && Helpers.AllDigits(s)
  {
    if n < 10 then [Digit(n)] else DecimalString(n / 10) + [Digit(n % 10)]
  }

  /** What an array looks like to `Object.keys`: its indices, as decimal
      strings, each holding one record. This is the shape of the daemon's
      `emit` list. */
  function ArrayEmits(records: seq<EmitRecord>): (emits: Emits)
    ensures |emits| == |records|
    ensures forall k :: 0 <= k < |records| ==> emits[k] == (DecimalString(k), Single(Record(records[k])))
  {
    seq(|records|, k requires 0 <= k < |records| => (DecimalString(k), Single(Record(records[k]))))
  }

  /** The table the pump uses without a daemon. */
  const LocalEmits: Emits := [("monitor", List([Str("start")])), ("process", List([Str("start")]))]

  /** A decimal string is never "process". */
  lemma DecimalIsNotProcess(n: nat)
    ensures DecimalString(n) != "process"
  {
    var s := DecimalString(n);
    assert Helpers.IsDigit(s[0]);
  }

  /** With the daemon's array, every record is replayed under its index, the
      "process" record included, and `emits.process` is undefined. */
  lemma ReplayOfDaemonArray(records: seq<EmitRecord>)
    ensures |Replay(ArrayEmits(records))| == |records|
    ensures forall k :: 0 <= k < |records| ==>
              Replay(ArrayEmits(records))[k] == Call(DecimalString(k), [Record(records[k])])
    ensures Lookup(ArrayEmits(records), "process").None?
    ensures Spread(Lookup(ArrayEmits(records), "process")) == [Undefined]
  {
    var emits := ArrayEmits(records);
    forall k | 0 <= k < |emits|
      ensures emits[k].0 != "process"
    {
      DecimalIsNotProcess(k);
    }
    ReplayKeepsOtherKeys(emits);
  }

  /** Without a daemon, only "monitor" is replayed; "process" waits for the
      child's start. */
  lemma ReplayOfLocalTable()
    ensures Replay(LocalEmits) == [Call("monitor", [Str("start")])]
    ensures Spread(Lookup(LocalEmits, "process")) == [Str("start")]
  {
    assert LocalEmits[1..][1..] == [];
    assert Replay(LocalEmits[1..]) == [];
    assert Lookup(LocalEmits[1..], "process") == Some(List([Str("start")]));
  }

  /** `{cmd: 'pid', pid: child.pid}` */
  function PidMessage(pid: Option<int>): (m: Msg)
    ensures m.cmd == "pid" && m.pid == pid && m.emit == [] && m.daemon.None? && m.message.None?
  {
    Msg("pid", [], None, None, pid)
  }

  /** The `pid.process` slot as the listeners leave it: null before the
      child's first event and after a stop, the child's pid otherwise. */
  function PidSlot(emitted: seq<Proc.Event>, pid: Option<int>): Option<int> {
    if emitted == [] || emitted[|emitted| - 1].Stop? then None else pid
  }

  /** What the listeners do to `pid.process` on one child event, given the
      child's pid when it fires: `stop` clears the slot, `start` and
      `restart` overwrite it with that pid. */
  function React(ev: Proc.Event, pid: Option<int>): Option<int> {
    if ev.Stop? then None else pid
  }

  /** The slot after the listeners have run on each `(event, pid)` pair of
      `history` in turn, starting from `slot`; each pair carries the pid the
      child had when that event fired, which changes across respawns. */
  function Replayed(slot: Option<int>, history: seq<(Proc.Event, Option<int>)>): Option<int>
    decreases |history|
  {
    if history == [] then slot else Replayed(React(history[0].0, history[0].1), history[1..])
  }

  /** After any history the slot holds what the LAST event left: null after
      a stop, otherwise the pid the child had at its latest start or
      restart, whatever came before; with no event it keeps its start value.
      So `pid.process` is null exactly between a stop and the next restart,
      and after a respawn it names the new child, not an earlier one. */
  lemma {:induction false} SlotDiscipline(slot: Option<int>, history: seq<(Proc.Event, Option<int>)>)
    ensures history == [] ==> Replayed(slot, history) == slot
    ensures history != [] && history[|history| - 1].0.Stop? ==> Replayed(slot, history).None?
    ensures history != [] && !history[|history| - 1].0.Stop? ==> Replayed(slot, history) == history[|history| - 1].1
    decreases |history|
  {
    if history != [] {
      SlotDiscipline(React(history[0].0, history[0].1), history[1..]);
      if history[1..] != [] {
        assert history[1..][|history[1..]| - 1] == history[|history| - 1];
      }
    }
  }

  /** The lifecycle events a child's `Process` still owes: those queued for
      the next tick and the one its close callback will emit. */
  ghost function Due(p: Proc.Process): seq<Proc.Event>
    reads p
  {
    DueOf(p.pending, p.listening, p.closeCallback)
  }

  function DueOf(pending: seq<Proc.Event>, listening: set<Proc.Channel>, callback: Option<Proc.Callback>): seq<Proc.Event> {
    pending + (if listening != {} && callback.Some? && callback.value.Lifecycle? then [callback.value.event] else [])
  }

  /** A channel's `close` report moves the close callback's event, when it
      fires, out of what the `Process` owes, and changes nothing else in it. */
  lemma ChannelCloseDue(pending: seq<Proc.Event>, listening: set<Proc.Channel>, callback: Option<Proc.Callback>,
                        ch: Proc.Channel, ev: Option<Proc.Event>)
    requires ev.Some? <==> ch in listening && listening == {ch} && callback.Some? && callback.value.Lifecycle?
    requires ev.Some? ==> ev.value == callback.value.event
    ensures ev.Some? ==> DueOf(pending, listening, callback) == DueOf(pending, listening - {ch}, callback) + [ev.value]
    ensures ev.None? ==> DueOf(pending, listening - {ch}, callback) == DueOf(pending, listening, callback)
  {
    if ev.None? && listening != {} && callback.Some? && callback.value.Lifecycle? {
      assert listening - {ch} != {} by {
        if ch in listening {
          var other :| other in listening && other != ch;
          assert other in listening - {ch};
        } else {
          var other :| other in listening;
          assert other in listening - {ch};
        }
      }
    }
  }

  // ---------------------------------------------------------------------------
  // The pump process.

  /** The pump process. `monitor*` fields are the monitor object the pump
      creates: its `pid` triple and the calls made on its `emit`. Under the
      daemon strategy `ipc` is the line stream over the pump's own stdout
      and stdin. */
  class Pump {
    const options: Proc.Settings
    const ownPid: int
    const daemonStrategy: bool
    const lib: string
    const nodePath: string
    const processEnv: map<string, string>
    const encode: Proc.Settings -> string
    const child: Proc.Process
    const ipc: Streams.LineStream?<Msg>

    var monitorCreated: bool
    var monitorReady: bool
    var emits: Emits
    var message: Option<string>
    var pidProcess: Option<int>
    var pidMonitor: int
    var pidDaemon: Option<int>
    var calls: seq<Call>
    /** The child's `once('start')` listener has run. */
    var startSeen: bool

    var daemonWatcher: Helpers.ProcessWatcher?
    /** The daemon watcher fired: the stop listener that replaces the daemon
        is registered. */
    var daemonDead: bool
    /** The last daemon spawned to replace the dead one, and how many were. */
    var successor: Proc.Process?
    var successors: nat
    var exited: bool

    /** The invariant: what `Stable` says, and `pid.process` null exactly
        before the child's first event and after a stop. */
    ghost predicate Valid()
      reads this, child, child.tracker, daemonWatcher, successor
      reads if successor != null then {successor.tracker} else {}
    {
      Stable() && (monitorCreated ==> pidProcess == PidSlot(child.emitted, child.pid))
    }

    ghost predicate Stable()
      reads this, child, child.tracker, daemonWatcher, successor
      reads if successor != null then {successor.tracker} else {}
    {
      && Own()
      && Lifecycle(child)
      && (child.spawns > 0 ==> monitorReady)
      && (startSeen <==> Proc.Start in child.emitted)
      && (successor != null ==>
            && successor != child
            && (successor.tracker != null ==> successor.tracker != child.tracker))
    }

    /** What the pump keeps about its own state, the daemon watcher and the
        successor, leaving the target out. */
    ghost predicate Own()
      reads this, daemonWatcher, successor
      reads if successor != null then {successor.tracker} else {}
    {
      && (daemonStrategy <==> ipc != null)
      && (monitorReady ==> monitorCreated)
      && (!daemonStrategy ==> monitorCreated)
      && (monitorCreated ==> pidMonitor == ownPid)
      && (daemonWatcher != null ==> daemonStrategy && monitorCreated && daemonWatcher.Valid())
      && (daemonDead ==> daemonWatcher != null && daemonWatcher.calls == 1)
      && (successor != null ==>
            successor.Valid() && daemonDead && successor.closeCallback == Some(Proc.Client))
    }

    /** The pump's start-up with the options parsed from its environment:
        it builds the target's `Process`, pumps it to its own stdio under the
        development strategy, and either opens the channel to the daemon or,
        without a daemon, sets the monitor up with the local table. */
    constructor (options: Proc.Settings, ownPid: int, lib: string, nodePath: string,
                 processEnv: map<string, string>, encode: Proc.Settings -> string,
                 serialize: Msg -> string, parse: string -> Option<Msg>)
      ensures Valid()
      ensures daemonStrategy == (options.strategy == Some("daemon"))
      ensures child.settings == options && child.spawns == 0 && child.closed == options.close
      ensures options.strategy == Some("development") ==> child.pipes == Proc.PumpPipes(Proc.Sinks("process", Proc.AllChannels))
      ensures options.strategy != Some("development") ==> child.pipes == []
      ensures daemonStrategy ==> ipc != null && ipc.buffer == "" && ipc.written == [] && !monitorCreated
      ensures !daemonStrategy ==> monitorCreated && emits == LocalEmits && message.None? && pidDaemon.None? && pidProcess.None?
      ensures !monitorReady && calls == [] && !startSeen
      ensures daemonWatcher == null && !daemonDead && successor == null && successors == 0 && !exited
    {
      this.options := options;
      this.ownPid := ownPid;
      daemonStrategy := options.strategy == Some("daemon");
      this.lib := lib;
      this.nodePath := nodePath;
      this.processEnv := processEnv;
      this.encode := encode;
      var target := new Proc.Process(options, nodePath, processEnv, encode);
      child := target;
      if options.strategy == Some("daemon") {
        var channel := new Streams.LineStream(serialize, parse);
        ipc := channel;
      } else {
        ipc := null;
      }
      monitorCreated := false;
      monitorReady := false;
      emits := [];
      message := None;
      pidProcess := None;
      pidMonitor := ownPid;
      pidDaemon := None;
      calls := [];
      startSeen := false;
      daemonWatcher := null;
      daemonDead := false;
      successor := null;
      successors := 0;
      exited := false;
      new;
      if options.strategy == Some("development") {
        child.Pump(Proc.Sinks("process", Proc.AllChannels));
      }
      if !daemonStrategy {
        SetupMonitor(LocalEmits, None, None);
      }
    }

    /** `setupMonitor(emits, message, daemonPid)`: creates the monitor, whose
        `pid` triple starts as null, the pump's own pid and `daemonPid`. */
    method SetupMonitor(emits: Emits, message: Option<string>, daemonPid: Option<int>)
      modifies this
      ensures monitorCreated && monitorReady == old(monitorReady)
      ensures this.emits == emits && this.message == message
      ensures pidProcess.None? && pidMonitor == ownPid && pidDaemon == daemonPid
      ensures calls == old(calls) && startSeen == old(startSeen)
      ensures daemonWatcher == old(daemonWatcher) && daemonDead == old(daemonDead)
      ensures successor == old(successor) && successors == old(successors) && exited == old(exited)
    {
      monitorCreated := true;
      this.emits := emits;
      this.message := message;
      pidProcess := None;
      pidMonitor := ownPid;
      pidDaemon := daemonPid;
    }

    /** A chunk from the daemon on the pump's stdin. The first setup message
        starts the watch on the daemon's pid, whose existence the operating
        system reports as `daemonPresent`, and then sets the monitor up with
        the message's `emit` list, an array, as its emits. `ok` is false when
        a frame failed to parse: the uncaught error then ends the pump, so the
        invariant is promised only when every frame parsed. */
    method DaemonData(chunk: string, daemonPresent: bool) returns (ok: bool, received: seq<Msg>)
      requires Valid() && daemonStrategy
      modifies this, ipc
      ensures ok ==> Valid()
      ensures var frames := Streams.Split(old(ipc.buffer) + chunk).0;
              ok == Streams.AllParse(ipc.parse, frames) && received == Streams.ParsedPrefix(ipc.parse, frames)
      ensures received != [] && !old(monitorCreated) ==>
                monitorCreated && emits == ArrayEmits(received[0].emit) && message == received[0].message &&
                pidDaemon == received[0].daemon && pidProcess.None? &&
                fresh(daemonWatcher) && daemonWatcher.pid == received[0].daemon &&
                daemonWatcher.deadAtCall == !Helpers.Alive(received[0].daemon, daemonPresent) &&
                daemonWatcher.calls == 0
      ensures !(received != [] && !old(monitorCreated)) ==>
                monitorCreated == old(monitorCreated) && emits == old(emits) && daemonWatcher == old(daemonWatcher)
      ensures calls == old(calls) && monitorReady == old(monitorReady) && ipc.written == old(Written())
      ensures daemonDead == old(daemonDead) && successor == old(successor)
    {
      ok, received := ipc.OnData(chunk);
      if received != [] && !monitorCreated {
        OnSetup(received[0], daemonPresent);
      }

    }

    /** The message handler for the setup message `msg`. */
    method OnSetup(msg: Msg, daemonPresent: bool)
      requires Valid() && daemonStrategy && !monitorCreated
      modifies this
      ensures Valid()
      ensures monitorCreated && emits == ArrayEmits(msg.emit) && message == msg.message
      ensures pidDaemon == msg.daemon && pidProcess.None?
      ensures fresh(daemonWatcher) && daemonWatcher.pid == msg.daemon && daemonWatcher.calls == 0
      ensures daemonWatcher.deadAtCall == !Helpers.Alive(msg.daemon, daemonPresent)
      ensures calls == old(calls) && monitorReady == old(monitorReady)
      ensures daemonDead == old(daemonDead) && successor == old(successor)
    {
      daemonWatcher := new Helpers.ProcessWatcher(msg.daemon, daemonPresent);
      SetupMonitor(ArrayEmits(msg.emit), msg.message, msg.daemon);
    }

    /** The monitor's ready callback: replays the emits other than "process",
        in key order, then spawns the child (with pid `childPid`) and pumps
        its streams to the monitor. */
    method MonitorReady(childPid: Option<int>)
      requires Valid()
      modifies this, child
      ensures Valid()
      ensures old(monitorCreated) && !old(monitorReady) ==>
                calls == old(calls) + Replay(emits) && monitorReady &&
                child.spawns == 1 && child.alive && child.pid == childPid &&
                child.pipes == old(child.pipes) + Proc.ChildPipes(1) + Proc.PumpPipes(Proc.Sinks("monitor", Proc.AllChannels)) &&
                Due(child) == [Proc.Start]
      ensures !(old(monitorCreated) && !old(monitorReady)) ==> calls == old(calls) && child.spawns == old(child.spawns)
      ensures child.emitted == old(child.emitted)
      ensures pidProcess == old(pidProcess) && emits == old(emits) && daemonDead == old(daemonDead)
    {
      if monitorCreated && !monitorReady {
        Ready(childPid);
      }
    }

    /** The ready callback proper: the replay, then the target's first
        spawn, pumped to the monitor. */
    method Ready(childPid: Option<int>)
      requires Valid() && monitorCreated && !monitorReady
      modifies this, child
      ensures Valid()
      ensures calls == old(calls) + Replay(emits) && monitorReady
      ensures child.spawns == 1 && child.alive && child.pid == childPid
      ensures child.pipes == old(child.pipes) + Proc.ChildPipes(1) + Proc.PumpPipes(Proc.Sinks("monitor", Proc.AllChannels))
      ensures Due(child) == [Proc.Start] && child.emitted == old(child.emitted)
      ensures pidProcess == old(pidProcess) && emits == old(emits) && daemonDead == old(daemonDead)
    {
      var replayed := ReplayCalls(emits);
      calls := calls + replayed;
      monitorReady := true;
      assert Valid();
      StartTarget(childPid);
    }

    /** The target's first spawn, pumped to the monitor, once the monitor is
        ready. */
    method StartTarget(childPid: Option<int>)
      requires Valid() && monitorReady && child.spawns == 0
      modifies child
      ensures Valid()
      ensures child.spawns == 1 && child.alive && child.pid == childPid
      ensures child.pipes == old(child.pipes) + Proc.ChildPipes(1) + Proc.PumpPipes(Proc.Sinks("monitor", Proc.AllChannels))
      ensures Due(child) == [Proc.Start] && child.emitted == old(child.emitted)
    {
      SpawnAndPump(child, childPid);
      assert Own();
      assert pidProcess == PidSlot(child.emitted, child.pid);
    }

    /** The next tick: the child's oldest queued lifecycle emit, if any,
        happens, and the pump's listeners react to it. */
    method ChildTick() returns (ev: Option<Proc.Event>)
      requires Valid()
      modifies this, child, ipc
      ensures Valid()
      ensures ev == if old(child.pending) == [] then None else Some(old(child.pending)[0])
      ensures ev.None? ==> calls == old(calls) && pidProcess == old(pidProcess) && child.emitted == old(child.emitted)
      ensures ev.Some? ==> Reacted(ev.value, old(calls), old(Written()), old(startSeen))
      ensures ev.None? && daemonStrategy ==> ipc.written == old(Written())
      ensures child.spawns == old(child.spawns) && child.pid == old(child.pid) && child.alive == old(child.alive)
      ensures monitorCreated == old(monitorCreated) && emits == old(emits) && daemonDead == old(daemonDead)
    {
      ev := EmitNext(child);
      if ev.Some? {
        Deliver(ev.value);
      }
    }

    /** The operating system reports that the child's channel `ch` closed;
        when the close callback of a closed `Process` fires, the lifecycle
        emit it carries happens and the pump's listeners react to it. */
    method ChildChannelClosed(ch: Proc.Channel) returns (ev: Option<Proc.Event>)
      requires Valid()
      modifies this, child, child.tracker, ipc
      ensures Valid()
      ensures ev.Some? <==> ch in old(child.listening) && old(child.listening) == {ch} &&
                            old(child.closeCallback).Some? && old(child.closeCallback).value.Lifecycle?
      ensures ev.Some? ==> ev.value == old(child.closeCallback).value.event &&
                           Reacted(ev.value, old(calls), old(Written()), old(startSeen))
      ensures ev.None? ==> calls == old(calls) && pidProcess == old(pidProcess) && child.emitted == old(child.emitted)
      ensures ev.None? && daemonStrategy ==> ipc.written == old(Written())
      ensures child.spawns == old(child.spawns) && child.pid == old(child.pid) && child.alive == old(child.alive)
      ensures monitorCreated == old(monitorCreated) && emits == old(emits) && daemonDead == old(daemonDead)
    {
      ev := CloseChannel(child, ch);
      if ev.Some? {
        Deliver(ev.value);
      }
    }

    /** What the pump has written to the daemon. */
    ghost function Written(): seq<string>
      reads this, ipc
    {
      if ipc == null then [] else ipc.written
    }

    /** The pump's listeners ran on the lifecycle emit `ev` (a start or a
        restart): under the daemon strategy the child's pid went to the
        daemon, `pid.process` holds the child's pid, and the monitor saw the
        `process` event, for a start with `emits.process` as its arguments. */
    ghost predicate Reacted(ev: Proc.Event, calls0: seq<Call>, written0: seq<string>, startSeen0: bool)
      reads this, child, ipc
    {
      && (daemonStrategy ==> ipc != null && ipc.written == written0 + [ipc.serialize(PidMessage(child.pid)) + [Streams.NL]])
      && (ev == Proc.Start ==> !startSeen0 && calls == calls0 + [Call("process", Spread(Lookup(emits, "process")))])
      && (ev == Proc.Restart ==> calls == calls0 + [Call("process", [Str("restart")])])
      && pidProcess == child.pid
      && child.emitted != [] && child.emitted[|child.emitted| - 1] == ev
    }

    /** The child exits; `childSuicide` is what the exit handler reads as the
        `stop` argument. The stop listeners run in the order they were
        registered. Under the daemon strategy: the respawn listener
        (`spawn(true)`, with the new child's pid `newPid`, unless the argument
        is truthy), the monitor's, and, once the daemon has died, the one that
        spawns a daemon with `restart` (pid `successorPid`) and closes it so
        that its close callback exits the pump. Otherwise the monitor's
        listener comes before the respawn listener. */
    method ChildExit(childSuicide: bool, newPid: Option<int>, successorPid: Option<int>)
      requires Valid() && child.alive
      modifies this, child
      ensures Valid()
      ensures child.emitted == old(child.emitted) + [Proc.Stop(childSuicide)]
      ensures childSuicide ==> child.spawns == old(child.spawns) && !child.alive
      ensures !childSuicide ==> child.spawns == old(child.spawns) + 1 && child.alive && child.pid == newPid &&
                                Due(child) != [] && Due(child)[|Due(child)| - 1] == Proc.Restart
      ensures pidProcess.None? && calls == old(calls) + [Call("process", [Str("stop")])]
      ensures daemonDead ==>
                fresh(successor) && successors == old(successors) + 1 &&
                successor.settings == Core.DaemonSettings(lib, options, Some(false), Some(["restart"])) &&
                successor.args == [Core.Executable(lib, "daemon.js"), "restart"] &&
                successor.spawns == 1 && successor.alive && successor.pid == successorPid &&
                successor.closed && successor.listening == Proc.AllChannels
      ensures !daemonDead ==> successor == old(successor) && successors == old(successors)
      ensures daemonDead == old(daemonDead) && exited == old(exited) && startSeen == old(startSeen)
      ensures monitorCreated == old(monitorCreated) && emits == old(emits) && daemonWatcher == old(daemonWatcher)
    {
      ExitChild(child, childSuicide);
      if daemonStrategy {
        DaemonStopListeners(childSuicide, newPid, successorPid);
      } else {
        LocalStopListeners(childSuicide, newPid);
      }
    }

    /** The stop listeners under the daemon strategy, in registration order. */
    method DaemonStopListeners(childSuicide: bool, newPid: Option<int>, successorPid: Option<int>)
      requires Stable() && daemonStrategy && StopEmitted(childSuicide)
      modifies this, child
      ensures Valid()
      ensures child.emitted == old(child.emitted)
      ensures childSuicide ==> child.spawns == old(child.spawns) && !child.alive
      ensures !childSuicide ==> child.spawns == old(child.spawns) + 1 && child.alive && child.pid == newPid &&
                                Due(child) != [] && Due(child)[|Due(child)| - 1] == Proc.Restart
      ensures pidProcess.None? && calls == old(calls) + [Call("process", [Str("stop")])]
      ensures daemonDead ==>
                fresh(successor) && successors == old(successors) + 1 &&
                successor.settings == Core.DaemonSettings(lib, options, Some(false), Some(["restart"])) &&
                successor.args == [Core.Executable(lib, "daemon.js"), "restart"] &&
                successor.spawns == 1 && successor.alive && successor.pid == successorPid &&
                successor.closed && successor.listening == Proc.AllChannels
      ensures !daemonDead ==> successor == old(successor) && successors == old(successors)
      ensures daemonDead == old(daemonDead) && exited == old(exited) && startSeen == old(startSeen)
      ensures monitorCreated == old(monitorCreated) && emits == old(emits) && daemonWatcher == old(daemonWatcher)
    {
      if !childSuicide {
        Respawn(child, newPid);
      }
      MonitorStop();
      if daemonDead {
        ReplaceDaemon(successorPid);
      }
    }

    /** The stop listeners without a daemon, in registration order. */
    method LocalStopListeners(childSuicide: bool, newPid: Option<int>)
      requires Stable() && !daemonStrategy && StopEmitted(childSuicide)
      modifies this, child
      ensures Valid()
      ensures child.emitted == old(child.emitted)
      ensures childSuicide ==> child.spawns == old(child.spawns) && !child.alive
      ensures !childSuicide ==> child.spawns == old(child.spawns) + 1 && child.alive && child.pid == newPid &&
                                Due(child) != [] && Due(child)[|Due(child)| - 1] == Proc.Restart
      ensures pidProcess.None? && calls == old(calls) + [Call("process", [Str("stop")])]
      ensures successor == old(successor) && successors == old(successors)
      ensures daemonDead == old(daemonDead) && exited == old(exited) && startSeen == old(startSeen)
      ensures monitorCreated == old(monitorCreated) && emits == old(emits) && daemonWatcher == old(daemonWatcher)
    {
      MonitorStop();
      if !childSuicide {
        Respawn(child, newPid);
      }
    }

    /** The child has just emitted `stop(childSuicide)` and is not running. */
    ghost predicate StopEmitted(childSuicide: bool)
      reads this, child
    {
      && child.emitted != [] && child.emitted[|child.emitted| - 1] == Proc.Stop(childSuicide)
      && !child.alive && child.spawns > 0
    }

    /** The listener registered when the daemon died: a daemon started with
        `restart` takes over, and its close callback exits the pump. */
    method ReplaceDaemon(successorPid: Option<int>)
      requires Stable() && daemonDead
      modifies this
      ensures Stable()
      ensures fresh(successor) && successors == old(successors) + 1
      ensures successor.settings == Core.DaemonSettings(lib, options, Some(false), Some(["restart"]))
      ensures successor.args == [Core.Executable(lib, "daemon.js"), "restart"]
      ensures successor.spawns == 1 && successor.alive && successor.pid == successorPid
      ensures successor.closed && successor.listening == Proc.AllChannels
      ensures monitorCreated == old(monitorCreated) && monitorReady == old(monitorReady) && emits == old(emits)
      ensures pidProcess == old(pidProcess) && calls == old(calls) && startSeen == old(startSeen)
      ensures daemonWatcher == old(daemonWatcher) && daemonDead == old(daemonDead) && exited == old(exited)
    {
      var daemon := StartSuccessor(lib, options, nodePath, processEnv, encode, successorPid);
      successor := daemon;
      successors := successors + 1;
    }

    /** The monitor's stop listener. */
    method MonitorStop()
      modifies this
      ensures pidProcess.None? && calls == old(calls) + [Call("process", [Str("stop")])]
      ensures monitorCreated == old(monitorCreated) && monitorReady == old(monitorReady) && emits == old(emits)
      ensures pidMonitor == old(pidMonitor) && pidDaemon == old(pidDaemon) && message == old(message)
      ensures startSeen == old(startSeen) && daemonWatcher == old(daemonWatcher) && daemonDead == old(daemonDead)
      ensures successor == old(successor) && successors == old(successors) && exited == old(exited)
    {
      pidProcess := None;
      calls := calls + [Call("process", [Str("stop")])];
    }

    /** The next tick, for a watch on a daemon already dead when it began:
        the callback runs, kills the child and registers the listener that
        replaces the daemon. */
    method DaemonWatcherTick() returns (fired: bool)
      requires Valid() && daemonWatcher != null
      modifies this, daemonWatcher, child
      ensures Valid() && daemonWatcher == old(daemonWatcher)
      ensures fired == old(daemonWatcher.deferred)
      ensures old(daemonDead) ==> !fired
      ensures fired ==> daemonDead && Mourned(old(child.alive), old(child.suicide), old(child.signals))
      ensures !fired ==> daemonDead == old(daemonDead) && child.signals == old(child.signals) &&
                         child.suicide == old(child.suicide)
      ensures child.emitted == old(child.emitted) && child.alive == old(child.alive) && child.spawns == old(child.spawns)
      ensures calls == old(calls) && pidProcess == old(pidProcess) && successor == old(successor)
    {
      Helpers.WatcherFiresAtMostOnce(daemonWatcher);
      fired := daemonWatcher.deferred;
      daemonWatcher.Tick();
      if fired {
        KillChild(child);
        daemonDead := true;
      }
    }

    /** One interval poll of the daemon's pid, with the operating system's
        answer `daemonPresent`: the first poll that finds it dead runs the
        callback, which kills the child and registers the listener that
        replaces the daemon. */
    method DaemonWatcherPoll(daemonPresent: bool) returns (fired: bool)
      requires Valid() && daemonWatcher != null
      modifies this, daemonWatcher, child
      ensures Valid()
      ensures daemonWatcher == old(daemonWatcher)
      ensures fired == (old(daemonWatcher.polling) && !Helpers.Alive(daemonWatcher.pid, daemonPresent))
      ensures old(daemonDead) ==> !fired
      ensures fired ==> daemonDead && Mourned(old(child.alive), old(child.suicide), old(child.signals))
      ensures !fired ==> daemonDead == old(daemonDead) && child.signals == old(child.signals) &&
                         child.suicide == old(child.suicide)
      ensures child.emitted == old(child.emitted) && child.alive == old(child.alive) && child.spawns == old(child.spawns)
      ensures calls == old(calls) && pidProcess == old(pidProcess) && successor == old(successor)
    {
      Helpers.WatcherFiresAtMostOnce(daemonWatcher);
      fired := daemonWatcher.polling && !Helpers.Alive(daemonWatcher.pid, daemonPresent);
      daemonWatcher.Poll(daemonPresent);
      if fired {
        KillChild(child);
        daemonDead := true;
      }
    }

    /** `child.kill()` ran: a live child got the default signal and is marked
        as killed on purpose; a dead one got nothing. */
    ghost predicate Mourned(alive0: bool, suicide0: bool, signals0: seq<Option<string>>)
      reads child
    {
      if alive0 then child.suicide && child.signals == signals0 + [None]
      else child.suicide == suicide0 && child.signals == signals0
    }

    /** The operating system reports that the successor daemon's channel `ch`
        closed; when it is the last, the close callback exits the pump. */
    method SuccessorChannelClosed(ch: Proc.Channel)
      requires Valid() && successor != null
      modifies this, successor, successor.tracker
      ensures Valid()
      ensures exited <==> old(exited) || (ch in old(successor.listening) && old(successor.listening) == {ch})
      ensures successor == old(successor)
      ensures successor.clientCalls == old(successor.clientCalls) +
                                       (if ch in old(successor.listening) && old(successor.listening) == {ch} then 1 else 0)
      ensures calls == old(calls) && pidProcess == old(pidProcess) && daemonDead == old(daemonDead)
    {
      var fired, ev := successor.ChannelClosed(ch);
      if fired {
        exited := true;
      }
    }

    /** The listeners on `start` and `restart`, in the order they were
        registered: `informDaemon` first, then the monitor's. The monitor's
        start listener is a `once`. */
    method Deliver(ev: Proc.Event)
      requires !ev.Stop? && (daemonStrategy <==> ipc != null)
      modifies this, ipc
      ensures daemonStrategy ==> ipc.written == old(Written()) + [ipc.serialize(PidMessage(child.pid)) + [Streams.NL]]
      ensures ev == Proc.Start && !old(startSeen) ==>
                startSeen && pidProcess == child.pid && calls == old(calls) + [Call("process", Spread(Lookup(emits, "process")))]
      ensures ev == Proc.Start && old(startSeen) ==> startSeen && pidProcess == old(pidProcess) && calls == old(calls)
      ensures ev == Proc.Restart ==>
                startSeen == old(startSeen) && pidProcess == child.pid && calls == old(calls) + [Call("process", [Str("restart")])]
      ensures monitorCreated == old(monitorCreated) && monitorReady == old(monitorReady) && emits == old(emits)
      ensures pidMonitor == old(pidMonitor) && pidDaemon == old(pidDaemon) && message == old(message)
      ensures daemonWatcher == old(daemonWatcher) && daemonDead == old(daemonDead)
      ensures successor == old(successor) && successors == old(successors) && exited == old(exited)
    {
      if daemonStrategy {
        ipc.Send(PidMessage(child.pid));
      }
      if ev == Proc.Start {
        if !startSeen {
          startSeen := true;
          pidProcess := child.pid;
          calls := calls + [Call("process", Spread(Lookup(emits, "process")))];
        }
      } else {
        pidProcess := child.pid;
        calls := calls + [Call("process", [Str("restart")])];
      }
    }
  }

  /** Emitting the lifecycle event `ev` that a `Process` owed: what it still
      owes afterwards is the rest, so the starts are the same, and a start
      emitted this way is the first one. */
  lemma EmitDue(emitted: seq<Proc.Event>, emitted0: seq<Proc.Event>, due0: seq<Proc.Event>, ev: Proc.Event,
                due: seq<Proc.Event>)
    requires emitted == emitted0 + [ev]
    requires due0 == [ev] + due || due0 == due + [ev]
    requires Proc.Starts(emitted0 + due0) <= 1
    requires forall e :: e in due0 ==> !e.Stop?
    ensures Proc.Starts(emitted + due) == Proc.Starts(emitted0 + due0)
    ensures !ev.Stop? && forall e :: e in due ==> !e.Stop?
    ensures ev == Proc.Start ==> Proc.Start !in emitted0
    ensures Proc.Start in emitted <==> Proc.Start in emitted0 || ev == Proc.Start
  {
    Proc.StartsAppend(emitted0, due0);
    Proc.StartsAppend(emitted0 + [ev], due);
    Proc.StartsAppend(emitted0, [ev]);
    if due0 == [ev] + due {
      Proc.StartsAppend([ev], due);
    } else {
      Proc.StartsAppend(due, [ev]);
    }
    Proc.StartsCountsStarts(emitted0);
    Proc.StartsCountsStarts([ev]);
  }

  /** What the pump relies on about its target's `Process`: nothing happens
      before the first spawn, only a closed process defers its emits to its
      close callback, and at most one start is ever emitted or owed, and no
      stop is owed. */
  ghost predicate Lifecycle(child: Proc.Process)
    reads child, child.tracker
  {
    && child.Valid()
    && (child.spawns == 0 ==> child.emitted == [] && Due(child) == [])
    && (child.closed ==> child.pending == [])
    && (!child.closed ==> child.listening == {})
    && Proc.Starts(child.emitted + Due(child)) <= 1
    && (forall e :: e in Due(child) ==> !e.Stop?)
  }

  /** `child.Tick()`: the emit that happens is a start or a restart, and a
      start is the first. */
  method EmitNext(child: Proc.Process) returns (ev: Option<Proc.Event>)
    requires Lifecycle(child)
    modifies child
    ensures Lifecycle(child)
    ensures ev == if old(child.pending) == [] then None else Some(old(child.pending)[0])
    ensures ev.None? ==> child.emitted == old(child.emitted)
    ensures ev.Some? ==> child.emitted == old(child.emitted) + [ev.value] && !ev.value.Stop? &&
                         (ev.value == Proc.Start ==> Proc.Start !in old(child.emitted))
    ensures child.spawns == old(child.spawns) && child.pid == old(child.pid) && child.alive == old(child.alive)
    ensures child.tracker == old(child.tracker)
  {
    ghost var due := Due(child);
    ev := child.Tick();
    if ev.Some? {
      EmitDue(child.emitted, old(child.emitted), due, ev.value, Due(child));
    }
  }

  /** `child.ChannelClosed(ch)`: when the close callback fires a lifecycle
      emit, it is a start or a restart, and a start is the first. */
  method CloseChannel(child: Proc.Process, ch: Proc.Channel) returns (ev: Option<Proc.Event>)
    requires Lifecycle(child)
    modifies child, child.tracker
    ensures Lifecycle(child)
    ensures ev.Some? <==> ch in old(child.listening) && old(child.listening) == {ch} &&
                          old(child.closeCallback).Some? && old(child.closeCallback).value.Lifecycle?
    ensures ev.None? ==> child.emitted == old(child.emitted)
    ensures ev.Some? ==> ev.value == old(child.closeCallback).value.event &&
                         child.emitted == old(child.emitted) + [ev.value] && !ev.value.Stop? &&
                         (ev.value == Proc.Start ==> Proc.Start !in old(child.emitted))
    ensures child.spawns == old(child.spawns) && child.pid == old(child.pid) && child.alive == old(child.alive)
    ensures child.tracker == old(child.tracker)
  {
    ghost var due := Due(child);
    var fired;
    fired, ev := child.ChannelClosed(ch);
    ChannelCloseDue(child.pending, old(child.listening), child.closeCallback, ch, ev);
    if ev.Some? {
      EmitDue(child.emitted, old(child.emitted), due, ev.value, Due(child));
    }
  }

  /** `child.spawn()` followed by `child.pump(monitor)` on a target that has
      never run. */
  method SpawnAndPump(child: Proc.Process, childPid: Option<int>)
    requires Lifecycle(child) && child.spawns == 0
    modifies child
    ensures Lifecycle(child) && child.spawns == 1 && child.alive && child.pid == childPid
    ensures child.emitted == [] && Due(child) == [Proc.Start]
    ensures child.pipes == old(child.pipes) + Proc.ChildPipes(1) + Proc.PumpPipes(Proc.Sinks("monitor", Proc.AllChannels))
    ensures child.closed == old(child.closed) && child.suicide == old(child.suicide)
    ensures child.tracker == old(child.tracker) || fresh(child.tracker)
  {
    child.Spawn(false, childPid);
    child.Pump(Proc.Sinks("monitor", Proc.AllChannels));
  }

  /** `child.kill()` on the target. */
  method KillChild(child: Proc.Process)
    requires Lifecycle(child)
    modifies child
    ensures Lifecycle(child)
    ensures old(child.alive) ==> child.suicide && child.signals == old(child.signals) + [None]
    ensures !old(child.alive) ==> child.suicide == old(child.suicide) && child.signals == old(child.signals)
    ensures child.emitted == old(child.emitted) && child.alive == old(child.alive) && child.spawns == old(child.spawns)
    ensures child.pid == old(child.pid) && child.tracker == old(child.tracker)
  {
    child.Kill(None);
  }

  /** The target's exit handler: the stop it emits is not owed, so what is
      owed stays as it was. */
  method ExitChild(child: Proc.Process, childSuicide: bool)
    requires Lifecycle(child) && child.alive
    modifies child
    ensures Lifecycle(child) && !child.alive && child.spawns == old(child.spawns) && child.spawns > 0
    ensures child.emitted == old(child.emitted) + [Proc.Stop(childSuicide)] && Due(child) == old(Due(child))
    ensures child.pid == old(child.pid) && child.tracker == old(child.tracker)
  {
    ghost var due := Due(child);
    var stop := child.OnExit(childSuicide);
    Proc.StartsAddOther(old(child.emitted), stop, due);
  }

  /** `child.spawn(true)` on a target that has run before: it owes a restart,
      which displaces a close callback's emit that has not happened yet. */
  method Respawn(child: Proc.Process, newPid: Option<int>)
    requires Lifecycle(child) && child.spawns > 0
    modifies child
    ensures Lifecycle(child) && child.spawns == old(child.spawns) + 1 && child.alive && child.pid == newPid
    ensures child.emitted == old(child.emitted)
    ensures !child.closed ==> Due(child) == old(Due(child)) + [Proc.Restart]
    ensures child.closed ==> Due(child) == [Proc.Restart]
    ensures child.tracker == old(child.tracker) || fresh(child.tracker)
  {
    ghost var due := Due(child);
    child.Spawn(true, newPid);
    Proc.StartsAppend(child.emitted, Due(child));
    Proc.StartsAppend(child.emitted, due);
    if child.closed {
      assert Due(child) == [Proc.Restart];
      assert Proc.Starts([Proc.Restart]) == 0 by {
        assert [Proc.Restart][1..] == [];
      }
    } else {
      assert Due(child) == due + [Proc.Restart];
      Proc.StartsAppend(due, [Proc.Restart]);
      assert Proc.Starts([Proc.Restart]) == 0 by {
        assert [Proc.Restart][1..] == [];
      }
    }
  }

  /** `core.spawnDaemon(options, false, ['restart'])`, then `daemon.spawn()`
      (its pid is `pid`) and `daemon.close(exit)`. */
  method StartSuccessor(lib: string, options: Proc.Settings, nodePath: string, processEnv: map<string, string>,
                        encode: Proc.Settings -> string, pid: Option<int>) returns (daemon: Proc.Process)
    ensures fresh(daemon) && daemon.Valid() && (daemon.tracker == null || fresh(daemon.tracker))
    ensures daemon.settings == Core.DaemonSettings(lib, options, Some(false), Some(["restart"]))
    ensures daemon.args == [Core.Executable(lib, "daemon.js"), "restart"]
    ensures daemon.spawns == 1 && daemon.alive && daemon.pid == pid && daemon.closed
    ensures daemon.listening == Proc.AllChannels && daemon.closeCallback == Some(Proc.Client)
    ensures daemon.pending == [Proc.Start] && daemon.emitted == [] && daemon.clientCalls == 0
  {
    daemon := Core.SpawnDaemon(lib, options, Some(false), ["restart"], nodePath, processEnv, encode);
    daemon.Spawn(false, pid);
    var outcome := daemon.Close(Some(Proc.Client));
  }
}
