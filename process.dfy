/** The process lifecycle object of lib/core/process.js: it derives the command
    line and environment from a settings object, (re)spawns the child, relays
    its standard streams through three relay streams that outlive every child,
    and reports `start`, `restart` and `stop`.

    The operating system is outside the model: the child's pid, its exit, the
    value the exit handler reads as the `stop` argument and the moment each
    destroyed channel reports `close` are parameters of the methods below. */
module Proc {
  import opened Wrappers
  import Streams
  import Helpers

  /** The settings object a `Process` is built from. An absent JavaScript
      property is `None`. `options` is a nested settings object, handed to
      the child as JSON in its environment. */
  datatype Settings = Settings(
    file: string,
    args: Option<seq<string>>,
    exec: Option<string>,
    env: Option<map<string, string>>,
    options: Option<Settings>,
    close: bool,
    unattach: bool,
    detached: Option<bool>,
    ipc: Option<bool>,
    strategy: Option<string>,
    monitor: Option<string>)

  /** A settings object holding only a file: every other property absent. */
  function FileOnly(file: string): Settings {
    Settings(file, None, None, None, None, false, false, None, None, None, None)
  }

  /** The events a `Process` emits. `Stop` carries whatever the exit handler
      read as its argument, as a JavaScript truthiness. */
  datatype Event = Start | Restart | Stop(arg: bool)

  datatype Channel = Stdin | Stdout | Stderr

  const AllChannels: set<Channel> := {Stdin, Stdout, Stderr}

  /** The function handed to `close`: the deferred lifecycle emit of `spawn`,
      or one supplied by the caller (e.g. `process.exit`). */
  datatype Callback = Lifecycle(event: Event) | Client

  /** One end of a pipe: one of the process's own relay streams, a channel of
      the n-th spawned child, or a channel of some other object such as a
      monitor or the current process. */
  datatype Endpoint = Relay(channel: Channel) | Child(spawn: nat, channel: Channel) | Sink(owner: string, channel: Channel)

  datatype Pipe = Pipe(from: Endpoint, to: Endpoint)

  /** The object handed to `pump`, with the channels it has. */
  datatype Sinks = Sinks(owner: string, has: set<Channel>)

  lemma AllChannelsSize()
    ensures |AllChannels| == 3
  {
    assert AllChannels == {Stdin} + {Stdout} + {Stderr};
    assert {Stdin} !! {Stdout} && ({Stdin} + {Stdout}) !! {Stderr};
  }

  /** The tracker of a close call awaits exactly the channels in `awaited`,
      each once. */
  ghost predicate Awaits(list: seq<Channel>, awaited: set<Channel>) {
    |list| == |awaited| && forall ch :: ch in awaited ==> ch in list
  }

  /** A first `close` awaits all three channels. */
  lemma AwaitsAll()
    ensures Awaits([Stdin, Stdout, Stderr], AllChannels)
  {
    AllChannelsSize();
  }

  /** A channel reporting `close` is removed from what the tracker awaits. */
  lemma AwaitsRemove(list: seq<Channel>, awaited: set<Channel>, ch: Channel)
    requires Awaits(list, awaited) && ch in awaited
    ensures ch in list
    ensures Awaits(Helpers.RemoveFirst(list, ch), awaited - {ch})
    ensures Helpers.RemoveFirst(list, ch) == [] <==> awaited == {ch}
  {
    var r := Helpers.RemoveFirst(list, ch);
    forall other | other in awaited - {ch}
      ensures other in r
    {
      assert other in multiset(list);
    }
  }

  /** The number of `start` events in `events`. */
  function Starts(events: seq<Event>): nat {
    if events == [] then 0 else (if events[0] == Start then 1 else 0) + Starts(events[1..])
  }

  lemma {:induction false} StartsAppend(a: seq<Event>, b: seq<Event>)
    ensures Starts(a + b) == Starts(a) + Starts(b)
    decreases |a|
  {
    if a == [] {
      assert a + b == b;
    } else {
      assert (a + b)[1..] == a[1..] + b;
      StartsAppend(a[1..], b);
    }
  }

  /** `Starts` counts exactly the `start` events: it is zero iff there is none. */
  lemma {:induction false} StartsCountsStarts(events: seq<Event>)
    ensures Start in events <==> Starts(events) > 0
    decreases |events|
  {
    if events != [] {
      StartsCountsStarts(events[1..]);
      assert events == [events[0]] + events[1..];
    }
  }

  /** Moving the head of the pending queue to the emitted events, or adding a
      non-start event, keeps the number of starts. */
  lemma StartsTick(emitted: seq<Event>, pending: seq<Event>)
    requires pending != []
    ensures Starts((emitted + [pending[0]]) + pending[1..]) == Starts(emitted + pending)
  {
    assert (emitted + [pending[0]]) + pending[1..] == emitted + pending;
  }

  lemma StartsAddOther(events: seq<Event>, e: Event, other: seq<Event>)
    requires e != Start
    ensures Starts(events + [e] + other) == Starts(events + other)
  {
    StartsAppend(events + [e], other);
    StartsAppend(events, [e]);
    StartsAppend(events, other);
    assert Starts([e]) == 0 by {
      assert [e][1..] == [];
    }
  }

  /** `[settings.file].concat(settings.args || [])` */
  function ArgsOf(settings: Settings): (argv: seq<string>)
    ensures |argv| >= 1 && argv[0] == settings.file
    ensures settings.args.Some? ==> argv[1..] == settings.args.value
    ensures settings.args.None? ==> argv == [settings.file]
  {
    [settings.file] + settings.args.GetOr([])
  }

  /** `settings.exec || process.execPath`: the empty string is falsy too. */
  function ExecOf(settings: Settings, nodePath: string): (exec: string)
    ensures settings.exec.Some? && settings.exec.value != "" ==> exec == settings.exec.value
    ensures settings.exec.None? || settings.exec.value == "" ==> exec == nodePath
  {
    if settings.exec.Some? && settings.exec.value != "" then settings.exec.value else nodePath
  }

  /** The child's environment: a copy of `settings.env` (or of the running
      process's environment), with the JSON of `settings.options` under
      `spawnOptions` when there are options. */
  function EnvOf(settings: Settings, processEnv: map<string, string>, encode: Settings -> string): (env: map<string, string>)
    ensures settings.options.Some? ==> "spawnOptions" in env && env["spawnOptions"] == encode(settings.options.value)
    ensures forall key :: key != "spawnOptions" ==>
              (key in env <==> key in settings.env.GetOr(processEnv)) &&
              (key in env ==> env[key] == settings.env.GetOr(processEnv)[key])
    ensures settings.options.None? ==> env == settings.env.GetOr(processEnv)
  {
    var base := settings.env.GetOr(processEnv);
    if settings.options.Some? then base["spawnOptions" := encode(settings.options.value)] else base
  }

  class Process {
    const settings: Settings
    const args: seq<string>
    const exec: string
    const env: map<string, string>
    const stderr: Streams.RelayStream
    const stdout: Streams.RelayStream
    const stdin: Streams.RelayStream

    var closed: bool
    var suicide: bool
    var pid: Option<int>
    var alive: bool

    /** How many children have been spawned; the current child is the last. */
    var spawns: nat
    /** The current child's channels destroyed by `close`. */
    var destroyed: set<Channel>
    /** The destroyed channels whose `close` report the tracker still awaits. */
    var listening: set<Channel>
    var tracker: Helpers.ProgressTracker?<Channel>
    var closeCallback: Option<Callback>
    /** Lifecycle emits queued for the next tick. */
    var pending: seq<Event>
    /** Every event emitted, in order. */
    var emitted: seq<Event>
    /** Runs of caller-supplied close callbacks. */
    var clientCalls: nat
    /** Signals sent to the child; `None` is the default signal. */
    var signals: seq<Option<string>>
    var pipes: seq<Pipe>

    ghost predicate Valid()
      reads this, tracker
    {
      && stdin != stdout && stdout != stderr && stdin != stderr
      && (destroyed == {} || destroyed == AllChannels)
      && listening <= destroyed
      && (spawns == 0 ==> destroyed == {} && !alive)
      && (listening != {} ==>
            tracker != null && Awaits(tracker.list, listening) && tracker.calls == 0 &&
            tracker.hasCallback == closeCallback.Some?)
    }

    /** Derives the command line and environment. `nodePath` is the running
        node executable and `processEnv` the environment of the running
        process; `encode` is the JSON serializer. */
    constructor (settings: Settings, nodePath: string, processEnv: map<string, string>, encode: Settings -> string)
      ensures Valid()
      ensures this.settings == settings
      ensures args == ArgsOf(settings) && exec == ExecOf(settings, nodePath)
      ensures env == EnvOf(settings, processEnv, encode)
      ensures closed == settings.close && !suicide && pid.None? && !alive
      ensures fresh(stderr) && fresh(stdout) && fresh(stdin)
      ensures stderr.store == [] && stdout.store == [] && stdin.store == []
      ensures !stderr.paused && !stdout.paused && !stdin.paused
      ensures stderr.delivered == [] && stdout.delivered == [] && stdin.delivered == []
      ensures spawns == 0 && destroyed == {} && listening == {} && tracker == null
      ensures pending == [] && emitted == [] && clientCalls == 0 && signals == [] && pipes == []
    {
      this.settings := settings;
      args := ArgsOf(settings);
      exec := ExecOf(settings, nodePath);
      var copy := new Helpers.JsObject<string>(map[]);
      var merged := Helpers.MergeObject(copy, settings.env.GetOr(processEnv));
      var fields := merged.fields;
      assert fields == settings.env.GetOr(processEnv) by {
        assert map[] + settings.env.GetOr(processEnv) == settings.env.GetOr(processEnv);
      }
      if settings.options.Some? {
        fields := fields["spawnOptions" := encode(settings.options.value)];
      }
      env := fields;
      closed := settings.close;
      suicide := false;
      pid := None;
      alive := false;
      stderr := new Streams.RelayStream(Streams.RelayOptions(None));
      stdout := new Streams.RelayStream(Streams.RelayOptions(None));
      stdin := new Streams.RelayStream(Streams.RelayOptions(None));
      spawns := 0;
      destroyed := {};
      listening := {};
      tracker := null;
      closeCallback := None;
      pending := [];
      emitted := [];
      clientCalls := 0;
      signals := [];
      pipes := [];
    }

    /** Starts a new child, whose pid the operating system reports as
        `childPid`, relays its streams through the same three relay streams
        and arranges for `restart` (when `respawn`) or `start` to be emitted:
        after the channels close when the process is closed, otherwise on the
        next tick. */
    method Spawn(respawn: bool, childPid: Option<int>)
      requires Valid()
      modifies this
      ensures Valid()
      ensures spawns == old(spawns) + 1 && pid == childPid && alive
      ensures suicide == old(suicide) && closed == old(closed)
      ensures pipes == old(pipes) + ChildPipes(spawns)
      ensures !closed ==> pending == old(pending) + [if respawn then Restart else Start] &&
                          destroyed == {} && listening == {} && closeCallback == old(closeCallback)
      ensures closed ==> pending == old(pending) && destroyed == AllChannels && listening == AllChannels &&
                         closeCallback == Some(Lifecycle(if respawn then Restart else Start))
      ensures emitted == old(emitted) && clientCalls == old(clientCalls) && signals == old(signals)
      ensures tracker == old(tracker) || fresh(tracker)
    {
      Launch(childPid);
      var event := if respawn then Restart else Start;
      if closed {
        var outcome := Close(Some(Lifecycle(event)));
      } else {
        pending := pending + [event];
      }
    }

    /** The part of `spawn` that starts the child and wires its streams. */
    method Launch(childPid: Option<int>)
      requires Valid()
      modifies this
      ensures Valid()
      ensures spawns == old(spawns) + 1 && pid == childPid && alive && destroyed == {} && listening == {}
      ensures pipes == old(pipes) + ChildPipes(spawns)
      ensures suicide == old(suicide) && closed == old(closed) && tracker == old(tracker)
      ensures closeCallback == old(closeCallback) && pending == old(pending) && emitted == old(emitted)
      ensures clientCalls == old(clientCalls) && signals == old(signals)
    {
      spawns := spawns + 1;
      destroyed := {};
      listening := {};
      pid := childPid;
      alive := true;
      pipes := pipes + ChildPipes(spawns);
    }

    /** The next tick: the oldest queued lifecycle emit, if any, happens. */
    method Tick() returns (ev: Option<Event>)
      requires Valid()
      modifies this
      ensures Valid()
      ensures old(pending) == [] ==> ev.None? && pending == [] && emitted == old(emitted)
      ensures old(pending) != [] ==> ev == Some(old(pending)[0]) && pending == old(pending)[1..] &&
                                     emitted == old(emitted) + [old(pending)[0]]
      ensures closed == old(closed) && suicide == old(suicide) && alive == old(alive) && pid == old(pid)
      ensures spawns == old(spawns) && destroyed == old(destroyed) && listening == old(listening)
      ensures tracker == old(tracker) && closeCallback == old(closeCallback)
      ensures clientCalls == old(clientCalls) && signals == old(signals) && pipes == old(pipes)
    {
      if pending == [] {
        return None;
      }
      ev := Some(pending[0]);
      emitted := emitted + [pending[0]];
      pending := pending[1..];
    }

    /** The child's exit handler. `childSuicide` is what the handler reads as
        `this.suicide`, where `this` is the operating system's child object and
        not the `Process`: it is independent of the `suicide` field. */
    method OnExit(childSuicide: bool) returns (ev: Event)
      requires Valid()
      modifies this
      ensures Valid()
      ensures ev == Stop(childSuicide) && emitted == old(emitted) + [ev]
      ensures !suicide && !alive
      ensures closed == old(closed) && pid == old(pid) && spawns == old(spawns)
      ensures destroyed == old(destroyed) && listening == old(listening) && tracker == old(tracker)
      ensures closeCallback == old(closeCallback) && pending == old(pending)
      ensures clientCalls == old(clientCalls) && signals == old(signals) && pipes == old(pipes)
    {
      suicide := false;
      alive := false;
      ev := Stop(childSuicide);
      emitted := emitted + [ev];
    }

    /** Signals the child only while it is alive, marking the kill as wanted. */
    method Kill(signal: Option<string>)
      requires Valid()
      modifies this
      ensures Valid()
      ensures !old(alive) ==> suicide == old(suicide) && signals == old(signals)
      ensures old(alive) ==> suicide && signals == old(signals) + [signal]
      ensures alive == old(alive) && closed == old(closed) && pid == old(pid) && spawns == old(spawns)
      ensures destroyed == old(destroyed) && listening == old(listening) && tracker == old(tracker)
      ensures closeCallback == old(closeCallback) && pending == old(pending)
      ensures emitted == old(emitted) && clientCalls == old(clientCalls) && pipes == old(pipes)
    {
      if alive {
        suicide := true;
        signals := signals + [signal];
      }
    }

    /** Marks the process closed and destroys each channel of the current
        child that is not yet destroyed, awaiting their `close` reports with a
        fresh tracker around `callback`. Before the first spawn there is no
        child, and reading its channels throws a TypeError. */
    method Close(callback: Option<Callback>) returns (r: Outcome<string>)
      requires Valid()
      modifies this
      ensures Valid()
      ensures closed
      ensures old(spawns) == 0 <==> r.Fail?
      ensures r.Fail? ==> r.error == "TypeError" && destroyed == old(destroyed) && listening == old(listening) &&
                          tracker == old(tracker) && closeCallback == old(closeCallback)
      ensures r.Pass? && old(destroyed) == {} ==>
                destroyed == AllChannels && listening == AllChannels && closeCallback == callback &&
                tracker != null && fresh(tracker) && tracker.list == [Stdin, Stdout, Stderr]
      ensures r.Pass? && old(destroyed) != {} ==>
                destroyed == old(destroyed) && listening == old(listening) &&
                tracker == old(tracker) && closeCallback == old(closeCallback)
      ensures suicide == old(suicide) && alive == old(alive) && pid == old(pid) && spawns == old(spawns)
      ensures pending == old(pending) && emitted == old(emitted) && clientCalls == old(clientCalls)
      ensures signals == old(signals) && pipes == old(pipes)
    {
      closed := true;
      if spawns == 0 {
        return Fail("TypeError");
      }
      var progress, registered := RegisterChannels(destroyed, callback.Some?);
      if registered != {} {
        AwaitsAll();
        destroyed := AllChannels;
        listening := AllChannels;
        tracker := progress;
        closeCallback := callback;
      }
      return Pass;
    }

    /** The operating system reports that the current child's channel `ch`
        has closed. When it is the last channel a close tracker awaits, the
        tracker runs its callback: a lifecycle emit, or the caller's own. */
    method ChannelClosed(ch: Channel) returns (fired: bool, ev: Option<Event>)
      requires Valid()
      modifies this, tracker
      ensures Valid()
      ensures fired <==> ch in old(listening) && old(listening) == {ch} && old(closeCallback).Some?
      ensures listening == old(listening) - {ch}
      ensures ev.Some? <==> fired && old(closeCallback).value.Lifecycle?
      ensures ev.Some? ==> ev.value == old(closeCallback).value.event && emitted == old(emitted) + [ev.value]
      ensures ev.None? ==> emitted == old(emitted)
      ensures clientCalls == old(clientCalls) + (if fired && old(closeCallback).value.Client? then 1 else 0)
      ensures closed == old(closed) && suicide == old(suicide) && alive == old(alive) && pid == old(pid)
      ensures spawns == old(spawns) && destroyed == old(destroyed) && tracker == old(tracker)
      ensures closeCallback == old(closeCallback) && pending == old(pending)
      ensures signals == old(signals) && pipes == old(pipes)
    {
      if ch !in listening {
        return false, None;
      }
      fired := ReportClosed(tracker, listening, ch);
      listening := listening - {ch};
      ev := None;
      if fired {
        match closeCallback.value
        case Lifecycle(e) =>
          ev := Some(e);
          emitted := emitted + [e];
        case Client =>
          clientCalls := clientCalls + 1;
      }
    }

    /** Output of the current child on stdout or stderr reaches the relay
        stream of that channel, which is the same for every child. */
    method ChildOutput(ch: Channel, chunk: string) returns (flowing: bool)
      requires Valid() && ch != Stdin
      modifies if ch == Stdout then stdout else stderr
      ensures Valid()
      ensures var relay := if ch == Stdout then stdout else stderr;
              flowing == !old(relay.paused) && relay.paused == old(relay.paused) &&
              (old(relay.paused) ==> relay.store == old(relay.store) + [chunk] && relay.delivered == old(relay.delivered)) &&
              (!old(relay.paused) ==> relay.store == old(relay.store) && relay.delivered == old(relay.delivered) + [chunk])
    {
      if ch == Stdout {
        flowing := stdout.Write(chunk);
      } else {
        flowing := stderr.Write(chunk);
      }
    }

    /** Fans the relay streams out: one pipe per channel `sinks` has, stderr
        and stdout towards it and stdin from it. Earlier pipes are kept. */
    method Pump(sinks: Sinks)
      requires Valid()
      modifies this
      ensures Valid()
      ensures pipes == old(pipes) + PumpPipes(sinks)
      ensures closed == old(closed) && suicide == old(suicide) && alive == old(alive) && pid == old(pid)
      ensures spawns == old(spawns) && destroyed == old(destroyed) && listening == old(listening)
      ensures tracker == old(tracker) && closeCallback == old(closeCallback) && pending == old(pending)
      ensures emitted == old(emitted) && clientCalls == old(clientCalls) && signals == old(signals)
    {
      if Stderr in sinks.has {
        pipes := pipes + [Pipe(Relay(Stderr), Sink(sinks.owner, Stderr))];
      }
      if Stdout in sinks.has {
        pipes := pipes + [Pipe(Relay(Stdout), Sink(sinks.owner, Stdout))];
      }
      if Stdin in sinks.has {
        pipes := pipes + [Pipe(Sink(sinks.owner, Stdin), Relay(Stdin))];
      }
    }
  }

  /** The three checks of `close`: a fresh tracker awaits every channel not
      yet destroyed, added in the order stdin, stdout, stderr. */
  method RegisterChannels(destroyed: set<Channel>, hasCallback: bool)
      returns (progress: Helpers.ProgressTracker<Channel>, registered: set<Channel>)
    requires destroyed == {} || destroyed == AllChannels
    ensures fresh(progress) && progress.hasCallback == hasCallback && progress.calls == 0
    ensures registered == AllChannels - destroyed
    ensures destroyed == {} ==> progress.list == [Stdin, Stdout, Stderr]
  {
    progress := new Helpers.ProgressTracker<Channel>(hasCallback);
    registered := {};
    if Stdin !in destroyed {
      progress.Add(Helpers.Item(Stdin));
      registered := registered + {Stdin};
    }
    if Stdout !in destroyed {
      progress.Add(Helpers.Item(Stdout));
      registered := registered + {Stdout};
    }
    if Stderr !in destroyed {
      progress.Add(Helpers.Item(Stderr));
      registered := registered + {Stderr};
    }
  }

  /** The close listener of one channel: `progress.set(ch)`. The tracker runs
      its callback exactly when `ch` was the last channel it awaited. */
  method ReportClosed(progress: Helpers.ProgressTracker<Channel>, awaited: set<Channel>, ch: Channel)
      returns (fired: bool)
    requires Awaits(progress.list, awaited) && ch in awaited && progress.calls == 0
    modifies progress
    ensures Awaits(progress.list, awaited - {ch})
    ensures fired <==> awaited == {ch} && progress.hasCallback
    ensures progress.calls == if fired then 1 else 0
  {
    AwaitsRemove(progress.list, awaited, ch);
    progress.Set(ch);
    fired := progress.calls > 0;
  }

  /** The pipes `spawn` lays between the `spawn`-th child and the relay
      streams: its stdout and stderr into the relays of the same name, the
      stdin relay into its stdin. */
  function ChildPipes(spawn: nat): (r: seq<Pipe>)
    ensures |r| == 3
    ensures forall ch :: ch in AllChannels ==> (Pipe(Child(spawn, ch), Relay(ch)) in r <==> ch != Stdin)
  {
    [Pipe(Child(spawn, Stdout), Relay(Stdout)), Pipe(Child(spawn, Stderr), Relay(Stderr)), Pipe(Relay(Stdin), Child(spawn, Stdin))]
  }

  /** The pipes `pump` adds for `sinks`. */
  function PumpPipes(sinks: Sinks): (r: seq<Pipe>)
    ensures forall k :: 0 <= k < |r| ==> r[k].from.Relay? != r[k].to.Relay?
    ensures Pipe(Relay(Stdout), Sink(sinks.owner, Stdout)) in r <==> Stdout in sinks.has
    ensures Pipe(Relay(Stderr), Sink(sinks.owner, Stderr)) in r <==> Stderr in sinks.has
    ensures Pipe(Sink(sinks.owner, Stdin), Relay(Stdin)) in r <==> Stdin in sinks.has
  {
    (if Stderr in sinks.has then [Pipe(Relay(Stderr), Sink(sinks.owner, Stderr))] else []) +
    (if Stdout in sinks.has then [Pipe(Relay(Stdout), Sink(sinks.owner, Stdout))] else []) +
    (if Stdin in sinks.has then [Pipe(Sink(sinks.owner, Stdin), Relay(Stdin))] else [])
  }
}
