# immortal: a verified model of the supervision core

immortal keeps one target command running. The pieces modelled here:

- **Daemon strategy.** A *daemon* process starts a *pump* process, which runs the target. The daemon keeps the pump running. The pump reports the pid of the target to the daemon. Each side replaces the other when it dies.
- **Local strategy.** Without a daemon, the pump alone supervises the target.
- **Process.** Each child is driven through a `Process` object.
  - It derives the command line and environment from a settings object.
  - It relays the child's standard streams through relay streams that outlive every child.
  - It reports `start`, `restart` and `stop`.
- **Line stream.** The daemon and the pump talk over a line stream, made of newline-terminated JSON frames.
- **Test file watcher.** It follows a growing file. It cuts the file into lines, and caches the lines while paused.

The model is a set of Dafny modules that follow the program's files:

| module | file | content |
|---|---|---|
| `Wrappers` | — | `Option` and `Outcome` |
| `Streams` | lib/core/streams.js | `RelayStream` (a pausable FIFO) and `LineStream` (framing, flush, send), with the framing laws |
| `Helpers` | lib/helpers.js | `version`, `ProgressTracker`, `mergeObject`, `alive`, `processWatcher` |
| `Proc` | lib/core/process.js | the `Process` class and its settings derivation |
| `Core` | lib/core/core.js | `spawnPump` and `spawnDaemon` |
| `Ipc` | — | the messages exchanged by the daemon and the pump |
| `DaemonTier` | lib/executables/daemon.js | the daemon's state machine |
| `PumpTier` | lib/executables/pump.js | the pump's state machine |
| `FileWatch` | test/watchers/filewatch.js | the test's `FileWatcher` |

### How the model works

- **Mutable state is a class.** Every object the source mutates (relay streams, line streams, trackers, processes, watchers, the daemon, the pump) is a Dafny `class` with those fields. Its methods have `modifies` clauses. Each method states its whole new state, in terms of the old state and of specification functions. The properties of those functions are proved as lemmas.
- **Loops stay loops.** The source's `while` loops are `while` loops with invariants:
  - relay resume;
  - line framing in the data handler and in the file watcher;
  - the cache drain;
  - `mergeObject`'s key loop;
  - the replay `forEach`;
  - the message handler over a batch of messages.
- **The outside world is input.** The operating system, timers and the JSON codec are outside the model:
  - a child's pid, its exit, and whether a pid exists become method parameters;
  - `process.nextTick` jobs are an explicit queue drained by `Tick` methods;
  - an interval poll is a `Poll` method;
  - JSON is a pair of functions `serialize`/`parse`, with parse failure as `None`.

### Behaviour kept as written

The model keeps several quirks of the source as they are:

- `RelayStream.end` with a chunk calls `this.wirte`, which does not exist, and so throws. `Streams.RelayStream.End` returns that error and changes nothing (lib/core/streams.js:60).
- **The `stop` argument.** The exit handler reads `this.suicide` inside the OS child's `exit` listener, where `this` is the child, not the `Process` (lib/core/process.js:114). The model therefore treats the argument of `stop` as an opaque input (`childSuicide`) and does not tie it to the `suicide` field. The field itself goes false on exit and true on `kill` of a live child, as in the source.
- **The daemon's emit list.** The pump iterates `Object.keys(emits)` (lib/executables/pump.js:35-40). The daemon sends an array of `{name, state}` records (lib/executables/daemon.js:52-56), so the keys are `"0"`, `"1"`, `"2"`. None of them is `"process"`, so every record is replayed, the `process` record included. `emits.process` is then `undefined`. `PumpTier.ReplayOfDaemonArray` proves what the array does, and `PumpTier.ReplayOfLocalTable` proves what the local table does.
- **`close` with zero channels.** `Process.close` never runs its callback when no channel was left to destroy, because `check` is never called (lib/core/process.js:53-74).
- **`close` before the first spawn.** It throws, because `this.process` is undefined.
- **A file that did not grow.** In the file watcher, such a file starts the next cycle at once, without decrementing `query` (test/watchers/filewatch.js:54-57). A watcher whose `query` is positive therefore keeps re-statting until the file grows.
- **No `auto` option.** The pump respawns the target after every `stop` whose argument is falsy (lib/executables/pump.js:113-118).

## Model

| member | source | states |
|---|---|---|
| Streams.RelayStream.constructor | lib/core/streams.js:23-30 | a new relay stream is unpaused, its store empty and nothing emitted, whatever options it is given |
| Streams.RelayStream.Resume | lib/core/streams.js:35-40 | every stored chunk is emitted after the earlier output in FIFO order, none dropped or reordered; the store ends empty and the stream unpaused |
| Streams.RelayStream.Pause | lib/core/streams.js:41-43 | only `paused` changes: it becomes true; store and output stay as they were |
| Streams.RelayStream.Write | lib/core/streams.js:46-53 | while paused the chunk is appended to the end of the store, nothing is emitted and the result is false; otherwise exactly that chunk is emitted, the store is unchanged and the result is true |
| Streams.RelayStream.Close | lib/core/streams.js:56 | changes nothing |
| Streams.RelayStream.End | lib/core/streams.js:59-61 | without a chunk it succeeds; with one it fails on the misspelt `wirte`; either way nothing changes |
| Streams.IndexFrom | lib/core/streams.js:85 | `indexOf(c, from)`: -1 exactly when `c` does not occur from `from` on, else the first position at or after `from` holding `c` |
| Streams.FirstIndex | lib/core/streams.js:85 | any position holding the first `c` after `from` is the one `indexOf` finds |
| Streams.Split | lib/core/streams.js:80-92 | the frames and the rest contain no newline, and each frame followed by a newline, then the rest, rebuilds the text |
| Streams.SplitUnique | lib/core/streams.js:80-92 | that framing is unique: newline-free frames and rest, joined, split back to themselves |
| Streams.SplitAppend | lib/core/streams.js:80-92 | the frames of `a + b` are those of `a`, followed by those of `a`'s remainder extended with `b` |
| Streams.ChunkBoundaryIndependence | lib/core/streams.js:80-92 | feeding chunks to the data handler one by one from a newline-free buffer gives the frames and buffer of one split of the whole input |
| Streams.SameInputSameFrames | lib/core/streams.js:80-92 | two chunkings of the same input give the same frames and the same final buffer |
| Streams.ParsedPrefixExtend | lib/core/streams.js:88 | a frame that parses adds its message after those before it |
| Streams.ParsedPrefixStops | lib/core/streams.js:88 | a frame that fails to parse throws: no message after it is emitted |
| Streams.LineStream.constructor | lib/core/streams.js:68-77 | the buffer starts empty and nothing is received or written |
| Streams.LineStream.OnData | lib/core/streams.js:80-92 | the messages emitted are the parsed frames of old buffer ++ chunk, up to the first that fails to parse; on success the buffer is the newline-free remainder, so the emitted frames joined with newlines plus the buffer are old buffer ++ chunk; after a parse failure the buffer keeps the whole text |
| Streams.LineStream.Flush | lib/core/streams.js:98-100 | the buffer becomes empty and nothing else changes |
| Streams.LineStream.Send | lib/core/streams.js:103-105 | one write of the serialized message followed by a newline |
| Streams.WireIsUnsplit | lib/core/streams.js:103-105 | the text of several sends is their serializations, each newline-terminated |
| Streams.ParseSerialized | lib/core/streams.js:103-105 | with a codec that round-trips, parsing the serializations gives the messages back |
| Streams.PeerReceives | lib/core/streams.js:80-105 | however the text of the sent messages is chunked, the peer's handler yields exactly those messages and keeps an empty buffer |
| Streams.StaleBufferCorrupts | lib/executables/daemon.js:78-80 | a partial line left in the buffer glues onto the next frame, which is why the daemon flushes after the pump dies |
| Helpers.NonEmpty | lib/helpers.js:31 | every kept piece is non-empty and comes from the input |
| Helpers.SplitPiecesAreDigits | lib/helpers.js:30 | every piece of the split on non-digit runs is a run of digits |
| Helpers.SplitKeepsDigits | lib/helpers.js:30 | the split drops exactly the non-digits: its pieces together are the digits of the string in order |
| Helpers.ConcatNonEmpty | lib/helpers.js:31 | dropping the empty pieces loses no character |
| Helpers.Version | lib/helpers.js:30-32 | one integer per non-empty piece |
| Helpers.VersionReadsEveryDigit | lib/helpers.js:30-31 | the pieces parsed are non-empty digit runs, and together they are exactly the digits of the string |
| Helpers.SplitLayout | lib/helpers.js:30 | a digit run, then non-digits, then a digit or the end: the run is the first piece and the rest splits the same way |
| Helpers.VersionSkipsLeadingNonDigits | lib/helpers.js:30-32 | a leading run of non-digits (the `v` of `v0.6.17`) adds no integer |
| Helpers.VersionReadsRun | lib/helpers.js:30-32 | a digit run followed by non-digits contributes its decimal value first, and the rest reads the same way |
| Helpers.VersionOfRun | lib/helpers.js:30-32 | a string of digits alone reads as its one decimal value |
| Helpers.SplitOnNonDigits | lib/helpers.js:30 | `split` always yields at least one piece, the empty string for an empty input; what the pieces hold is proved in `SplitPiecesAreDigits` and `SplitKeepsDigits` |
| Helpers.DecimalValue | lib/helpers.js:32 | a digit string parses to 0 exactly when every digit is `0`, (a piece is never empty, since empty pieces are dropped first) |
| Helpers.Decimals | lib/helpers.js:32 | `map(parseInt)`: one integer per piece, each the decimal value of the piece at the same position |
| Helpers.IndexOf | lib/helpers.js:43 | -1 exactly when the item is absent, else the first index holding it |
| Helpers.RemoveFirst | lib/helpers.js:45 | exactly the first occurrence is removed: the items before it and after it stay in order |
| Helpers.ProgressTracker.constructor | lib/helpers.js:35-38 | the list starts empty and the callback has not run |
| Helpers.ProgressTracker.Add | lib/helpers.js:39-41 | the item, or the items of an array, are appended at the end; the callback never runs |
| Helpers.ProgressTracker.Set | lib/helpers.js:42-47 | an absent item changes nothing and runs no callback; a present one loses its first occurrence, and the callback then runs iff the list is empty and a callback exists |
| Helpers.ProgressTracker.Check | lib/helpers.js:48-52 | the callback runs iff the list is empty and a callback exists; the list is unchanged |
| Helpers.MergeObject | lib/helpers.js:61-66 | every key of `from` ends with `from`'s value, keys only in `to` keep theirs, no other key appears, and the result is `to` itself |
| Helpers.Alive | lib/helpers.js:69-76 | a null pid never reads as alive; a pid reads as alive exactly when the operating system reports it present |
| Helpers.ProcessWatcher.constructor | lib/helpers.js:80-91 | a pid dead at the call defers the callback to the next tick and starts no poll; a live one starts polling; the callback has not run |
| Helpers.ProcessWatcher.Tick | lib/helpers.js:82 | the deferred callback runs once, on the next tick |
| Helpers.ProcessWatcher.Poll | lib/helpers.js:86-91 | the first poll that finds the pid dead runs the callback and stops polling; any other poll changes nothing |
| Helpers.ProcessWatcher.Cancel | lib/helpers.js:83-95 | for a pid alive at the call polling stops; for one dead at the call the canceller does nothing |
| Helpers.WatcherFiresAtMostOnce | lib/helpers.js:80-96 | whatever the order of ticks, polls and cancels, the callback has run at most once, and once it has run nothing more is scheduled |
| Proc.ArgsOf | lib/core/process.js:27 | argv is the file followed by `settings.args`, or the file alone when there are none |
| Proc.ExecOf | lib/core/process.js:30 | `settings.exec` when it is a non-empty string, else the node executable |
| Proc.EnvOf | lib/core/process.js:33-36 | a copy of `settings.env` (or of the running environment), with `spawnOptions` set to the serialized options when options are given |
| Proc.Process.constructor | lib/core/process.js:22-48 | args, exec and env derived as above; `closed` from the settings, not suicide, no pid, not alive; three fresh, distinct, unpaused and empty relay streams |
| Proc.Process.Spawn | lib/core/process.js:92-133 | the child's pid is stored and the process is alive; the child is piped to the same relay streams; `restart` (on respawn) or `start` is queued for the next tick, or, when closed, becomes the callback of a `close` that destroys and awaits all three channels |
| Proc.Process.Launch | lib/core/process.js:96-123 | the part of spawn that stores pid and alive and lays the child's three pipes, leaving the emits alone |
| Proc.Process.Tick | lib/core/process.js:131 | the oldest queued lifecycle emit, if any, is emitted, and nothing else changes |
| Proc.Process.OnExit | lib/core/process.js:113-118 | `suicide` and `alive` become false and `stop` is emitted with the argument the handler reads off the OS child |
| Proc.Process.Kill | lib/core/process.js:136-141 | a dead process changes nothing and gets no signal; a live one is marked as suicide and is sent the signal |
| Proc.Process.Close | lib/core/process.js:53-74 | marks the process closed; before any spawn it throws a TypeError; otherwise it destroys and awaits each of the three channels not yet destroyed, and registers nothing when they already are, so that callback never runs |
| Proc.Process.ChannelClosed | lib/core/process.js:57-73 | a channel's close report fires the close callback iff it is the last one awaited, emitting the lifecycle event it carries or running the caller's callback |
| Proc.Process.ChildOutput | lib/core/process.js:121-122 | the child's stdout or stderr chunk is written to the relay stream of that name |
| Proc.Process.Pump | lib/core/process.js:77-89 | one pipe per stream the target has, added after the earlier pipes, which stay |
| Proc.RegisterChannels | lib/core/process.js:55-72 | a fresh tracker awaits the channels not yet destroyed, in the order stdin, stdout, stderr |
| Proc.ReportClosed | lib/core/process.js:60-72 | the close listener `progress.set(ch)` runs the callback exactly when `ch` was the last channel awaited |
| Proc.ChildPipes | lib/core/process.js:121-123 | the child's stdout and stderr flow into the relays and the stdin relay into the child |
| Proc.PumpPipes | lib/core/process.js:77-89 | stderr and stdout towards the target and stdin from it, each iff the target has that stream |
| Core.Executable | lib/helpers.js:25-27 | the path starts with the library directory and ends with the executable's name |
| Core.PumpSettings | lib/core/core.js:18-24 | the pump runs as node, whatever node path is given, with argv `[pump.js]`, carrying `options`, `detached` and `ipc` unchanged, neither closed nor unattached |
| Core.DaemonSettings | lib/core/core.js:40-46 | the daemon runs as node, whatever node path is given, with argv `[daemon.js] ++ args`, carrying `options` and `detached` unchanged, no `ipc`, neither closed nor unattached |
| Core.RestartedDaemonSeesRestart | lib/executables/pump.js:84 | a daemon spawned with `['restart']` finds `restart` at `process.argv[2]` |
| Core.OptionsReachTheChild | lib/core/process.js:33-36 | with a round-tripping codec the executable reads back from `spawnOptions` exactly the options the builder was given |
| Core.SpawnPump | lib/core/core.js:18-27 | a new, unspawned `Process` for `pump.js` with those settings |
| Core.SpawnDaemon | lib/core/core.js:40-49 | a new, unspawned `Process` for `daemon.js` with those settings and arguments |
| DaemonTier.StartState | lib/executables/daemon.js:50 | `restart` iff argv[2] is `restart`, else `start` |
| DaemonTier.StartEmit | lib/executables/daemon.js:51-57 | daemon, monitor and process, in that order, all in the daemon's start state |
| DaemonTier.SetupMessage | lib/executables/daemon.js:37-44 | a `setup` message with the emit list and the daemon's pid, whose `message` is null iff the error buffer is empty and is the buffer otherwise |
| DaemonTier.LatestPidSnoc | lib/executables/daemon.js:31-34 | a `pid` message sets the remembered pid to its pid; any other leaves it |
| DaemonTier.LatestPidIsLastReport | lib/executables/daemon.js:30-34 | the remembered pid is the pid of the last `pid` message, or the old value when there is none |
| DaemonTier.Daemon.constructor | lib/executables/daemon.js:14-89 | the pump is built from the parsed options and spawned once, as a start; buffer empty and no pid remembered |
| DaemonTier.Daemon.PumpStderr | lib/executables/daemon.js:24-26 | the chunk is appended to the error buffer, which is the concatenation of the stderr chunks since the last restart |
| DaemonTier.Daemon.PumpStdout | lib/executables/daemon.js:18-34 | a chunk of the pump's stdout passes the flowing relay the channel reads from, then the messages framed from it update the remembered pid to the last one reported |
| DaemonTier.Daemon.OnStdoutData | lib/executables/daemon.js:31-34 | the channel's frames are parsed up to the first failure, and the remembered pid becomes that of the last `pid` message among them |
| DaemonTier.LatestPid | lib/executables/daemon.js:30-34 | the remembered pid is either the old value or the pid of one of the messages handled |
| DaemonTier.Daemon.HandleMessages | lib/executables/daemon.js:31-34 | after each message in turn the remembered pid is that of the last `pid` message |
| DaemonTier.Daemon.Setup | lib/executables/daemon.js:37-44 | one line, the setup message, is sent on the channel |
| DaemonTier.Daemon.PumpTick | lib/executables/daemon.js:51-68 | on the pump's `start` the setup announces daemon, monitor and process in the start state; on `restart` it announces monitor and process restarting with the buffer, and the buffer is cleared after sending |
| DaemonTier.Daemon.PumpExit | lib/executables/daemon.js:71-85 | the last reported pid is signalled only if it exists, the channel buffer is flushed, and a watch on that pid begins |
| DaemonTier.Daemon.WatcherTick | lib/executables/daemon.js:83-85 | for a pid already dead the next tick respawns the pump, as a restart |
| DaemonTier.Daemon.WatcherPoll | lib/executables/daemon.js:83-85 | the pump is respawned, as a restart, only on the poll that finds the pid dead |
| DaemonTier.Daemon.Respawn | lib/executables/daemon.js:84 | `child.spawn(true)` queues a restart, never a start |
| DaemonTier.AtMostOneStart | lib/executables/daemon.js:85-89 | `start` is emitted at most once in a daemon's lifetime |
| PumpTier.Lookup | lib/executables/pump.js:52 | `emits[key]` is absent iff no entry has the key, else the value of an entry with it |
| PumpTier.Spread | lib/executables/pump.js:39 | `[name].concat(value)` spreads an array into the arguments and appends any other value, `undefined` for an absent one, as a single argument |
| PumpTier.Replay | lib/executables/pump.js:35-40 | at most one call per key of `emits`; which calls, in which order, is proved in `ReplaySkipsProcess` and `ReplayKeepsOtherKeys` |
| PumpTier.ReplaySkipsProcess | lib/executables/pump.js:35-40 | the replay never emits `process` |
| PumpTier.ReplayKeepsOtherKeys | lib/executables/pump.js:35-40 | without a `process` key every entry is replayed, in key order, with its value spread into the arguments |
| PumpTier.ReplayCalls | lib/executables/pump.js:35-40 | the `forEach` makes exactly the replay's calls |
| PumpTier.ArrayEmits | lib/executables/pump.js:35 | an array's keys are its indices as decimal strings, each holding one record |
| PumpTier.DecimalIsNotProcess | lib/executables/pump.js:37 | no index key equals `process` |
| PumpTier.ReplayOfDaemonArray | lib/executables/pump.js:35-52 | with the daemon's array every record is replayed under its index, `process` included, and `emits.process` is undefined |
| PumpTier.ReplayOfLocalTable | lib/executables/pump.js:105-110 | with the local table only `monitor: start` is replayed, and the first start emits `process: start` |
| PumpTier.PidMessage | lib/executables/pump.js:99-101 | exactly `{cmd: 'pid', pid: child.pid}` |
| PumpTier.SlotDiscipline | lib/executables/pump.js:50-63 | after any history of child events, each with the pid the child had when it fired, `pid.process` keeps its start value when nothing happened, is null when the last event was a stop, and otherwise is the pid of the latest start or restart, so after a respawn it names the new child |
| PumpTier.Pump.constructor | lib/executables/pump.js:22-110 | the target's `Process` is built from the options and pumped to the own stdio only under `development`; the daemon strategy opens the channel and waits, any other sets up the monitor with the local table |
| PumpTier.Pump.SetupMonitor | lib/executables/pump.js:31-64 | the monitor is created with `pid` = {process: null, monitor: own pid, daemon: daemonPid} and the given emits and message |
| PumpTier.Pump.DaemonData | lib/executables/pump.js:70-96 | the daemon's messages are framed; the first setup message starts the watch on the daemon's pid and sets the monitor up with its emit list as an array; the invariant is kept when every frame parsed |
| PumpTier.Pump.OnSetup | lib/executables/pump.js:71-96 | a watch on `msg.daemon` begins, then the monitor is set up with the message's emits, message and daemon pid |
| PumpTier.Pump.MonitorReady | lib/executables/pump.js:32-47 | the ready callback replays the emits other than `process` in key order, then spawns the child as a start, then pumps its streams to the monitor |
| PumpTier.Pump.Ready | lib/executables/pump.js:34-46 | the replay, then the first spawn with its start owed, then the pipes to the monitor |
| PumpTier.Pump.StartTarget | lib/executables/pump.js:42-46 | the target's first spawn, with its start owed and nothing emitted yet, then the pipes to the monitor, keeping the invariant |
| PumpTier.Pump.ChildTick | lib/executables/pump.js:50-103 | on start or restart the daemon is sent the child's pid, `pid.process` becomes the child's pid, and the monitor sees `process`, for the first start with `emits.process` |
| PumpTier.Pump.ChildChannelClosed | lib/core/process.js:127-130 | for a closed target, the close callback's start or restart is emitted when the last channel closes, and the listeners react as on a tick |
| PumpTier.Pump.ChildExit | lib/executables/pump.js:56-118 | `pid.process` becomes null and the monitor sees `process: stop`; a falsy `stop` argument respawns the child as a restart and a truthy one does not; once the daemon died, a daemon with args `['restart']` is spawned and closed |
| PumpTier.Pump.DaemonStopListeners | lib/executables/pump.js:56-118 | under the daemon strategy, in registration order: the respawn, the monitor's stop, the daemon replacement |
| PumpTier.Pump.LocalStopListeners | lib/executables/pump.js:56-118 | without a daemon, the monitor's stop, then the respawn |
| PumpTier.Pump.ReplaceDaemon | lib/executables/pump.js:81-91 | a daemon built with `['restart']` is spawned and its channels are closed, with the exit as callback |
| PumpTier.Pump.MonitorStop | lib/executables/pump.js:56-59 | `pid.process` becomes null and `process: stop` is emitted on the monitor |
| PumpTier.Pump.DaemonWatcherTick | lib/executables/pump.js:75-79 | for a daemon already dead the next tick kills the child once and arms the replacement |
| PumpTier.Pump.DaemonWatcherPoll | lib/executables/pump.js:75-79 | the poll that finds the daemon dead kills the child and arms the replacement, and this happens at most once |
| PumpTier.Pump.SuccessorChannelClosed | lib/executables/pump.js:90 | the pump exits exactly when the new daemon's last channel closes |
| PumpTier.Pump.Deliver | lib/executables/pump.js:50-103 | `informDaemon` sends the pid, then the once-listener handles the first start and the restart listener every restart |
| PumpTier.EmitNext | lib/core/process.js:131 | an emitted lifecycle event is a start or a restart, and a start is the first one |
| PumpTier.CloseChannel | lib/core/process.js:128-129 | a close callback's emit is a start or a restart, and a start is the first one |
| PumpTier.SpawnAndPump | lib/executables/pump.js:43-46 | the first spawn owes exactly one start, and the pipes to the monitor are added |
| PumpTier.KillChild | lib/executables/pump.js:78 | a live child is signalled and marked as suicide; a dead one is left alone |
| PumpTier.ExitChild | lib/core/process.js:113-118 | the child emits its stop and stops running; what it still owes is unchanged |
| PumpTier.Respawn | lib/executables/pump.js:113-118 | `child.spawn(true)` owes a restart |
| PumpTier.StartSuccessor | lib/executables/pump.js:84-90 | the new daemon runs `daemon.js restart`, is spawned, and awaits all three channels with the exit as callback |
| FileWatch.RoutingKeepsOrder | test/watchers/filewatch.js:74-85 | the emitted lines followed by the cached ones are the earlier lines followed by the new ones, and the cache stays empty unless the watcher ends paused |
| FileWatch.LinesOfSplit | test/watchers/filewatch.js:74-86 | a framing of the text into lines and a newline-free rest is exactly the one the line loop finds |
| FileWatch.RouteLines | test/watchers/filewatch.js:69-86 | the lines completed in the buffer are added, in order, to the emitted lines while unpaused and to the cache while paused; the rest has no newline; a paused watcher emits nothing |
| FileWatch.ReadKeepsOrder | test/watchers/filewatch.js:61-88 | after a read, every line of the decoded reads so far is emitted or cached, in read order, and the buffer is the unterminated rest |
| FileWatch.FileWatcher.constructor | test/watchers/filewatch.js:21-31 | paused, with empty buffer and cache, position 0, query 0 and not reading |
| FileWatch.FileWatcher.ReadFileUpdate | test/watchers/filewatch.js:42-45 | the watcher is reading and asks for the size |
| FileWatch.FileWatcher.NextRead | test/watchers/filewatch.js:33-40 | with no read queried it stops reading, else it starts another cycle |
| FileWatch.FileWatcher.Opened | test/watchers/filewatch.js:101-110 | the first read is queried and started, and the watch begins |
| FileWatch.FileWatcher.WatchEvent | test/watchers/filewatch.js:110-119 | a `change` queries one more read and starts a cycle only when none runs; other events do nothing |
| FileWatch.FileWatcher.OnStat | test/watchers/filewatch.js:45-60 | the position moves to the size; with no new bytes there is no read and the next cycle follows; new bytes are read; a shrunk file fails |
| FileWatch.FileWatcher.OnRead | test/watchers/filewatch.js:61-89 | `query` goes down by one only when positive; the lines are routed as `ReadStep` says; the watcher keeps reading iff reads remain queried |
| FileWatch.FileWatcher.Take | test/watchers/filewatch.js:69-86 | the content joins the buffer and its lines are routed, keeping file order |
| FileWatch.FileWatcher.SplitBuffer | test/watchers/filewatch.js:70-86 | the loop over the buffer's newlines routes exactly the lines `RouteLines` says and keeps the rest |
| FileWatch.FileWatcher.Route | test/watchers/filewatch.js:77-82 | a line is cached while paused and emitted otherwise, and a handler may pause the watcher on it |
| FileWatch.FileWatcher.Pause | test/watchers/filewatch.js:144-146 | only the flag is set |
| FileWatch.FileWatcher.Resume | test/watchers/filewatch.js:149-154 | cached lines are emitted oldest first until the cache is empty or a handler pauses; the rest stay cached in order, and no line is lost |
| FileWatch.FileWatcher.Close | test/watchers/filewatch.js:157-161 | `query` becomes 0 and the watch ends; before the file was opened it throws a TypeError |
| FileWatch.CloseEndsReading | test/watchers/filewatch.js:33-40 | after `close`, the cycle under way ends with the watcher no longer reading |

## Left out

- Starting processes, signals, `process.kill(pid, 0)`, `process.exit` and the unattach spawn helpers (lib/core/process.js:18, lib/core/process.js:147-170) are operating-system services. Pids, exits, the existence of a pid and channel close reports are method parameters. A sent signal is recorded in a `signals` or `killed` log.
- Timers and `process.nextTick` are not modelled as time. A deferred job is a queue entry or flag, run by a `Tick` method, and an interval is a `Poll` method that runs whenever the environment calls it.
- Helpers.ProcessWatcher: the 200 ms interval is not modelled. The third argument `200` that the daemon passes (lib/executables/daemon.js:85) is ignored by the source and is absent here.
- JSON is a pair of given functions, `serialize` and `parse`. The laws about them assume a serialization without a raw newline that parses back.
- The file system calls of the test watcher (`open`, `fstat`, `read`, `watch`, `unlink`, `exists`, the 50 ms retry) are out of the model. Their results are parameters, and fstat/read errors are out of the model.
- FileWatch.FileWatcher.OnStat: a file that shrank is modelled as a read that throws, without the error's details.
- FileWatch.CloseEndsReading: this assumes the stat and read issued around `close` still return, because the asynchronous `fs.close` is out of the model.
- FileWatch.FileWatcher.Resume: a line handler that calls `resume` again from inside the drain is out of the model; a handler may only pause, at a given line.
- Monitor implementations are out of the model: lib/core/monitor.js, lib/monitor.js and the test monitors. Only the monitor's `pid` triple and the calls made on its `emit` are modelled. Output pumped to the monitor appears only as pipes.
- lib/core/helpers.js, the legacy launchers (lib/start.js, lib/deamon.js, lib/module.js, lib/core/daemon.js, lib/core/pump.js, lib/core/monitorAbstract.js), lib/executables/execute.js, src/ and the tests under test/simple are not part of this model.
- Pipes are recorded as connections. The data flowing through them, back-pressure and `{end: false}` are out of the model.
- Streams.LineStream.Send: writes are recorded in a `written` log rather than passed on to the write-side stream.
- Proc.Process.ChannelClosed: a close report from a channel of an earlier child, arriving after a respawn, is treated like one from the current child.
- PumpTier.Pump.DaemonData: only the first setup message is acted on. The source would start another watch and create another monitor for each later message.
- PumpTier.Pump.DaemonData: when a frame fails to parse, the uncaught error ends the pump; the model then promises only the framing and the messages handled before it, not the invariant, and no handler after it is modelled.
- Streams.ChunkBoundaryIndependence: chunks are decoded strings. The source decodes each byte chunk on its own (lib/core/streams.js:81), so a multi-byte character split across two chunks is corrupted there; the law holds only for chunks cut at character boundaries.
- Streams.SameInputSameFrames: the same holds; two chunkings give the same frames only when both cut at character boundaries.
- Streams.PeerReceives: the same holds for the peer's reads (lib/executables/daemon.js:18, lib/executables/pump.js:70); a multi-byte character split between two reads is corrupted in the source.
- Proc.Process.Launch: a respawn replaces the close tracker and forgets the channels an earlier `close` still awaits. In the source the earlier tracker's callback, a start or restart emit, still runs when the old child's channels report their close (lib/core/process.js:53-74, lib/core/process.js:126-130); the model loses that emit.
- PumpTier.Respawn: the same holds; a restart owed by the earlier child's pending `close` is forgotten when the target is spawned again.
- FileWatch.ReadKeepsOrder: each read is decoded on its own (test/watchers/filewatch.js:60-71), and the model's content is that decoded text. The law is about the decoded reads; it holds for the file's own text only when every read ends at a character boundary, since a multi-byte character cut between two reads is corrupted in the source.
- FileWatch.FileWatcher.OnRead: the same holds; a read is already decoded text, so a multi-byte character split between two reads is not modelled.
- PumpTier.Pump.MonitorReady: the monitor is assumed to call its ready callback once. A second call is a no-op here; in the source (lib/executables/pump.js:32-47) it would replay the emits and spawn the child again.
- Helpers.Alive: a null pid is taken to make `process.kill` throw, so it reads as dead. A runtime that coerces null to pid 0 would probe the caller's process group instead and report it alive.
- PumpTier.Pump.ReplaceDaemon: only the latest replacement daemon is kept. Its own lifecycle emits after the spawn are not run.
- Helpers.Version: the integers are unbounded. JavaScript's `parseInt` loses precision above 2^53, and that is not modelled.
- Core.Executable: the path is the library directory joined with "/executables/" and the name. `path.join`'s normalisation is not modelled.
- Core.SpawnDaemon: `args` and `options` are always given. The source's callers always pass them.
