/** The line watcher of test/watchers/filewatch.js: it follows a growing
    file, cuts what it reads into newline-terminated lines and emits them, or
    caches them while paused. The file system is left out: the size `fstat`
    reports, the bytes `read` returns and the `watch` events are parameters
    of the methods below, and each asynchronous callback is one method. */
module FileWatch {
  import opened Wrappers
  import Streams

  /** The outstanding file-system request of a read cycle. */
  datatype Phase = Idle | Statting | Reading

  /** How many of `m` lines in a row a `line` handler receives when the
      watcher starts out `paused0` and the handler pauses it on the line
      numbered `pausesAt` (counting from 0), if any. */
  function Emitted(paused0: bool, pausesAt: Option<nat>, m: nat): (n: nat)
    ensures n <= m
    ensures paused0 ==> n == 0
    ensures !paused0 && (pausesAt.None? || pausesAt.value >= m) ==> n == m
  {
    if paused0 then 0
    else if pausesAt.Some? && pausesAt.value < m then pausesAt.value + 1
    else m
  }

  /** Whether the watcher is paused after those `m` lines. */
  function PausedAfter(paused0: bool, pausesAt: Option<nat>, m: nat): bool {
    paused0 || (pausesAt.Some? && pausesAt.value < m)
  }

  /** One more line: it reaches the handler iff the watcher is not paused,
      and the handler pauses it iff it is the line numbered `pausesAt`. */
  lemma EmittedStep(paused0: bool, pausesAt: Option<nat>, m: nat)
    ensures !PausedAfter(paused0, pausesAt, m) ==> Emitted(paused0, pausesAt, m) == m
    ensures Emitted(paused0, pausesAt, m + 1) ==
            Emitted(paused0, pausesAt, m) + (if PausedAfter(paused0, pausesAt, m) then 0 else 1)
    ensures PausedAfter(paused0, pausesAt, m + 1) == (PausedAfter(paused0, pausesAt, m) || pausesAt == Some(m))
  {
  }

  /** Routing one more line after `done`: a paused watcher caches it, an
      unpaused one emits it. */
  lemma RouteStep(done: seq<string>, line: string, paused0: bool, pausesAt: Option<nat>)
    ensures var n := Emitted(paused0, pausesAt, |done|);
            var n' := Emitted(paused0, pausesAt, |done| + 1);
            if PausedAfter(paused0, pausesAt, |done|) then
              (done + [line])[..n'] == done[..n] && (done + [line])[n'..] == done[n..] + [line]
            else
              (done + [line])[..n'] == done[..n] + [line] && (done + [line])[n'..] == done[n..]
    ensures PausedAfter(paused0, pausesAt, |done| + 1) ==
            (PausedAfter(paused0, pausesAt, |done|) || pausesAt == Some(|done|))
  {
    var n := Emitted(paused0, pausesAt, |done|);
    EmittedStep(paused0, pausesAt, |done|);
    if PausedAfter(paused0, pausesAt, |done|) {
      assert (done + [line])[..n] == done[..n];
      assert (done + [line])[n..] == done[n..] + [line];
    } else {
      assert (done + [line])[..n + 1] == done + [line];
    }
  }

  /** Routing lines keeps them in file order: with the cache empty unless
      paused, the emitted lines followed by the cached ones are the earlier
      lines followed by the new ones, and the cache stays empty unless the
      watcher ends up paused. */
  lemma RoutingKeepsOrder(lines: seq<string>, cache: seq<string>, frames: seq<string>,
                          paused: bool, pausesAt: Option<nat>)
    requires !paused ==> cache == []
    ensures var n := Emitted(paused, pausesAt, |frames|);
            && (lines + frames[..n]) + (cache + frames[n..]) == (lines + cache) + frames
            && (!PausedAfter(paused, pausesAt, |frames|) ==> cache + frames[n..] == [])
  {
    var n := Emitted(paused, pausesAt, |frames|);
    assert frames[..n] + frames[n..] == frames;
    if paused {
      assert frames[..n] == [];
    }
  }

  /** The lines of `text` are `frames`, with `rest` left unterminated:
      `text` is each frame followed by a newline, then `rest`, and no frame
      and not the rest holds a newline. */
  ghost predicate LinesOf(text: string, frames: seq<string>, rest: string) {
    Streams.Framed(frames) && Streams.NL !in rest && Streams.Unsplit(frames, rest) == text
  }

  /** That framing is the one splitting the text finds. */
  lemma LinesOfSplit(text: string, frames: seq<string>, rest: string)
    ensures LinesOf(text, frames, rest) <==> Streams.Split(text) == (frames, rest)
  {
    if LinesOf(text, frames, rest) {
      Streams.SplitUnique(frames, rest);
    }
  }

  /** The routed lines of a watcher, given as its text, emitted lines,
      cache, buffer and pause flag, are the lines of the text in order, and
      lines are cached only while paused. */
  ghost predicate Ordered(l: (string, seq<string>, seq<string>, string, bool)) {
    LinesOf(l.0, l.1 + l.2, l.3) && (!l.4 ==> l.2 == [])
  }

  /** The lines completed in `buffer`, routed from `lines` and `cache`:
      while unpaused they reach the `line` handler, which pauses the watcher
      on the line numbered `pausesAt`; while paused they are cached. The
      result is the emitted lines, the cache, the unterminated rest and the
      pause flag. */
  function RouteLines(lines: seq<string>, cache: seq<string>, paused: bool, buffer: string,
                      pausesAt: Option<nat>): (r: (seq<string>, seq<string>, string, bool))
    ensures |lines| <= |r.0| && r.0[..|lines|] == lines
    ensures |cache| <= |r.1| && r.1[..|cache|] == cache
    ensures r.0[|lines|..] + r.1[|cache|..] == Streams.Split(buffer).0
    ensures r.2 == Streams.Split(buffer).1
    ensures paused ==> r.0 == lines && r.3
    ensures !r.3 ==> r.1 == cache
  {
    var (frames, rest) := Streams.Split(buffer);
    var n := Emitted(paused, pausesAt, |frames|);
    assert (lines + frames[..n])[..|lines|] == lines;
    assert (cache + frames[n..])[..|cache|] == cache;
    assert (lines + frames[..n])[|lines|..] == frames[..n];
    assert (cache + frames[n..])[|cache|..] == frames[n..];
    assert frames[..n] + frames[n..] == frames;
    (lines + frames[..n], cache + frames[n..], rest, PausedAfter(paused, pausesAt, |frames|))
  }

  /** A read callback's effect on what was read and where its lines went:
      `content` joins the text and the buffer, and the lines it completes
      are routed. */
  ghost function ReadStep(l: (string, seq<string>, seq<string>, string, bool), content: string,
                          pausesAt: Option<nat>): (string, seq<string>, seq<string>, string, bool)
  {
    var (lines, cache, rest, paused) := RouteLines(l.1, l.2, l.4, l.3 + content, pausesAt);
    (l.0 + content, lines, cache, rest, paused)
  }

  /** A read callback keeps every line read in order: the emitted lines
      followed by the cached ones are again the lines of the longer text,
      and the cache stays empty unless paused. The text is the reads as each
      was decoded on its own. */
  lemma ReadKeepsOrder(l: (string, seq<string>, seq<string>, string, bool), content: string,
                       pausesAt: Option<nat>)
    requires Ordered(l)
    ensures Ordered(ReadStep(l, content, pausesAt))
  {
    var (text, lines, cache, buffer, paused) := l;
    LinesOfSplit(text, lines + cache, buffer);
    Streams.SplitAppend(text, content);
    RoutingKeepsOrder(lines, cache, Streams.Split(buffer + content).0, paused, pausesAt);
    var r := ReadStep(l, content, pausesAt);
    LinesOfSplit(r.0, r.1 + r.2, r.3);
  }

  class FileWatcher {
    var buffer: string
    var position: nat
    var query: nat
    var reading: bool
    var paused: bool
    var cache: seq<string>
    /** The `line` events, in order. */
    var lines: seq<string>
    var phase: Phase
    /** The file is open and its `fs.watch` stream exists. */
    var fileOpen: bool
    var watching: bool
    /** A read callback threw. */
    var failed: bool
    /** Everything read from the file so far. */
    ghost var text: string

    /** Every line of what was read, in file order, has been emitted or is
        cached, and the unterminated rest is the buffer; lines are cached
        only while paused; a request is outstanding exactly while reading. */
    ghost predicate Valid()
      reads this
    {
      && Ordered(Lines())
      && (phase != Idle ==> reading)
      && (reading && phase == Idle ==> failed)
      && (watching ==> fileOpen)
    }

    /** What was read and where its lines went. */
    ghost function Lines(): (string, seq<string>, seq<string>, string, bool)
      reads this
    {
      (text, lines, cache, buffer, paused)
    }

    /** The file's position and handles. */
    ghost function Files(): (nat, bool, bool, bool)
      reads this
    {
      (position, fileOpen, watching, failed)
    }

    constructor ()
      ensures Valid()
      ensures buffer == "" && position == 0 && query == 0 && !reading
      ensures paused && cache == [] && lines == []
      ensures phase == Idle && !fileOpen && !watching && !failed
    {
      buffer := "";
      position := 0;
      query := 0;
      reading := false;
      paused := true;
      cache := [];
      lines := [];
      phase := Idle;
      fileOpen := false;
      watching := false;
      failed := false;
      text := "";
      new;
      assert lines + cache == [];
    }

    /** `readFileUpdate`: marks the watcher as reading and asks for the
        file's size. */
    method ReadFileUpdate()
      modifies this
      ensures reading && phase == Statting
      ensures query == old(query) && Lines() == old(Lines()) && Files() == old(Files())
    {
      reading := true;
      phase := Statting;
    }

    /** `nextRead`: another cycle when reads are queried, otherwise the
        watcher stops reading. */
    method NextRead()
      modifies this
      ensures query == 0 ==> !reading && phase == Idle
      ensures query != 0 ==> reading && phase == Statting
      ensures query == old(query) && Lines() == old(Lines()) && Files() == old(Files())
    {
      if query == 0 {
        reading := false;
        phase := Idle;
      } else {
        ReadFileUpdate();
      }
    }

    /** The file was opened: the first read is queried and started, and the
        watch on the file begins. */
    method Opened()
      requires Valid() && !fileOpen
      modifies this
      ensures Valid()
      ensures fileOpen && watching && query == old(query) + 1 && reading && phase == Statting
      ensures Lines() == old(Lines()) && position == old(position) && failed == old(failed)
    {
      fileOpen := true;
      query := query + 1;
      ReadFileUpdate();
      watching := true;
    }

    /** A watch event: a `change` queries one more read and starts a cycle
        unless one is running; other events are ignored. */
    method WatchEvent(event: string)
      requires Valid() && watching
      modifies this
      ensures Valid()
      ensures event == "change" ==> query == old(query) + 1 && reading &&
                                    (old(reading) ==> phase == old(phase)) && (!old(reading) ==> phase == Statting)
      ensures event != "change" ==> query == old(query) && reading == old(reading) && phase == old(phase)
      ensures Lines() == old(Lines()) && Files() == old(Files())
    {
      if event == "change" {
        query := query + 1;
        if !reading {
          ReadFileUpdate();
        }
      }
    }

    /** The `fstat` callback with the file's `size`. The position moves to
        the size. Without new bytes no read happens and the next cycle
        follows at once, leaving `query` as it was; new bytes are read from
        the old position. A file that shrank makes a read of negative length,
        which fails, and the callback throws. */
    method OnStat(size: nat) returns (r: Outcome<string>)
      requires Valid() && phase == Statting
      modifies this
      ensures Valid()
      ensures position == size && query == old(query) && (r.Fail? <==> size < old(position))
      ensures size == old(position) ==> (reading <==> query != 0) && (reading ==> phase == Statting)
      ensures size > old(position) ==> reading && phase == Reading
      ensures size < old(position) ==> failed && reading && phase == Idle
      ensures Lines() == old(Lines()) && fileOpen == old(fileOpen) && watching == old(watching)
    {
      var start := position;
      position := size;
      if size == start {
        NextRead();
        return Pass;
      }
      if size < start {
        failed := true;
        phase := Idle;
        return Fail("RangeError");
      }
      phase := Reading;
      return Pass;
    }

    /** The `read` callback with the new bytes `content`. One queried read
        is done; each line completed by `content` goes to a `line` handler
        while unpaused and to the cache while paused (the handler pausing
        the watcher on the line numbered `pausesAt` of this call), and the
        next cycle follows. */
    method OnRead(content: string, pausesAt: Option<nat>)
      requires Valid() && phase == Reading
      modifies this
      ensures Valid()
      ensures Lines() == ReadStep(old(Lines()), content, pausesAt)
      ensures query == if old(query) != 0 then old(query) - 1 else 0
      ensures reading <==> query != 0
      ensures phase == if query == 0 then Idle else Statting
      ensures position == old(position) && fileOpen == old(fileOpen) && watching == old(watching)
    {
      if query != 0 {
        query := query - 1;
      }
      Take(content, pausesAt);
      NextRead();
    }

    /** The bytes of a read join the buffer and the lines they complete are
        routed, keeping every line read in file order. */
    method Take(content: string, pausesAt: Option<nat>)
      requires Ordered(Lines())
      modifies this
      ensures Ordered(Lines())
      ensures Lines() == ReadStep(old(Lines()), content, pausesAt)
      ensures Cycle() == old(Cycle())
    {
      ReadKeepsOrder(Lines(), content, pausesAt);
      text := text + content;
      buffer := buffer + content;
      SplitBuffer(pausesAt);
    }

    /** The line loop of the read callback: cuts the buffer at each newline
        and routes the lines, keeping the unterminated rest. */
    method SplitBuffer(pausesAt: Option<nat>)
      modifies this
      ensures (lines, cache, buffer, paused) == RouteLines(old(lines), old(cache), old(paused), old(buffer), pausesAt)
      ensures text == old(text) && Cycle() == old(Cycle())
    {
      var start := 0;
      var i := Streams.IndexFrom(buffer, Streams.NL, 0);
      ghost var done: seq<string> := [];
      var count := 0;
      ghost var paused0, lines0, cache0 := paused, lines, cache;
      assert buffer[..0] == "";
      while i != -1
        invariant buffer == old(buffer)
        invariant Streams.FramesUpTo(buffer, done, start) && i == Streams.IndexFrom(buffer, Streams.NL, start)
        invariant count == |done|
        invariant var n := Emitted(paused0, pausesAt, |done|);
                  lines == lines0 + done[..n] && cache == cache0 + done[n..]
        invariant paused == PausedAfter(paused0, pausesAt, |done|)
        invariant text == old(text) && Cycle() == old(Cycle())
        decreases |buffer| - start
      {
        var line := buffer[start..i];
        Streams.FramesUpToStep(buffer, done, start, i);
        RouteStep(done, line, paused0, pausesAt);
        Route(line, pausesAt == Some(count));
        done := done + [line];
        count := count + 1;
        start := i + 1;
        i := Streams.IndexFrom(buffer, Streams.NL, start);
      }
      Streams.FramesUpToEnd(buffer, done, start);
      buffer := buffer[start..];
    }

    /** The state apart from the routed lines, which pausing and resuming
        leave alone. */
    ghost function Others(): (string, nat, nat, bool, Phase, string, bool, bool, bool)
      reads this
    {
      (buffer, position, query, reading, phase, text, fileOpen, watching, failed)
    }

    /** The read cycle's state, which routing lines leaves alone. */
    ghost function Cycle(): (nat, bool, Phase, nat, bool, bool, bool)
      reads this
    {
      (query, reading, phase, position, fileOpen, watching, failed)
    }

    /** One line of the loop: cached while paused; otherwise emitted, and the
        handler pauses the watcher when `pauses`. */
    method Route(line: string, pauses: bool)
      modifies this
      ensures old(paused) ==> cache == old(cache) + [line] && lines == old(lines) && paused
      ensures !old(paused) ==> lines == old(lines) + [line] && cache == old(cache) && paused == pauses
      ensures buffer == old(buffer) && text == old(text) && Cycle() == old(Cycle())
    {
      if paused {
        cache := cache + [line];
      } else {
        lines := lines + [line];
        if pauses {
          paused := true;
        }
      }
    }

    /** `pause` only sets the flag. */
    method Pause()
      modifies this
      ensures paused
      ensures cache == old(cache) && lines == old(lines) && Others() == old(Others())
    {
      paused := true;
    }

    /** `resume`: unpauses and hands the cached lines, oldest first, to the
        `line` handler, until the cache is empty or the handler pauses the
        watcher again, on the line numbered `pausesAt` of this drain. */
    method Resume(pausesAt: Option<nat>)
      requires Valid()
      modifies this
      ensures Valid()
      ensures var n := Emitted(false, pausesAt, |old(cache)|);
              && lines == old(lines) + old(cache)[..n]
              && cache == old(cache)[n..]
              && paused == PausedAfter(false, pausesAt, |old(cache)|)
      ensures lines + cache == old(lines) + old(cache)
      ensures Others() == old(Others())
    {
      paused := false;
      var k := 0;
      ghost var c, l := cache, lines;
      while cache != [] && !paused
        invariant 0 <= k <= |c|
        invariant cache == c[k..] && lines == l + c[..k]
        invariant paused == PausedAfter(false, pausesAt, k)
        invariant paused ==> pausesAt == Some(k - 1)
        invariant Others() == old(Others())
        decreases |cache|
      {
        var line := cache[0];
        cache := cache[1..];
        lines := lines + [line];
        assert c[..k + 1] == c[..k] + [line];
        if pausesAt == Some(k) {
          paused := true;
        }
        k := k + 1;
      }
      assert c[..k] + c[k..] == c;
      assert lines + cache == l + c;
    }

    /** `close`: no more reads are queried, so the running cycle is the
        last; then the watch stream and the file are closed. Before the file
        was opened there is no stream, and closing it throws a TypeError. */
    method Close() returns (r: Outcome<string>)
      requires Valid()
      modifies this
      ensures Valid()
      ensures query == 0 && !watching
      ensures r.Fail? <==> !old(fileOpen)
      ensures r.Fail? ==> r.error == "TypeError"
      ensures Lines() == old(Lines()) && reading == old(reading) && phase == old(phase)
      ensures position == old(position) && fileOpen == old(fileOpen) && failed == old(failed)
    {
      query := 0;
      if !fileOpen {
        return Fail("TypeError");
      }
      watching := false;
      return Pass;
    }
  }

  /** After `close`, the cycle under way ends with the watcher no longer
      reading, whether the size did not change or new bytes are read. */
  method CloseEndsReading(w: FileWatcher, size: nat, content: string)
    requires w.Valid() && w.fileOpen && w.phase == Statting && size >= w.position
    modifies w
    ensures w.Valid() && !w.reading && w.phase == Idle
  {
    var _ := w.Close();
    var r := w.OnStat(size);
    if w.phase == Reading {
      w.OnRead(content, None);
    }
  }
}
