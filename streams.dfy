/** The stream primitives of lib/core/streams.js: a pausable relay stream and
    the newline-delimited message channel layered over a pair of streams. */
module Streams {
  import opened Wrappers

  /** What an operation on these streams can throw. */
  datatype StreamError =
    | NotAFunction(name: string)  // a TypeError: the property called is not a function
    | ParseError(frame: string)   // JSON.parse rejected a frame

  /** The options a caller may hand to the relay stream constructor. */
  datatype RelayOptions = RelayOptions(paused: Option<bool>)

  /** A duplex relay: written chunks are delivered as 'data' events, or queued
      in `store` while paused. `delivered` is the sequence of 'data' events. */
  class RelayStream {
    var store: seq<string>
    var paused: bool
    var delivered: seq<string>

    /** The options are passed to the base Stream constructor, which ignores
        them: even `{paused: true}` yields a flowing stream. */
    constructor (options: RelayOptions)
      ensures store == [] && !paused && delivered == []
    {
      store := [];
      paused := false;
      delivered := [];
    }

    /** Emits every queued chunk in FIFO order, then stops queueing. */
    method Resume()
      modifies this
      ensures delivered == old(delivered) + old(store)
      ensures store == [] && !paused
    {
      while store != []
        invariant delivered + store == old(delivered) + old(store)
        decreases |store|
      {
        delivered, store := delivered + [store[0]], store[1..];
      }
      paused := false;
    }

    method Pause()
      modifies this
      ensures paused
      ensures store == old(store) && delivered == old(delivered)
    {
      paused := true;
    }

    /** Queues the chunk while paused (and reports back-pressure), else emits it. */
    method Write(chunk: string) returns (flowing: bool)
      modifies this
      ensures flowing == !old(paused) && paused == old(paused)
      ensures old(paused) ==> store == old(store) + [chunk] && delivered == old(delivered)
      ensures !old(paused) ==> store == old(store) && delivered == old(delivered) + [chunk]
    {
      if paused {
        store := store + [chunk];
        return false;
      }
      delivered := delivered + [chunk];
      return true;
    }

    /** Closing a relay is deliberately inert: it must outlive the process it relays. */
    method Close()
      ensures store == old(store) && paused == old(paused) && delivered == old(delivered)
    {
    }

    /** `end()` without a chunk does nothing; with a chunk it calls the misspelt
        `this.wirte`, which is undefined, so it throws and writes nothing. */
    method End(chunk: Option<string>) returns (r: Outcome<StreamError>)
      ensures chunk.None? <==> r.Pass?
      ensures chunk.Some? ==> r == Fail(NotAFunction("wirte"))
      ensures store == old(store) && paused == old(paused) && delivered == old(delivered)
    {
      if chunk.Some? {
        return Fail(NotAFunction("wirte"));
      }
      return Pass;
    }
  }

  // ---------------------------------------------------------------------------
  // Framing: the specification of the line stream's data handler.

  const NL: char := '\n'

  /** JavaScript's `s.indexOf(c, from)`: the first index at or after `from`
      holding `c`, or -1 when there is none. */
  function IndexFrom(s: string, c: char, from: nat): (i: int)
    requires from <= |s|
    ensures i == -1 || from <= i < |s|
    ensures i == -1 <==> c !in s[from..]
    ensures i != -1 ==> s[i] == c && c !in s[from..i]
    decreases |s| - from
  {
    if from == |s| then -1
    else if s[from] == c then from
    else
      assert s[from..] == [s[from]] + s[from + 1..];
      var i := IndexFrom(s, c, from + 1);
      assert i != -1 ==> s[from..i] == [s[from]] + s[from + 1..i];
      i
  }

  /** The unique index that IndexFrom reports. */
  lemma {:induction false} FirstIndex(s: string, c: char, from: nat, j: nat)
    requires from <= j < |s| && s[j] == c && c !in s[from..j]
    ensures IndexFrom(s, c, from) == j
    decreases j - from
  {
    if from < j {
      assert s[from] == s[from..j][0];
      assert s[from + 1..j] == s[from..j][1..];
      FirstIndex(s, c, from + 1, j);
    }
  }

  /** No frame holds a newline. */
  predicate Framed(frames: seq<string>) {
    forall k :: 0 <= k < |frames| ==> NL !in frames[k]
  }

  /** The text that frames and a remainder came from: each frame followed by
      a newline, then the remainder. */
  function Unsplit(frames: seq<string>, rest: string): string {
    if frames == [] then rest else frames[0] + [NL] + Unsplit(frames[1..], rest)
  }

  /** The newline-terminated frames of `s`, without their newline, and the
      unterminated remainder. */
  function Split(s: string): (r: (seq<string>, string))
    ensures Framed(r.0) && NL !in r.1
    ensures Unsplit(r.0, r.1) == s
    decreases |s|
  {
    var i := IndexFrom(s, NL, 0);
    if i == -1 then ([], s)
    else
      var tail := Split(s[i + 1..]);
      assert s == s[..i] + [NL] + s[i + 1..];
      assert ([s[..i]] + tail.0)[1..] == tail.0;
      ([s[..i]] + tail.0, tail.1)
  }

  /** Splitting inverts Unsplit: the framing of a text is unique. */
  lemma {:induction false} SplitUnique(frames: seq<string>, rest: string)
    requires Framed(frames) && NL !in rest
    ensures Split(Unsplit(frames, rest)) == (frames, rest)
    decreases |frames|
  {
    var s := Unsplit(frames, rest);
    if frames == [] {
      assert s[0..] == s;
    } else {
      var f := frames[0];
      var tail := Unsplit(frames[1..], rest);
      assert s == f + [NL] + tail;
      assert s[|f|] == NL;
      assert s[0..|f|] == f;
      FirstIndex(s, NL, 0, |f|);
      var i := |f|;
      assert s[i + 1..] == tail;
      assert s[..i] == f;
      assert Framed(frames[1..]) by {
        forall k | 0 <= k < |frames[1..]| ensures NL !in frames[1..][k] {
          assert frames[1..][k] == frames[k + 1];
        }
      }
      SplitUnique(frames[1..], rest);
      assert [f] + frames[1..] == frames;
    }
  }

  lemma {:induction false} UnsplitAppend(f1: seq<string>, f2: seq<string>, rest: string)
    ensures Unsplit(f1 + f2, rest) == Unsplit(f1, "") + Unsplit(f2, rest)
    decreases |f1|
  {
    if f1 == [] {
      assert f1 + f2 == f2;
    } else {
      assert (f1 + f2)[0] == f1[0];
      assert (f1 + f2)[1..] == f1[1..] + f2;
      UnsplitAppend(f1[1..], f2, rest);
    }
  }

  lemma FramedAppend(f1: seq<string>, f2: seq<string>)
    requires Framed(f1) && Framed(f2)
    ensures Framed(f1 + f2)
  {
    forall k | 0 <= k < |f1 + f2| ensures NL !in (f1 + f2)[k] {
      if k < |f1| { assert (f1 + f2)[k] == f1[k]; } else { assert (f1 + f2)[k] == f2[k - |f1|]; }
    }
  }

  /** Splitting a text in two places: the frames of `a + b` are those of `a`
      followed by those of `a`'s remainder extended with `b`. */
  lemma {:induction false} SplitAppend(a: string, b: string)
    ensures var first := Split(a);
            var second := Split(first.1 + b);
            Split(a + b) == (first.0 + second.0, second.1)
  {
    var first := Split(a);
    var second := Split(first.1 + b);
    UnsplitAppend(first.0, [], first.1);
    assert first.0 + [] == first.0;
    assert Unsplit([], first.1) == first.1;
    UnsplitAppend(first.0, second.0, second.1);
    assert Unsplit(first.0 + second.0, second.1) == a + b;
    FramedAppend(first.0, second.0);
    SplitUnique(first.0 + second.0, second.1);
  }

  /** The concatenation of a sequence of chunks. */
  function Concat(chunks: seq<string>): string {
    if chunks == [] then "" else chunks[0] + Concat(chunks[1..])
  }

  /** Appending a chunk appends its text. */
  lemma {:induction false} ConcatSnoc(chunks: seq<string>, c: string)
    ensures Concat(chunks + [c]) == Concat(chunks) + c
    decreases |chunks|
  {
    if chunks == [] {
      assert chunks + [c] == [c];
    } else {
      assert (chunks + [c])[1..] == chunks[1..] + [c];
      ConcatSnoc(chunks[1..], c);
    }
  }

  /** The frames produced and the buffer left when the data handler receives
      `chunks` one after another, starting from the buffer `buffer`. */
  function FeedAll(buffer: string, chunks: seq<string>): (seq<string>, string)
    decreases |chunks|
  {
    if chunks == [] then ([], buffer)
    else
      var first := Split(buffer + chunks[0]);
      var later := FeedAll(first.1, chunks[1..]);
      (first.0 + later.0, later.1)
  }

  /** Frames do not depend on chunk boundaries: feeding the chunks one by one
      gives what one split of the whole input gives. The chunks are already
      decoded text, so this covers chunks cut at character boundaries only. */
  lemma {:induction false} ChunkBoundaryIndependence(buffer: string, chunks: seq<string>)
    requires NL !in buffer
    ensures FeedAll(buffer, chunks) == Split(buffer + Concat(chunks))
    decreases |chunks|
  {
    if chunks == [] {
      assert buffer + Concat(chunks) == buffer;
      SplitUnique([], buffer);
    } else {
      var c := chunks[0];
      var rest := Concat(chunks[1..]);
      var first := Split(buffer + c);
      var later := FeedAll(first.1, chunks[1..]);
      assert FeedAll(buffer, chunks) == (first.0 + later.0, later.1);
      assert later == Split(first.1 + rest) by {
        ChunkBoundaryIndependence(first.1, chunks[1..]);
      }
      assert Split((buffer + c) + rest) == (first.0 + later.0, later.1) by {
        SplitAppend(buffer + c, rest);
      }
      assert buffer + Concat(chunks) == (buffer + c) + rest;
    }
  }

  /** Any two ways of cutting the same input into chunks yield the same frames
      and the same final buffer. */
  lemma SameInputSameFrames(buffer: string, c1: seq<string>, c2: seq<string>)
    requires NL !in buffer && Concat(c1) == Concat(c2)
    ensures FeedAll(buffer, c1) == FeedAll(buffer, c2)
  {
    ChunkBoundaryIndependence(buffer, c1);
    ChunkBoundaryIndependence(buffer, c2);
  }

  // ---------------------------------------------------------------------------
  // Parsing frames.

  /** Every frame parses. */
  predicate AllParse<M>(parse: string -> Option<M>, frames: seq<string>) {
    forall k :: 0 <= k < |frames| ==> parse(frames[k]).Some?
  }

  /** The messages emitted for `frames` before the first frame that fails to
      parse (JSON.parse throws there, ending the handler). */
  function ParsedPrefix<M>(parse: string -> Option<M>, frames: seq<string>): seq<M> {
    if frames == [] || parse(frames[0]).None? then []
    else [parse(frames[0]).value] + ParsedPrefix(parse, frames[1..])
  }

  lemma {:induction false} ParsedPrefixExtend<M>(parse: string -> Option<M>, done: seq<string>, f: string)
    requires AllParse(parse, done) && parse(f).Some?
    ensures AllParse(parse, done + [f])
    ensures ParsedPrefix(parse, done + [f]) == ParsedPrefix(parse, done) + [parse(f).value]
    decreases |done|
  {
    if done == [] {
      assert done + [f] == [f];
    } else {
      assert (done + [f])[1..] == done[1..] + [f];
      assert AllParse(parse, done[1..]) by {
        forall k | 0 <= k < |done[1..]| ensures parse(done[1..][k]).Some? {
          assert done[1..][k] == done[k + 1];
        }
      }
      ParsedPrefixExtend(parse, done[1..], f);
    }
  }

  lemma {:induction false} ParsedPrefixStops<M>(parse: string -> Option<M>, done: seq<string>, f: string, tail: seq<string>)
    requires AllParse(parse, done) && parse(f).None?
    ensures !AllParse(parse, done + [f] + tail)
    ensures ParsedPrefix(parse, done + [f] + tail) == ParsedPrefix(parse, done)
    decreases |done|
  {
    assert (done + [f] + tail)[|done|] == f;
    if done == [] {
      assert done + [f] + tail == [f] + tail;
    } else {
      assert (done + [f] + tail)[1..] == done[1..] + [f] + tail;
      assert AllParse(parse, done[1..]) by {
        forall k | 0 <= k < |done[1..]| ensures parse(done[1..][k]).Some? {
          assert done[1..][k] == done[k + 1];
        }
      }
      ParsedPrefixStops(parse, done[1..], f, tail);
    }
  }

  /** A text made of one frame and more text splits into that frame and the
      frames of the rest. */
  lemma SplitCons(f: string, r: string)
    requires NL !in f
    ensures Split(f + [NL] + r) == ([f] + Split(r).0, Split(r).1)
  {
    var tail := Split(r);
    var frames := [f] + tail.0;
    assert frames[1..] == tail.0;
    assert Framed(frames) by {
      forall k | 0 <= k < |frames| ensures NL !in frames[k] {
        if k > 0 { assert frames[k] == tail.0[k - 1]; }
      }
    }
    assert Unsplit(frames, tail.1) == f + [NL] + r;
    SplitUnique(frames, tail.1);
  }

  /** `done` are the frames of `s` that end before index `start`. */
  ghost predicate FramesUpTo(s: string, done: seq<string>, start: nat) {
    start <= |s| && Framed(done) && Unsplit(done, "") == s[..start]
  }

  lemma FramesUpToStep(s: string, done: seq<string>, start: nat, i: int)
    requires FramesUpTo(s, done, start) && i == IndexFrom(s, NL, start) && i != -1
    ensures FramesUpTo(s, done + [s[start..i]], i + 1)
  {
    var f := s[start..i];
    UnsplitAppend(done, [f], "");
    assert Unsplit([f], "") == f + [NL] + "";
    assert s[..i + 1] == s[..start] + f + [NL];
    FramedAppend(done, [f]);
  }

  lemma FramesUpToRest(s: string, done: seq<string>, start: nat)
    requires FramesUpTo(s, done, start)
    ensures var later := Split(s[start..]);
            Split(s) == (done + later.0, later.1)
  {
    var later := Split(s[start..]);
    UnsplitAppend(done, later.0, later.1);
    assert s == s[..start] + s[start..];
    FramedAppend(done, later.0);
    SplitUnique(done + later.0, later.1);
  }

  lemma SliceAround(s: string, start: nat, i: nat)
    requires start <= i < |s| && s[i] == NL
    ensures s[start..] == s[start..i] + [NL] + s[i + 1..]
  {
  }

  lemma FramesUpToFound(s: string, done: seq<string>, start: nat, i: int)
    requires FramesUpTo(s, done, start) && i == IndexFrom(s, NL, start) && i != -1
    ensures Split(s).0 == done + [s[start..i]] + Split(s[i + 1..]).0
  {
    var f, r := s[start..i], s[i + 1..];
    assert Split(s).0 == done + Split(s[start..]).0 by {
      FramesUpToRest(s, done, start);
    }
    SliceAround(s, start, i);
    assert Split(f + [NL] + r).0 == [f] + Split(r).0 by {
      SplitCons(f, r);
    }
    assert done + ([f] + Split(r).0) == done + [f] + Split(r).0;
  }

  lemma FramesUpToEnd(s: string, done: seq<string>, start: nat)
    requires FramesUpTo(s, done, start) && IndexFrom(s, NL, start) == -1
    ensures Split(s) == (done, s[start..])
  {
    UnsplitAppend(done, [], s[start..]);
    assert done + [] == done;
    assert s == s[..start] + s[start..];
    SplitUnique(done, s[start..]);
  }

  // ---------------------------------------------------------------------------
  // The line stream.

  /** A message channel over a write-side and a read-side stream. Incoming text
      accumulates in `buffer`; each newline ends a frame, which is parsed and
      emitted as a 'message' event (recorded in `messages`). `written` records
      the chunks written to the write side. The JSON codec is external and is
      given as `serialize`/`parse`. */
  class LineStream<M> {
    const serialize: M -> string
    const parse: string -> Option<M>
    var buffer: string
    var messages: seq<M>
    var written: seq<string>

    /** The framing invariant: the buffer never holds a whole frame. */
    predicate Valid()
      reads this
    {
      NL !in buffer
    }

    constructor (serialize: M -> string, parse: string -> Option<M>)
      ensures Valid()
      ensures this.serialize == serialize && this.parse == parse
      ensures buffer == "" && messages == [] && written == []
    {
      this.serialize := serialize;
      this.parse := parse;
      buffer := "";
      messages := [];
      written := [];
    }

    /** The read side's 'data' handler. It appends the chunk to the buffer and
        emits one message per newline-terminated frame. When a frame fails to
        parse, the handler throws: the messages before it have been emitted
        and the buffer still holds the whole text, old buffer and chunk. */
    method OnData(chunk: string) returns (ok: bool, received: seq<M>)
      modifies this
      ensures var frames := Split(old(buffer) + chunk).0;
              ok == AllParse(parse, frames) && received == ParsedPrefix(parse, frames)
      ensures buffer == if ok then Split(old(buffer) + chunk).1 else old(buffer) + chunk
      ensures ok ==> Valid()
      ensures messages == old(messages) + received
      ensures written == old(written)
    {
      buffer := buffer + chunk;
      var start := 0;
      var i := IndexFrom(buffer, NL, 0);
      received := [];
      ghost var done: seq<string> := [];
      while i != -1
        invariant buffer == old(buffer) + chunk
        invariant FramesUpTo(buffer, done, start) && i == IndexFrom(buffer, NL, start)
        invariant AllParse(parse, done) && received == ParsedPrefix(parse, done)
        invariant messages == old(messages) + received && written == old(written)
        decreases |buffer| - start
      {
        var frame := buffer[start..i];
        var m := parse(frame);
        if m.None? {
          FramesUpToFound(buffer, done, start, i);
          ParsedPrefixStops(parse, done, frame, Split(buffer[i + 1..]).0);
          return false, received;
        }
        ParsedPrefixExtend(parse, done, frame);
        FramesUpToStep(buffer, done, start, i);
        received := received + [m.value];
        messages := messages + [m.value];
        done := done + [frame];
        start := i + 1;
        i := IndexFrom(buffer, NL, start);
      }
      FramesUpToEnd(buffer, done, start);
      buffer := buffer[start..];
      ok := true;
    }

    /** Drops an incomplete frame. */
    method Flush()
      modifies this
      ensures Valid() && buffer == ""
      ensures messages == old(messages) && written == old(written)
    {
      buffer := "";
    }

    /** Writes the serialized message and one newline, in a single write. */
    method Send(m: M)
      modifies this
      ensures written == old(written) + [serialize(m) + [NL]]
      ensures buffer == old(buffer) && messages == old(messages)
    {
      written := written + [serialize(m) + [NL]];
    }
  }

  // ---------------------------------------------------------------------------
  // What a peer receives.

  /** The serializations of a sequence of messages. */
  function Serialized<M>(serialize: M -> string, ms: seq<M>): (r: seq<string>)
    ensures |r| == |ms|
    ensures forall k :: 0 <= k < |ms| ==> r[k] == serialize(ms[k])
  {
    seq(|ms|, k requires 0 <= k < |ms| => serialize(ms[k]))
  }

  /** The text on the wire after sending `ms` in order. */
  function Wire<M>(serialize: M -> string, ms: seq<M>): string {
    if ms == [] then "" else serialize(ms[0]) + [NL] + Wire(serialize, ms[1..])
  }

  /** The codec keeps a message on one line and reads it back. */
  ghost predicate RoundTrips<M>(serialize: M -> string, parse: string -> Option<M>, m: M) {
    NL !in serialize(m) && parse(serialize(m)) == Some(m)
  }

  lemma {:induction false} WireIsUnsplit<M>(serialize: M -> string, ms: seq<M>)
    ensures Wire(serialize, ms) == Unsplit(Serialized(serialize, ms), "")
    decreases |ms|
  {
    if ms != [] {
      WireIsUnsplit(serialize, ms[1..]);
      assert Serialized(serialize, ms)[1..] == Serialized(serialize, ms[1..]);
    }
  }

  lemma {:induction false} ParseSerialized<M>(serialize: M -> string, parse: string -> Option<M>, ms: seq<M>)
    requires forall k :: 0 <= k < |ms| ==> RoundTrips(serialize, parse, ms[k])
    ensures ParsedPrefix(parse, Serialized(serialize, ms)) == ms
    decreases |ms|
  {
    if ms != [] {
      assert RoundTrips(serialize, parse, ms[0]);
      assert Serialized(serialize, ms)[1..] == Serialized(serialize, ms[1..]);
      assert forall k :: 0 <= k < |ms[1..]| ==> ms[1..][k] == ms[k + 1];
      ParseSerialized(serialize, parse, ms[1..]);
    }
  }

  /** Round trip of the channel: whatever chunks the transport cuts the wire
      text into, a peer with an empty buffer emits exactly the sent messages,
      in order, and is left with an empty buffer. */
  lemma PeerReceives<M>(serialize: M -> string, parse: string -> Option<M>, ms: seq<M>, chunks: seq<string>)
    requires forall k :: 0 <= k < |ms| ==> RoundTrips(serialize, parse, ms[k])
    requires Concat(chunks) == Wire(serialize, ms)
    ensures FeedAll("", chunks) == (Serialized(serialize, ms), "")
    ensures ParsedPrefix(parse, Serialized(serialize, ms)) == ms
  {
    ChunkBoundaryIndependence("", chunks);
    assert "" + Concat(chunks) == Wire(serialize, ms);
    WireIsUnsplit(serialize, ms);
    SplitUnique(Serialized(serialize, ms), "");
    ParseSerialized(serialize, parse, ms);
  }

  /** Why `flush` exists: a stale incomplete frame left by a dead peer is
      glued onto the first frame the next peer sends. */
  lemma StaleBufferCorrupts(stale: string, text: string)
    requires stale != "" && NL !in stale && NL !in text
    ensures Split(stale + text + [NL]) == ([stale + text], "")
    ensures Split(stale + text + [NL]).0[0] != text
  {
    assert Unsplit([stale + text], "") == stale + text + [NL];
    SplitUnique([stale + text], "");
  }
}
