/** The helpers of lib/helpers.js: version parsing, the progress tracker,
    object merging and the poll-until-dead process watcher. */
module Helpers {
  import opened Wrappers

  // ---------------------------------------------------------------------------
  // version: `process.version.split(/[^0-9]+/).filter(nonEmpty).map(parseInt)`

  predicate IsDigit(c: char) {
    '0' <= c <= '9'
  }

  predicate AllDigits(s: string) {
    forall k :: 0 <= k < |s| ==> IsDigit(s[k])
  }

  /** `s.split(/[^0-9]+/)`: the pieces between the maximal runs of non-digits;
      the first and last piece are empty when `s` starts or ends with one. A
      digit joins the piece that follows it; a non-digit ends its run, and so
      starts a new piece, unless another non-digit follows. */
  function SplitOnNonDigits(s: string): (pieces: seq<string>)
    ensures |pieces| >= 1
    decreases |s|
  {
    if s == [] then [""]
    else
      var later := SplitOnNonDigits(s[1..]);
      if IsDigit(s[0]) then [[s[0]] + later[0]] + later[1..]
      else if |s| > 1 && !IsDigit(s[1]) then later
      else [""] + later
  }

  /** `pieces.filter(function (val) { return val !== ''; })` */
  function NonEmpty(pieces: seq<string>): (r: seq<string>)
    ensures forall k :: 0 <= k < |r| ==> r[k] != "" && r[k] in pieces
  {
    if pieces == [] then []
    else if pieces[0] == "" then NonEmpty(pieces[1..])
    else [pieces[0]] + NonEmpty(pieces[1..])
  }

  /** `parseInt(d, 10)` for a string of decimal digits. */
  function DecimalValue(d: string): (v: nat)
    requires AllDigits(d)
    ensures v == 0 <==> forall k :: 0 <= k < |d| ==> d[k] == '0'
  {
    if d == [] then 0
    else DecimalValue(d[..|d| - 1]) * 10 + (d[|d| - 1] as int - '0' as int)
  }

  /** The digit characters of `s`, in order. */
  function DigitsOf(s: string): string {
    if s == [] then ""
    else if IsDigit(s[0]) then [s[0]] + DigitsOf(s[1..])
    else DigitsOf(s[1..])
  }

  function Concat(pieces: seq<string>): string {
    if pieces == [] then "" else pieces[0] + Concat(pieces[1..])
  }

  /** The pieces `version` parses. */
  function VersionPieces(s: string): seq<string> {
    NonEmpty(SplitOnNonDigits(s))
  }

  /** Every piece of the split is a run of digits. */
  lemma {:induction false} SplitPiecesAreDigits(s: string)
    ensures forall k :: 0 <= k < |SplitOnNonDigits(s)| ==> AllDigits(SplitOnNonDigits(s)[k])
    decreases |s|
  {
    if s != [] {
      var later := SplitOnNonDigits(s[1..]);
      var p := SplitOnNonDigits(s);
      SplitPiecesAreDigits(s[1..]);
      if IsDigit(s[0]) {
        var first := [s[0]] + later[0];
        assert AllDigits(first) by {
          forall k | 0 <= k < |first|
            ensures IsDigit(first[k])
          {
            if k > 0 {
              assert first[k] == later[0][k - 1];
            }
          }
        }
        forall k | 1 <= k < |p|
          ensures AllDigits(p[k])
        {
          assert p[k] == later[k];
        }
      } else if !(|s| > 1 && !IsDigit(s[1])) {
        forall k | 1 <= k < |p|
          ensures AllDigits(p[k])
        {
          assert p[k] == later[k - 1];
        }
      }
    }
  }

  /** `pieces.map(function (val) { return parseInt(val, 10); })` */
  function Decimals(pieces: seq<string>): (v: seq<nat>)
    requires forall k :: 0 <= k < |pieces| ==> AllDigits(pieces[k])
    ensures |v| == |pieces|
    ensures forall k :: 0 <= k < |pieces| ==> v[k] == DecimalValue(pieces[k])
  {
    if pieces == [] then [] else [DecimalValue(pieces[0])] + Decimals(pieces[1..])
  }

  /** The node version as integers, e.g. "v0.6.17" gives [0, 6, 17]. */
  function Version(s: string): (v: seq<nat>)
    ensures |v| == |VersionPieces(s)|
  {
    var pieces := VersionPieces(s);
    SplitPiecesAreDigits(s);
    assert forall k :: 0 <= k < |pieces| ==> AllDigits(pieces[k]);
    Decimals(pieces)
  }

  lemma {:induction false} ConcatNonEmpty(pieces: seq<string>)
    ensures Concat(NonEmpty(pieces)) == Concat(pieces)
    decreases |pieces|
  {
    if pieces != [] {
      ConcatNonEmpty(pieces[1..]);
    }
  }

  lemma ConcatCons(head: string, tail: seq<string>)
    ensures Concat([head] + tail) == head + Concat(tail)
  {
    assert ([head] + tail)[1..] == tail;
  }

  /** Putting the pieces of the split together gives the digits of the
      string: splitting drops the non-digits and nothing else. */
  lemma {:induction false} SplitKeepsDigits(s: string)
    ensures Concat(SplitOnNonDigits(s)) == DigitsOf(s)
    decreases |s|
  {
    if s == [] {
      ConcatCons("", []);
    } else {
      var later := SplitOnNonDigits(s[1..]);
      SplitKeepsDigits(s[1..]);
      assert Concat(later) == later[0] + Concat(later[1..]);
      if IsDigit(s[0]) {
        ConcatCons([s[0]] + later[0], later[1..]);
      } else if !(|s| > 1 && !IsDigit(s[1])) {
        ConcatCons("", later);
      }
    }
  }

  /** What `version` reads from the string: non-empty runs of digits which,
      put together, are exactly the digits of the string, in order. */
  lemma VersionReadsEveryDigit(s: string)
    ensures forall k :: 0 <= k < |VersionPieces(s)| ==>
              VersionPieces(s)[k] != "" && AllDigits(VersionPieces(s)[k])
    ensures Concat(VersionPieces(s)) == DigitsOf(s)
  {
    SplitPiecesAreDigits(s);
    ConcatNonEmpty(SplitOnNonDigits(s));
    SplitKeepsDigits(s);
  }

  /** A leading run of digits joins the first piece of what follows. */
  lemma {:induction false} SplitDigitsPrefix(d: string, x: string)
    requires AllDigits(d)
    ensures SplitOnNonDigits(d + x) == [d + SplitOnNonDigits(x)[0]] + SplitOnNonDigits(x)[1..]
    decreases |d|
  {
    var sx := SplitOnNonDigits(x);
    if d == [] {
      assert d + x == x && d + sx[0] == sx[0];
      assert [sx[0]] + sx[1..] == sx;
    } else {
      var t := d[1..] + x;
      assert (d + x)[1..] == t && (d + x)[0] == d[0];
      SplitDigitsPrefix(d[1..], x);
      assert [d[0]] + (d[1..] + sx[0]) == d + sx[0];
    }
  }

  /** A run of non-digits before a digit, or before the end, starts a new
      (empty) piece. */
  lemma {:induction false} SplitGap(gap: string, rest: string)
    requires gap != [] && forall k :: 0 <= k < |gap| ==> !IsDigit(gap[k])
    requires rest != [] ==> IsDigit(rest[0])
    ensures SplitOnNonDigits(gap + rest) == [""] + SplitOnNonDigits(rest)
    decreases |gap|
  {
    var s := gap + rest;
    assert s[0] == gap[0];
    if |gap| == 1 {
      assert s[1..] == rest;
      assert |s| > 1 ==> s[1] == rest[0];
    } else {
      assert s[1..] == gap[1..] + rest && s[1] == gap[1];
      SplitGap(gap[1..], rest);
    }
  }

  /** The split of a string laid out as a digit run, a non-digit run and a
      rest that starts with a digit (or is empty). */
  lemma SplitLayout(head: string, gap: string, rest: string)
    requires AllDigits(head)
    requires gap != [] && forall k :: 0 <= k < |gap| ==> !IsDigit(gap[k])
    requires rest != [] ==> IsDigit(rest[0])
    ensures SplitOnNonDigits(head + gap + rest) == [head] + SplitOnNonDigits(rest)
  {
    var later := gap + rest;
    SplitGap(gap, rest);
    var pieces := SplitOnNonDigits(later);
    assert pieces[0] == "" && pieces[1..] == SplitOnNonDigits(rest);
    SplitDigitsPrefix(head, later);
    assert head + gap + rest == head + later;
    assert head + pieces[0] == head;
  }

  /** A leading run of non-digits (the "v" of "v0.6.17") adds nothing. */
  lemma VersionSkipsLeadingNonDigits(gap: string, rest: string)
    requires gap != [] && forall k :: 0 <= k < |gap| ==> !IsDigit(gap[k])
    requires rest != [] ==> IsDigit(rest[0])
    ensures Version(gap + rest) == Version(rest)
  {
    SplitGap(gap, rest);
    var split := SplitOnNonDigits(rest);
    assert ([""] + split)[1..] == split;
  }

  /** Reading one more leading piece gives one more leading integer. */
  lemma VersionCons(s: string, head: string, rest: string)
    requires VersionPieces(s) == [head] + VersionPieces(rest)
    ensures AllDigits(head)
    ensures Version(s) == [DecimalValue(head)] + Version(rest)
  {
    var p, q := VersionPieces(s), VersionPieces(rest);
    VersionReadsEveryDigit(s);
    VersionReadsEveryDigit(rest);
    assert p[0] == head && p[1..] == q;
  }

  /** A digit run followed by non-digits contributes its decimal value and
      the rest is read the same way. */
  lemma VersionReadsRun(head: string, gap: string, rest: string)
    requires head != [] && AllDigits(head)
    requires gap != [] && forall k :: 0 <= k < |gap| ==> !IsDigit(gap[k])
    requires rest != [] ==> IsDigit(rest[0])
    ensures Version(head + gap + rest) == [DecimalValue(head)] + Version(rest)
  {
    SplitLayout(head, gap, rest);
    var split := SplitOnNonDigits(rest);
    assert ([head] + split)[1..] == split;
    VersionCons(head + gap + rest, head, rest);
  }

  /** A string of digits alone reads as its one decimal value. */
  lemma VersionOfRun(d: string)
    requires d != [] && AllDigits(d)
    ensures Version(d) == [DecimalValue(d)]
  {
    SplitDigitsPrefix(d, "");
    assert d + "" == d;
    assert SplitOnNonDigits(d) == [d];
    assert NonEmpty([d]) == [d] by {
      assert [d][1..] == [];
    }
  }

  // ---------------------------------------------------------------------------
  // ProgressTracker: a pending list that runs its callback when emptied.

  /** `list.indexOf(x)`: the first index holding `x`, or -1. */
  function IndexOf<T(==)>(list: seq<T>, x: T): (i: int)
    ensures i == -1 <==> x !in list
    ensures i != -1 ==> 0 <= i < |list| && list[i] == x && x !in list[..i]
  {
    if list == [] then -1
    else if list[0] == x then 0
    else
      var j := IndexOf(list[1..], x);
      assert j != -1 ==> list[..j + 1] == [list[0]] + list[1..][..j];
      if j == -1 then -1 else j + 1
  }

  /** `list.splice(list.indexOf(x), 1)` for an `x` in the list. */
  function RemoveFirst<T(==)>(list: seq<T>, x: T): (r: seq<T>)
    requires x in list
    ensures |r| == |list| - 1
    ensures multiset(r) == multiset(list) - multiset{x}
    ensures exists i :: 0 <= i < |list| && list[i] == x && x !in list[..i] && r == list[..i] + list[i + 1..]
  {
    var i := IndexOf(list, x);
    assert list == list[..i] + [x] + list[i + 1..];
    list[..i] + list[i + 1..]
  }

  /** What `add` is given: one item, or an array whose items
      `Array.prototype.concat` appends one by one. */
  datatype Track<T> = Item(item: T) | Items(items: seq<T>)

  function Tracked<T>(t: Track<T>): seq<T> {
    match t
    case Item(x) => [x]
    case Items(xs) => xs
  }

  /** `calls` counts the runs of the callback. Items are compared with `===`,
      which is value equality for the strings the source tracks. */
  class ProgressTracker<T(==)> {
    var list: seq<T>
    const hasCallback: bool
    var calls: nat

    constructor (hasCallback: bool)
      ensures list == [] && calls == 0 && this.hasCallback == hasCallback
    {
      list := [];
      this.hasCallback := hasCallback;
      calls := 0;
    }

    /** Appends to the end of the list; never runs the callback. */
    method Add(track: Track<T>)
      modifies this
      ensures list == old(list) + Tracked(track)
      ensures calls == old(calls)
    {
      list := list + Tracked(track);
    }

    /** Removes the first occurrence of `what` and then checks; an absent
        `what` changes nothing and runs nothing. */
    method Set(what: T)
      modifies this
      ensures what !in old(list) ==> list == old(list) && calls == old(calls)
      ensures what in old(list) ==>
                list == RemoveFirst(old(list), what) &&
                calls == old(calls) + (if list == [] && hasCallback then 1 else 0)
    {
      var index := IndexOf(list, what);
      if index == -1 {
        return;
      }
      list := list[..index] + list[index + 1..];
      Check();
    }

    /** Runs the callback iff the list is empty and there is a callback. */
    method Check()
      modifies this
      ensures list == old(list)
      ensures calls == old(calls) + (if list == [] && hasCallback then 1 else 0)
    {
      if |list| == 0 && hasCallback {
        calls := calls + 1;
      }
    }
  }

  // ---------------------------------------------------------------------------
  // mergeObject

  /** A plain JavaScript object, updated in place. */
  class JsObject<V> {
    var fields: map<string, V>

    constructor (fields: map<string, V>)
      ensures this.fields == fields
    {
      this.fields := fields;
    }
  }

  /** Copies every enumerable key of `from` into `to`, overwriting, and
      returns `to` itself. */
  method MergeObject<V>(to: JsObject<V>, from: map<string, V>) returns (r: JsObject<V>)
    modifies to
    ensures r == to
    ensures to.fields == old(to.fields) + from
    ensures forall key :: key in from ==> key in to.fields && to.fields[key] == from[key]
    ensures forall key :: key in old(to.fields) && key !in from ==> key in to.fields && to.fields[key] == old(to.fields)[key]
    ensures to.fields.Keys == old(to.fields).Keys + from.Keys
  {
    var pending := from.Keys;
    while pending != {}
      invariant pending <= from.Keys
      invariant to.fields == old(to.fields) + map key | key in from.Keys - pending :: from[key]
      decreases pending
    {
      var key :| key in pending;
      to.fields := to.fields[key := from[key]];
      pending := pending - {key};
    }
    assert from.Keys - pending == from.Keys;
    assert (map key | key in from.Keys :: from[key]) == from;
    return to;
  }

  // ---------------------------------------------------------------------------
  // alive and processWatcher

  /** `alive(pid)`: `process.kill(pid, 0)` succeeds. The operating system's
      answer is the parameter `present`. The model assumes a runtime on which
      `process.kill(null, 0)` throws, so a null pid reads as dead whatever the
      operating system says; a pid reads as alive only when it is present. */
  predicate Alive(pid: Option<int>, present: bool): (r: bool)
    ensures pid.None? ==> !r
    ensures pid.Some? ==> (r <==> present)
  {
    pid.Some? && present
  }

  /** The watcher `processWatcher(pid, callback)` sets up. A pid dead at the
      call queues the callback for the next tick and returns a canceller that
      does nothing; a live pid arms an interval poll. `calls` counts the runs
      of the callback. */
  class ProcessWatcher {
    const pid: Option<int>
    const deadAtCall: bool
    var polling: bool   // the interval is armed
    var deferred: bool  // the next-tick callback is queued
    var calls: nat

    /** The callback runs at most once, and never while it is still due. */
    predicate Valid()
      reads this
    {
      && !(polling && deferred)
      && calls + (if polling || deferred then 1 else 0) <= 1
      && (deadAtCall ==> !polling)
    }

    constructor (pid: Option<int>, present: bool)
      ensures Valid() && this.pid == pid && calls == 0
      ensures deadAtCall == !Alive(pid, present)
      ensures deferred == deadAtCall && polling == !deadAtCall
    {
      this.pid := pid;
      deadAtCall := !Alive(pid, present);
      deferred := !Alive(pid, present);
      polling := Alive(pid, present);
      calls := 0;
    }

    /** The queued next-tick job, if any, runs the callback. */
    method Tick()
      requires Valid()
      modifies this
      ensures Valid()
      ensures calls == old(calls) + (if old(deferred) then 1 else 0)
      ensures !deferred && polling == old(polling)
    {
      if deferred {
        deferred := false;
        calls := calls + 1;
      }
    }

    /** One interval poll, with the operating system's answer `present`: the
        first poll that finds the pid dead clears the interval and runs the
        callback. */
    method Poll(present: bool)
      requires Valid()
      modifies this
      ensures Valid()
      ensures old(polling) && !Alive(pid, present) ==> !polling && calls == old(calls) + 1
      ensures !(old(polling) && !Alive(pid, present)) ==> polling == old(polling) && calls == old(calls)
      ensures deferred == old(deferred)
    {
      if polling && !Alive(pid, present) {
        polling := false;
        calls := calls + 1;
      }
    }

    /** The returned canceller: clears the interval; for a pid dead at the
        call it is a no-op, so the queued callback still runs. */
    method Cancel()
      requires Valid()
      modifies this
      ensures Valid()
      ensures deadAtCall ==> polling == old(polling)
      ensures !deadAtCall ==> !polling
      ensures deferred == old(deferred) && calls == old(calls)
    {
      if !deadAtCall {
        polling := false;
      }
    }
  }

  /** The watcher's callback runs at most once, whatever the order of ticks,
      polls and cancellations. */
  lemma WatcherFiresAtMostOnce(w: ProcessWatcher)
    requires w.Valid()
    ensures w.calls <= 1
    ensures w.calls == 1 ==> !w.polling && !w.deferred
  {
  }
}
