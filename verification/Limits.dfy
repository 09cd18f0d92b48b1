/** The two bounded replay caches of src/limits.rs. */
module Limits {
  import opened Bytes

  function SaturatingSub(a: nat, b: nat): nat {
    if a >= b then a - b else 0
  }

  // ---------------------------------------------------------------- scrollback

  class BoundedBytes {
    const maxBytes: nat
    var bytes: seq<byte>

    ghost predicate Valid()
      reads this
    {
      |bytes| <= maxBytes
    }

    constructor (maxBytes: nat)
      ensures Valid() && this.maxBytes == maxBytes && bytes == []
    {
      this.maxBytes := maxBytes;
      bytes := [];
    }

    method Append(chunk: seq<byte>)
      requires Valid()
      modifies this
      ensures Valid() && bytes == LastN(old(bytes) + chunk, maxBytes)
    {
      if maxBytes == 0 {
        bytes := [];
        return;
      }
      if |chunk| >= maxBytes {
        bytes := [];
        bytes := bytes + chunk[|chunk| - maxBytes..];
        return;
      }
      bytes := bytes + chunk;
      var overflow := SaturatingSub(|bytes|, maxBytes);
      if overflow > 0 {
        bytes := bytes[overflow..];
      }
    }

    method Clear()
      modifies this
      ensures Valid() && bytes == []
    {
      bytes := [];
    }
  }

  // ---------------------------------------------------------------- event ring

  datatype Event = Event(seqNo: nat, bytes: seq<byte>)

  function Total(events: seq<Event>): nat {
    if events == [] then 0 else |events[0].bytes| + Total(events[1..])
  }

  function Flat(events: seq<Event>): seq<byte> {
    if events == [] then [] else events[0].bytes + Flat(events[1..])
  }

  /** What `prune` leaves: events leave at the front until the rest fits. */
  function Keep(events: seq<Event>, max: nat): seq<Event> {
    if Total(events) <= max then events else Keep(events[1..], max)
  }

  /** `kept` is the longest suffix of `events` whose total size fits `max`. */
  ghost predicate LongestFitting(kept: seq<Event>, events: seq<Event>, max: nat) {
    && IsSuffix(kept, events)
    && Total(kept) <= max
    && forall k | 0 <= k < |events| - |kept| :: Total(events[k..]) > max
  }

  lemma {:induction false} KeepIsLongestFitting(events: seq<Event>, max: nat)
    ensures LongestFitting(Keep(events, max), events, max)
  {
    if Total(events) > max {
      KeepIsLongestFitting(events[1..], max);
      assert forall k | 1 <= k < |events| :: events[k..] == events[1..][k - 1..];
    }
  }

  function Truncate(event: Event, max: nat): Event {
    event.(bytes := LastN(event.bytes, max))
  }

  /** The events of a ring after one more `append`. */
  function Appended(max: nat, events: seq<Event>, seqNo: nat, bytes: seq<byte>): seq<Event> {
    if max == 0 then [] else Keep(events + [Truncate(Event(seqNo, bytes), max)], max)
  }

  function After(events: seq<Event>, seqNo: nat): seq<Event> {
    if events == [] then []
    else (if events[0].seqNo > seqNo then [events[0]] else []) + After(events[1..], seqNo)
  }

  class EventRing {
    const maxBytes: nat
    var totalBytes: nat
    var events: seq<Event>

    ghost predicate Valid()
      reads this
    {
      totalBytes == Total(events) <= maxBytes
    }

    constructor (maxBytes: nat)
      ensures Valid() && this.maxBytes == maxBytes && events == []
    {
      this.maxBytes := maxBytes;
      totalBytes := 0;
      events := [];
    }

    method Append(seqNo: nat, bytes: seq<byte>)
      requires Valid()
      modifies this
      ensures Valid() && events == Appended(maxBytes, old(events), seqNo, bytes)
    {
      if maxBytes == 0 {
        events := [];
        totalBytes := 0;
        return;
      }
      var kept := if |bytes| > maxBytes then bytes[|bytes| - maxBytes..] else bytes;
      totalBytes := totalBytes + |kept|;
      TotalConcat(events, [Event(seqNo, kept)]);
      events := events + [Event(seqNo, kept)];
      Prune();
    }

    /** The loop never meets an empty ring, and its subtraction never saturates. */
    method Prune()
      requires totalBytes == Total(events)
      modifies this
      ensures Valid() && events == Keep(old(events), maxBytes)
    {
      while totalBytes > maxBytes
        invariant totalBytes == Total(events)
        invariant Keep(events, maxBytes) == Keep(old(events), maxBytes)
        decreases |events|
      {
        if events == [] {
          assert false;
        }
        var popped := events[0];
        events := events[1..];
        assert totalBytes >= |popped.bytes|;
        totalBytes := SaturatingSub(totalBytes, |popped.bytes|);
      }
    }

    method Bytes() returns (bytes: seq<byte>)
      ensures bytes == Flat(events)
    {
      bytes := [];
      for i := 0 to |events|
        invariant bytes == Flat(events[..i])
      {
        assert events[..i + 1] == events[..i] + [events[i]];
        FlatConcat(events[..i], [events[i]]);
        bytes := bytes + events[i].bytes;
      }
      assert events[..|events|] == events;
    }

    method Clear()
      modifies this
      ensures Valid() && events == []
    {
      events := [];
      totalBytes := 0;
    }
  }

  // ------------------------------------------------------------- basic algebra

  lemma {:induction false} TotalConcat(a: seq<Event>, b: seq<Event>)
    ensures Total(a + b) == Total(a) + Total(b)
  {
    if a == [] {
      assert a + b == b;
    } else {
      assert (a + b)[1..] == a[1..] + b;
      TotalConcat(a[1..], b);
    }
  }

  lemma {:induction false} FlatConcat(a: seq<Event>, b: seq<Event>)
    ensures Flat(a + b) == Flat(a) + Flat(b)
  {
    if a == [] {
      assert a + b == b;
    } else {
      assert (a + b)[1..] == a[1..] + b;
      FlatConcat(a[1..], b);
    }
  }

  lemma {:induction false} FlatLength(a: seq<Event>)
    ensures |Flat(a)| == Total(a)
  {
    if a != [] {
      FlatLength(a[1..]);
    }
  }

  lemma {:induction false} FlatSuffix(kept: seq<Event>, events: seq<Event>)
    requires IsSuffix(kept, events)
    ensures IsSuffix(Flat(kept), Flat(events)) && Total(kept) <= Total(events)
  {
    var front := events[..|events| - |kept|];
    assert events == front + kept;
    FlatConcat(front, kept);
    TotalConcat(front, kept);
  }

  /** There is only one longest fitting suffix. */
  lemma {:induction false} LongestFittingUnique(a: seq<Event>, b: seq<Event>, events: seq<Event>, max: nat)
    requires LongestFitting(a, events, max) && LongestFitting(b, events, max)
    ensures a == b
  {
    assert a == events[|events| - |a|..] && b == events[|events| - |b|..];
  }

  lemma {:induction false} LastEventSurvives(max: nat, events: seq<Event>, seqNo: nat, bytes: seq<byte>)
    requires max > 0
    ensures var r := Appended(max, events, seqNo, bytes);
            r != [] && r[|r| - 1] == Event(seqNo, LastN(bytes, max))
  {
    var all := events + [Truncate(Event(seqNo, bytes), max)];
    var r := Keep(all, max);
    KeepIsLongestFitting(all, max);
    assert all[|all| - 1..] == [all[|all| - 1]];
  }

  // ------------------------------------------------- histories since last clear

  /** The ring after appending the events of `log`, in order, to an empty ring. */
  function RingOf(max: nat, log: seq<Event>): seq<Event> {
    if log == [] then []
    else
      var last := log[|log| - 1];
      Appended(max, RingOf(max, log[..|log| - 1]), last.seqNo, last.bytes)
  }

  /** The scrollback after appending the bytes of `log`, in order, to an empty one. */
  function ScrollOf(max: nat, log: seq<Event>): seq<byte> {
    if log == [] then [] else LastN(ScrollOf(max, log[..|log| - 1]) + log[|log| - 1].bytes, max)
  }

  function Truncated(max: nat, log: seq<Event>): seq<Event> {
    if log == [] then [] else Truncated(max, log[..|log| - 1]) + [Truncate(log[|log| - 1], max)]
  }

  /** The scrollback is the last `max` bytes of everything appended. */
  lemma {:induction false} ScrollIsTailOfStream(max: nat, log: seq<Event>)
    ensures ScrollOf(max, log) == LastN(Flat(log), max)
  {
    if log != [] {
      var front, last := log[..|log| - 1], log[|log| - 1];
      ScrollIsTailOfStream(max, front);
      LastNOfLastN(Flat(front), last.bytes, max);
      assert log == front + [last];
      FlatConcat(front, [last]);
      assert Flat([last]) == last.bytes;
    }
  }

  /** Pruning early and pruning late leave the same events. */
  lemma {:induction false} KeepAfterKeep(events: seq<Event>, last: Event, max: nat)
    requires |last.bytes| <= max
    ensures Keep(Keep(events, max) + [last], max) == Keep(events + [last], max)
    decreases |events|
  {
    if Total(events) > max {
      KeepAfterKeep(events[1..], last, max);
      TotalConcat(events, [last]);
      assert (events + [last])[1..] == events[1..] + [last];
    }
  }

  /** The ring is the longest suffix of the truncated appends that fits the cap. */
  lemma {:induction false} RingIsLongestFittingSuffix(max: nat, log: seq<Event>)
    requires max > 0
    ensures RingOf(max, log) == Keep(Truncated(max, log), max)
    ensures LongestFitting(RingOf(max, log), Truncated(max, log), max)
  {
    KeepIsLongestFitting(Truncated(max, log), max);
    if log != [] {
      var front, last := log[..|log| - 1], log[|log| - 1];
      RingIsLongestFittingSuffix(max, front);
      KeepAfterKeep(Truncated(max, front), Truncate(last, max), max);
    }
  }

  /** Even with truncated events in it, the ring is one contiguous end of the stream. */
  lemma {:induction false} RingBytesAreStreamSuffix(max: nat, log: seq<Event>)
    ensures IsSuffix(Flat(RingOf(max, log)), Flat(log))
  {
    if log != [] && max > 0 {
      var front, last := log[..|log| - 1], log[|log| - 1];
      RingBytesAreStreamSuffix(max, front);
      assert log == front + [last];
      FlatConcat(front, [last]);
      assert Flat([last]) == last.bytes;
      AppendKeepsSuffix(max, RingOf(max, front), Flat(front), last.seqNo, last.bytes);
    }
  }

  lemma {:induction false} KeepFits(events: seq<Event>, max: nat)
    ensures IsSuffix(Keep(events, max), events) && Total(Keep(events, max)) <= max
  {
    KeepIsLongestFitting(events, max);
  }

  lemma {:induction false} AppendKeepsSuffix(max: nat, events: seq<Event>, stream: seq<byte>, seqNo: nat,
                                             bytes: seq<byte>)
    requires IsSuffix(Flat(events), stream)
    ensures var r := Appended(max, events, seqNo, bytes);
            IsSuffix(Flat(r), stream + bytes) && Total(r) <= max
  {
    if max > 0 {
      var t := Truncate(Event(seqNo, bytes), max);
      var r := Keep(events + [t], max);
      KeepFits(events + [t], max);
      FlatOfAppended(events, t);
      FlatSuffix(r, events + [t]);
      FlatLength(r);
      hide Keep, Flat, Total;
      CutAtCap(Flat(r), Flat(events), stream, bytes, max);
    }
  }

  lemma {:induction false} FlatOfAppended(events: seq<Event>, last: Event)
    ensures Flat(events + [last]) == Flat(events) + last.bytes
  {
    FlatConcat(events, [last]);
    assert Flat([last]) == last.bytes;
  }

  /** A short end of `front` plus the last bytes of `bytes` is an end of the stream plus `bytes`. */
  lemma {:induction false} CutAtCap(end: seq<byte>, front: seq<byte>, stream: seq<byte>, bytes: seq<byte>, max: nat)
    requires IsSuffix(front, stream) && |end| <= max && IsSuffix(end, front + LastN(bytes, max))
    ensures IsSuffix(end, stream + bytes)
  {
    var last := LastN(bytes, max);
    EndIsSuffix(front, last);
    LastNIsSuffix(stream, bytes, max);
    if |bytes| <= max {
      SuffixAppend(front, stream, bytes);
      SuffixTransitive(end, front + last, stream + bytes);
    } else {
      SuffixesNest(end, last, front + last);
      SuffixTransitive(end, last, stream + bytes);
    }
  }

  /** With the default order of the caps, the event ring repeats the end of the scrollback. */
  lemma {:induction false} RingWithinScrollback(scrollCap: nat, ringCap: nat, log: seq<Event>)
    requires ringCap <= scrollCap
    ensures IsSuffix(Flat(RingOf(ringCap, log)), ScrollOf(scrollCap, log))
  {
    ScrollIsTailOfStream(scrollCap, log);
    RingBytesAreStreamSuffix(ringCap, log);
    RingFits(ringCap, log);
    FlatLength(RingOf(ringCap, log));
    SuffixesNest(Flat(RingOf(ringCap, log)), LastN(Flat(log), scrollCap), Flat(log));
  }

  lemma {:induction false} RingFits(max: nat, log: seq<Event>)
    ensures Total(RingOf(max, log)) <= max
  {
    if log != [] && max > 0 {
      var last := log[|log| - 1];
      KeepIsLongestFitting(RingOf(max, log[..|log| - 1]) + [Truncate(last, max)], max);
    }
  }

  // ------------------------------------------------------------ sequence numbers

  predicate Increasing(events: seq<Event>) {
    forall i, j | 0 <= i < j < |events| :: events[i].seqNo < events[j].seqNo
  }

  /** `after` of an increasing ring cuts the ring at one place. */
  lemma {:induction false} AfterIsSuffix(events: seq<Event>, seqNo: nat)
    requires Increasing(events)
    ensures IsSuffix(After(events, seqNo), events)
    ensures forall i | 0 <= i < |events| - |After(events, seqNo)| :: events[i].seqNo <= seqNo
    ensures forall e | e in After(events, seqNo) :: e in events && e.seqNo > seqNo
  {
    if events != [] {
      if events[0].seqNo > seqNo {
        AllAfter(events, seqNo);
      } else {
        var rest := After(events[1..], seqNo);
        AfterIsSuffix(events[1..], seqNo);
        assert After(events, seqNo) == rest;
        hide After;
        SuffixTransitive(rest, events[1..], events);
        forall i | 0 <= i < |events| - |rest|
          ensures events[i].seqNo <= seqNo
        {
          if i > 0 {
            assert events[1..][i - 1].seqNo <= seqNo;
          }
        }
      }
    }
  }

  lemma {:induction false} AllAfter(events: seq<Event>, seqNo: nat)
    requires forall i | 0 <= i < |events| :: events[i].seqNo > seqNo
    ensures After(events, seqNo) == events
  {
    if events != [] {
      AllAfter(events[1..], seqNo);
    }
  }

  lemma {:induction false} AppendKeepsIncreasing(max: nat, events: seq<Event>, seqNo: nat, bytes: seq<byte>)
    requires Increasing(events) && forall i | 0 <= i < |events| :: events[i].seqNo < seqNo
    ensures Increasing(Appended(max, events, seqNo, bytes))
    ensures forall i | 0 <= i < |Appended(max, events, seqNo, bytes)| ::
              var e := Appended(max, events, seqNo, bytes)[i];
              e in events || e == Truncate(Event(seqNo, bytes), max)
  {
    var last := Truncate(Event(seqNo, bytes), max);
    var r := Appended(max, events, seqNo, bytes);
    if max > 0 {
      KeepIsLongestFitting(events + [last], max);
    }
    SuffixOfIncreasing(r, events, last);
  }

  lemma {:induction false} SuffixOfIncreasing(part: seq<Event>, events: seq<Event>, last: Event)
    requires Increasing(events) && forall i | 0 <= i < |events| :: events[i].seqNo < last.seqNo
    requires part == [] || IsSuffix(part, events + [last])
    ensures Increasing(part)
    ensures forall i | 0 <= i < |part| :: part[i] in events || part[i] == last
  {
    if part != [] {
      var d := |events| + 1 - |part|;
      assert forall i | 0 <= i < |part| :: part[i] == (events + [last])[d + i];
    }
  }
}
