/**
 * Replay buffers across a hot upgrade: the old daemon writes the scrollback and
 * the event ring to files, the new one appends each file to a fresh buffer.
 */
module ReplayUpgrade {
  import opened Bytes
  import opened Ascii
  import opened Limits

  datatype Caps = Caps(scroll: nat, ring: nat)

  /** The replay part of a ShellState. */
  datatype Replay = Replay(seqNo: nat, scroll: seq<byte>, ring: seq<Event>)

  const Empty := Replay(0, [], [])

  datatype Op = Output(bytes: seq<byte>) | Upgrade

  /** The replay part of `record_output`. */
  function Record(caps: Caps, r: Replay, bytes: seq<byte>): Replay {
    Replay(r.seqNo + 1, LastN(r.scroll + bytes, caps.scroll), Appended(caps.ring, r.ring, r.seqNo + 1, bytes))
  }

  /** What `adopt` builds from the two files; one that cannot be read leaves its cache empty. */
  function Adopted(caps: Caps, scrollFile: Option<seq<byte>>, eventsFile: Option<seq<byte>>): Replay {
    Replay(0,
           if scrollFile.None? then [] else LastN(scrollFile.value, caps.scroll),
           if eventsFile.None? then [] else Appended(caps.ring, [], 0, eventsFile.value))
  }

  function Step(caps: Caps, r: Replay, op: Op): Replay {
    match op
    case Output(bytes) => Record(caps, r, bytes)
    case Upgrade => Adopted(caps, Some(r.scroll), Some(Flat(r.ring)))
  }

  function Run(caps: Caps, ops: seq<Op>): Replay {
    if ops == [] then Empty else Step(caps, Run(caps, ops[..|ops| - 1]), ops[|ops| - 1])
  }

  /** The same outputs with every upgrade left out. */
  function WithoutUpgrades(ops: seq<Op>): seq<Op> {
    if ops == [] then []
    else
      var last := ops[|ops| - 1];
      WithoutUpgrades(ops[..|ops| - 1]) + if last.Output? then [last] else []
  }

  /** All bytes output over a run. */
  function Stream(ops: seq<Op>): seq<byte> {
    if ops == [] then []
    else
      var last := ops[|ops| - 1];
      Stream(ops[..|ops| - 1]) + if last.Output? then last.bytes else []
  }

  method Adopt(caps: Caps, scrollFile: Option<seq<byte>>, eventsFile: Option<seq<byte>>)
    returns (scroll: BoundedBytes, ring: EventRing)
    ensures fresh(scroll) && fresh(ring) && scroll.Valid() && ring.Valid()
    ensures scroll.maxBytes == caps.scroll && ring.maxBytes == caps.ring
    ensures Replay(0, scroll.bytes, ring.events) == Adopted(caps, scrollFile, eventsFile)
    ensures scroll.bytes == if scrollFile.None? then [] else LastN(scrollFile.value, caps.scroll)
    ensures ring.events == if eventsFile.None? || caps.ring == 0 then []
                           else [Event(0, LastN(eventsFile.value, caps.ring))]
  {
    OneEventRing(caps.ring, eventsFile);
    scroll := new BoundedBytes(caps.scroll);
    if scrollFile.Some? {
      scroll.Append(scrollFile.value);
      assert [] + scrollFile.value == scrollFile.value;
    }
    ring := new EventRing(caps.ring);
    if eventsFile.Some? {
      ring.Append(0, eventsFile.value);
    }
  }

  lemma {:induction false} OneEventRing(cap: nat, file: Option<seq<byte>>)
    ensures file.Some? ==>
            Appended(cap, [], 0, file.value) == if cap == 0 then [] else [Event(0, LastN(file.value, cap))]
  {
    if file.Some? && cap > 0 {
      var one := [Event(0, LastN(file.value, cap))];
      assert [] + one == one && one[1..] == [];
      assert Total(one) == |LastN(file.value, cap)|;
    }
  }

  /** The outputs since the last upgrade, or all of them. */
  function SinceUpgrade(ops: seq<Op>): nat {
    if ops == [] || ops[|ops| - 1].Upgrade? then 0 else SinceUpgrade(ops[..|ops| - 1]) + 1
  }

  /** Events are numbered by the outputs since the last upgrade, the adopted one by 0. */
  lemma {:induction false} RunNumbersEvents(caps: Caps, ops: seq<Op>)
    ensures var r := Run(caps, ops);
            && r.seqNo == SinceUpgrade(ops) && Increasing(r.ring)
            && (forall i | 0 <= i < |r.ring| :: r.ring[i].seqNo <= r.seqNo)
            && (caps.ring > 0 && ops != [] ==> r.ring != [] && r.ring[|r.ring| - 1].seqNo == r.seqNo)
  {
    hide Appended, Flat, LastN;
    if ops != [] {
      var front, last := ops[..|ops| - 1], ops[|ops| - 1];
      RunNumbersEvents(caps, front);
      var r := Run(caps, front);
      if last.Output? {
        AppendKeepsIncreasing(caps.ring, r.ring, r.seqNo + 1, last.bytes);
        if caps.ring > 0 {
          LastEventSurvives(caps.ring, r.ring, r.seqNo + 1, last.bytes);
        }
      } else {
        OneEventRing(caps.ring, Some(Flat(r.ring)));
      }
    }
  }

  // ------------------------------------------------------------------- cut points

  /** `x` bytes before the end there is an event boundary. */
  predicate IsCut(events: seq<Event>, x: nat) {
    x == Total(events) || (events != [] && IsCut(events[1..], x))
  }

  lemma {:induction false} CutBound(events: seq<Event>, x: nat)
    requires IsCut(events, x)
    ensures x <= Total(events)
  {
    if x != Total(events) {
      CutBound(events[1..], x);
    }
  }

  lemma {:induction false} CutAfterAppend(events: seq<Event>, last: Event, x: nat)
    ensures IsCut(events + [last], x) <==>
            x == 0 || (x >= |last.bytes| && IsCut(events, x - |last.bytes|))
  {
    TotalConcat(events, [last]);
    if events == [] {
      assert events + [last] == [last];
      assert IsCut([last][1..], x) <==> x == 0;
    } else {
      assert (events + [last])[1..] == events[1..] + [last];
      CutAfterAppend(events[1..], last, x);
    }
  }

  lemma {:induction false} CutAfterKeep(events: seq<Event>, max: nat, x: nat)
    ensures IsCut(Keep(events, max), x) <==> IsCut(events, x) && x <= max
  {
    if Total(events) > max {
      CutAfterKeep(events[1..], max, x);
    } else if IsCut(events, x) {
      CutBound(events, x);
    }
  }

  /** Every boundary of `a` is one of `b`: `a` groups the same bytes more coarsely. */
  ghost predicate Coarser(a: seq<Event>, b: seq<Event>) {
    forall x: nat | IsCut(a, x) :: IsCut(b, x)
  }

  lemma {:induction false} AppendKeepsCoarser(max: nat, a: seq<Event>, b: seq<Event>, i: nat, j: nat, bytes: seq<byte>)
    requires Coarser(a, b)
    ensures Coarser(Appended(max, a, i, bytes), Appended(max, b, j, bytes))
  {
    if max > 0 {
      var s, t := Truncate(Event(i, bytes), max), Truncate(Event(j, bytes), max);
      forall x: nat | IsCut(Keep(a + [s], max), x)
        ensures IsCut(Keep(b + [t], max), x)
      {
        CutAfterKeep(a + [s], max, x);
        CutAfterAppend(a, s, x);
        CutAfterAppend(b, t, x);
        CutAfterKeep(b + [t], max, x);
      }
    }
  }

  // ------------------------------------------------------------------ main results

  /** A replay state that agrees with the byte stream it was built from. */
  ghost predicate Follows(caps: Caps, r: Replay, stream: seq<byte>) {
    && r.scroll == LastN(stream, caps.scroll)
    && IsSuffix(Flat(r.ring), stream)
    && Total(r.ring) <= caps.ring
  }

  lemma {:induction false} StepFollows(caps: Caps, r: Replay, op: Op, stream: seq<byte>)
    requires Follows(caps, r, stream)
    ensures Follows(caps, Step(caps, r, op), stream + if op.Output? then op.bytes else [])
  {
    match op
    case Output(bytes) =>
      LastNOfLastN(stream, bytes, caps.scroll);
      AppendKeepsSuffix(caps.ring, r.ring, stream, r.seqNo + 1, bytes);
    case Upgrade =>
      CoalescedRing(caps, r);
      assert stream + [] == stream;
  }

  lemma {:induction false} RunFollowsStream(caps: Caps, ops: seq<Op>)
    ensures Follows(caps, Run(caps, ops), Stream(ops))
  {
    if ops != [] {
      RunFollowsStream(caps, ops[..|ops| - 1]);
      StepFollows(caps, Run(caps, ops[..|ops| - 1]), ops[|ops| - 1], Stream(ops[..|ops| - 1]));
    }
  }

  /** An upgrade turns a ring that fits its cap into one event with the same bytes. */
  lemma {:induction false} CoalescedRing(caps: Caps, r: Replay)
    requires Total(r.ring) <= caps.ring
    ensures var adopted := Adopted(caps, Some(r.scroll), Some(Flat(r.ring)));
            && adopted.ring == (if caps.ring == 0 then [] else [Event(0, Flat(r.ring))])
            && Flat(adopted.ring) == Flat(r.ring) && Total(adopted.ring) == Total(r.ring)
            && Coarser(adopted.ring, r.ring)
  {
    FlatLength(r.ring);
    var one := [Event(0, Flat(r.ring))];
    assert one[1..] == [] && Flat(one) == Flat(r.ring) + Flat([]);
    assert Flat(one) == Flat(r.ring) && Total(one) == |Flat(r.ring)|;
    assert [] + one == one;
    ZeroIsCut(r.ring);
    if caps.ring > 0 {
      forall x: nat | IsCut(one, x)
        ensures IsCut(r.ring, x)
      {
        if x != Total(one) {
          assert one[1..] == [] && IsCut([], x);
        } else {
          assert x == Total(r.ring);
        }
      }
    }
  }

  lemma {:induction false} ZeroIsCut(events: seq<Event>)
    ensures IsCut(events, 0)
  {
    if events != [] {
      ZeroIsCut(events[1..]);
    }
  }

  lemma {:induction false} PlainRunSteps(caps: Caps, front: seq<Op>, last: Op)
    ensures WithoutUpgrades(front + [last]) == WithoutUpgrades(front) + if last.Output? then [last] else []
    ensures Run(caps, front + [last]) == Step(caps, Run(caps, front), last)
    ensures Stream(front + [last]) == Stream(front) + if last.Output? then last.bytes else []
  {
    assert (front + [last])[..|front|] == front;
  }

  lemma {:induction false} SameStream(ops: seq<Op>)
    ensures Stream(WithoutUpgrades(ops)) == Stream(ops)
  {
    if ops != [] {
      var front, last := ops[..|ops| - 1], ops[|ops| - 1];
      SameStream(front);
      if last.Output? {
        assert (WithoutUpgrades(front) + [last])[..|WithoutUpgrades(front)|] == WithoutUpgrades(front);
      } else {
        assert WithoutUpgrades(ops) == WithoutUpgrades(front);
      }
    }
  }

  lemma {:induction false} UpgradesOnlyCoarsen(caps: Caps, ops: seq<Op>)
    ensures Coarser(Run(caps, ops).ring, Run(caps, WithoutUpgrades(ops)).ring)
  {
    if ops != [] {
      var front, last := ops[..|ops| - 1], ops[|ops| - 1];
      assert ops == front + [last];
      UpgradesOnlyCoarsen(caps, front);
      RunFollowsStream(caps, front);
      PlainRunSteps(caps, front, last);
      PlainRunSteps(caps, WithoutUpgrades(front), last);
      assert last.Upgrade? ==> WithoutUpgrades(ops) == WithoutUpgrades(front);
      StepCoarsens(caps, Run(caps, front), Run(caps, WithoutUpgrades(front)), last);
    }
  }

  lemma {:induction false} StepCoarsens(caps: Caps, r: Replay, plain: Replay, op: Op)
    requires Coarser(r.ring, plain.ring)
    requires Total(r.ring) <= caps.ring
    ensures Coarser(Step(caps, r, op).ring, (if op.Output? then Step(caps, plain, op) else plain).ring)
  {
    match op
    case Output(bytes) =>
      AppendKeepsCoarser(caps.ring, r.ring, plain.ring, r.seqNo + 1, plain.seqNo + 1, bytes);
    case Upgrade =>
      CoalescedRing(caps, r);
  }

  /**
   * Any number of upgrades at any points of a run change nothing in the scrollback
   * and can only shorten the bytes of the event ring at their old end.
   */
  lemma {:induction false} HotUpgradeRefinement(caps: Caps, ops: seq<Op>)
    ensures Run(caps, ops).scroll == Run(caps, WithoutUpgrades(ops)).scroll
    ensures IsSuffix(Flat(Run(caps, ops).ring), Flat(Run(caps, WithoutUpgrades(ops)).ring))
  {
    var plain := WithoutUpgrades(ops);
    RunFollowsStream(caps, ops);
    RunFollowsStream(caps, plain);
    UpgradesOnlyCoarsen(caps, ops);
    SameStream(ops);
    var a, b := Run(caps, ops).ring, Run(caps, plain).ring;
    assert IsCut(a, Total(a));
    CutBound(b, Total(a));
    FlatLength(a);
    FlatLength(b);
    SuffixesNest(Flat(a), Flat(b), Stream(ops));
  }

  // ----------------------------------------------------- when an upgrade shortens the ring

  /** The run goes on from `r`. */
  function RunOn(caps: Caps, r: Replay, ops: seq<Op>): Replay {
    if ops == [] then r else Step(caps, RunOn(caps, r, ops[..|ops| - 1]), ops[|ops| - 1])
  }

  /** A non-empty end of `ring`, cut between two events, fits beside `s` further bytes. */
  ghost predicate EndFits(ring: seq<Event>, s: nat, cap: nat) {
    exists y: nat :: 0 < y && y + s <= cap && IsCut(ring, y)
  }

  predicate OnlyOutputs(ops: seq<Op>) {
    forall i | 0 <= i < |ops| :: ops[i].Output?
  }

  lemma {:induction false} RunInTwoParts(caps: Caps, a: seq<Op>, b: seq<Op>)
    ensures Run(caps, a + b) == RunOn(caps, Run(caps, a), b)
  {
    if b == [] {
      assert a + b == a;
    } else {
      assert (a + b)[..|a + b| - 1] == a + b[..|b| - 1];
      RunInTwoParts(caps, a, b[..|b| - 1]);
    }
  }

  lemma {:induction false} CutAfterRecord(caps: Caps, r: Replay, bytes: seq<byte>, x: nat)
    requires x > 0
    ensures var t := |LastN(bytes, caps.ring)|;
            IsCut(Record(caps, r, bytes).ring, x) <==> x <= caps.ring && x >= t && IsCut(r.ring, x - t)
  {
    if caps.ring > 0 {
      var t := Truncate(Event(r.seqNo + 1, bytes), caps.ring);
      CutAfterKeep(r.ring + [t], caps.ring, x);
      CutAfterAppend(r.ring, t, x);
    }
  }

  /** After more outputs the boundaries are those between the outputs, and the old ones that still fit. */
  lemma {:induction false} CutAfterOutputs(caps: Caps, r: Replay, outs: seq<Op>, x: nat)
    requires Total(r.ring) <= caps.ring && OnlyOutputs(outs)
    ensures var s := |Stream(outs)|;
            IsCut(RunOn(caps, r, outs).ring, x) <==>
            || IsCut(RunOn(caps, Empty, outs).ring, x)
            || (x > s && x <= caps.ring && IsCut(r.ring, x - s))
  {
    ZeroIsCut(RunOn(caps, r, outs).ring);
    ZeroIsCut(RunOn(caps, Empty, outs).ring);
    if outs == [] {
      if IsCut(r.ring, x) {
        CutBound(r.ring, x);
      }
    } else if x > 0 {
      var front, last := outs[..|outs| - 1], outs[|outs| - 1];
      var t := |LastN(last.bytes, caps.ring)|;
      CutAfterRecord(caps, RunOn(caps, r, front), last.bytes, x);
      CutAfterRecord(caps, RunOn(caps, Empty, front), last.bytes, x);
      hide IsCut, Step, LastN;
      LastNLength(last.bytes, caps.ring);
      if x >= t {
        CutAfterOutputs(caps, r, front, x - t);
      }
    }
  }

  lemma {:induction false} LastNLength(bytes: seq<byte>, n: nat)
    ensures |LastN(bytes, n)| == if |bytes| <= n then |bytes| else n
  {
  }

  /** The outputs alone leave no more in the ring than they are. */
  lemma {:induction false} OutputsBound(caps: Caps, outs: seq<Op>, x: nat)
    requires IsCut(RunOn(caps, Empty, outs).ring, x)
    ensures x <= |Stream(outs)|
  {
    RunInTwoParts(caps, [], outs);
    assert [] + outs == outs;
    RunFollowsStream(caps, outs);
    CutBound(Run(caps, outs).ring, x);
    FlatLength(Run(caps, outs).ring);
  }

  /**
   * Outputs after an upgrade find the ring shorter than without it exactly when the old ring
   * as a whole no longer fits beside them, while a part at its end would.
   */
  lemma {:induction false} UpgradeShortensExactly(caps: Caps, ops: seq<Op>, outs: seq<Op>)
    requires OnlyOutputs(outs)
    ensures var ring, s := Run(caps, ops).ring, |Stream(outs)|;
            Flat(Run(caps, ops + [Upgrade] + outs).ring) != Flat(Run(caps, ops + outs).ring) <==>
            Total(ring) + s > caps.ring && EndFits(ring, s, caps.ring)
  {
    var r := Run(caps, ops);
    RunFollowsStream(caps, ops);
    RunInTwoParts(caps, ops, [Upgrade]);
    assert RunOn(caps, r, [Upgrade]) == Step(caps, RunOn(caps, r, []), Upgrade);
    RunInTwoParts(caps, ops + [Upgrade], outs);
    RunInTwoParts(caps, ops, outs);
    SameBytesBySize(caps, ops, outs);
    if Total(UpgradedRing(caps, r, outs)) != Total(PlainRing(caps, r, outs)) {
      EndFitsWhenDiffer(caps, r, outs);
    } else if Total(r.ring) + |Stream(outs)| > caps.ring && EndFits(r.ring, |Stream(outs)|, caps.ring) {
      DifferWhenEndFits(caps, r, outs);
    }
  }

  /** The rings of both runs end the same stream, so only their sizes can differ. */
  lemma {:induction false} SameBytesBySize(caps: Caps, ops: seq<Op>, outs: seq<Op>)
    ensures var a, b := Run(caps, ops + [Upgrade] + outs).ring, Run(caps, ops + outs).ring;
            Flat(a) == Flat(b) <==> Total(a) == Total(b)
  {
    var a, b := Run(caps, ops + [Upgrade] + outs).ring, Run(caps, ops + outs).ring;
    RunFollowsStream(caps, ops + [Upgrade] + outs);
    RunFollowsStream(caps, ops + outs);
    StreamOfParts(ops + [Upgrade], outs);
    StreamOfParts(ops, [Upgrade]);
    StreamOfParts(ops, outs);
    assert Stream([Upgrade]) == [] && Stream(ops) + [] == Stream(ops);
    FlatLength(a);
    FlatLength(b);
  }

  lemma {:induction false} StreamOfParts(a: seq<Op>, b: seq<Op>)
    ensures Stream(a + b) == Stream(a) + Stream(b)
  {
    if b == [] {
      assert a + b == a;
    } else {
      assert (a + b)[..|a + b| - 1] == a + b[..|b| - 1];
      StreamOfParts(a, b[..|b| - 1]);
    }
  }

  /** The ring after an upgrade and more outputs. */
  function UpgradedRing(caps: Caps, r: Replay, outs: seq<Op>): seq<Event> {
    RunOn(caps, Step(caps, r, Upgrade), outs).ring
  }

  function PlainRing(caps: Caps, r: Replay, outs: seq<Op>): seq<Event> {
    RunOn(caps, r, outs).ring
  }

  lemma {:induction false} CoalescedCut(caps: Caps, r: Replay, y: nat)
    requires Total(r.ring) <= caps.ring && y > 0
    ensures IsCut(Step(caps, r, Upgrade).ring, y) <==> y == Total(r.ring)
  {
    CoalescedRing(caps, r);
    var one := Step(caps, r, Upgrade).ring;
    assert one != [] ==> one[1..] == [];
    assert !IsCut([], y);
  }

  lemma {:induction false} UpgradedDropsOld(caps: Caps, r: Replay, outs: seq<Op>)
    requires OnlyOutputs(outs) && Total(r.ring) <= caps.ring && Total(r.ring) + |Stream(outs)| > caps.ring
    ensures Total(UpgradedRing(caps, r, outs)) <= |Stream(outs)|
  {
    var up, s, z := Step(caps, r, Upgrade), |Stream(outs)|, Total(UpgradedRing(caps, r, outs));
    CoalescedRing(caps, r);
    CutAfterOutputs(caps, up, outs, z);
    hide RunOn, Stream, Step;
    assert IsCut(UpgradedRing(caps, r, outs), z);
    if z > s {
      CoalescedCut(caps, r, z - s);
      OutputsBoundIfCut(caps, outs, z);
    }
  }

  lemma {:induction false} OutputsBoundIfCut(caps: Caps, outs: seq<Op>, x: nat)
    ensures IsCut(RunOn(caps, Empty, outs).ring, x) ==> x <= |Stream(outs)|
  {
    if IsCut(RunOn(caps, Empty, outs).ring, x) {
      OutputsBound(caps, outs, x);
    }
  }

  lemma {:induction false} UpgradedKeepsOld(caps: Caps, r: Replay, outs: seq<Op>)
    requires OnlyOutputs(outs) && 0 < Total(r.ring) <= caps.ring && Total(r.ring) + |Stream(outs)| <= caps.ring
    ensures Total(UpgradedRing(caps, r, outs)) >= |Stream(outs)| + Total(r.ring)
  {
    var up, x := Step(caps, r, Upgrade), |Stream(outs)| + Total(r.ring);
    CoalescedRing(caps, r);
    CutAfterOutputs(caps, up, outs, x);
    CoalescedCut(caps, r, Total(r.ring));
    hide RunOn, Stream, Step, IsCut;
    CutBound(UpgradedRing(caps, r, outs), x);
  }

  lemma {:induction false} PlainKeepsEnd(caps: Caps, r: Replay, outs: seq<Op>, y: nat)
    requires OnlyOutputs(outs) && Total(r.ring) <= caps.ring
    requires 0 < y && y + |Stream(outs)| <= caps.ring && IsCut(r.ring, y)
    ensures Total(PlainRing(caps, r, outs)) >= |Stream(outs)| + y
  {
    CutAfterOutputs(caps, r, outs, |Stream(outs)| + y);
    hide RunOn, Stream, Step, IsCut;
    CutBound(PlainRing(caps, r, outs), |Stream(outs)| + y);
  }

  lemma {:induction false} UpgradedIsNotLarger(caps: Caps, r: Replay, outs: seq<Op>)
    requires OnlyOutputs(outs) && Total(r.ring) <= caps.ring
    ensures Total(UpgradedRing(caps, r, outs)) <= Total(PlainRing(caps, r, outs))
  {
    var up, s, z := Step(caps, r, Upgrade), |Stream(outs)|, Total(UpgradedRing(caps, r, outs));
    CoalescedRing(caps, r);
    CutAfterOutputs(caps, up, outs, z);
    CutAfterOutputs(caps, r, outs, z);
    assert IsCut(UpgradedRing(caps, r, outs), z) && IsCut(r.ring, Total(r.ring));
    if z > s {
      CoalescedCut(caps, r, z - s);
    }
    CutBound(PlainRing(caps, r, outs), z);
  }

  lemma {:induction false} LargerKeepsEnd(caps: Caps, r: Replay, outs: seq<Op>)
    requires OnlyOutputs(outs) && Total(r.ring) <= caps.ring
    requires Total(UpgradedRing(caps, r, outs)) < Total(PlainRing(caps, r, outs))
    ensures var y := Total(PlainRing(caps, r, outs)) - |Stream(outs)|;
            0 < y <= Total(r.ring) && y + |Stream(outs)| <= caps.ring && IsCut(r.ring, y)
  {
    var up, s, x := Step(caps, r, Upgrade), |Stream(outs)|, Total(PlainRing(caps, r, outs));
    CoalescedRing(caps, r);
    CutAfterOutputs(caps, up, outs, x);
    CutAfterOutputs(caps, r, outs, x);
    assert IsCut(PlainRing(caps, r, outs), x);
    NoLargerCut(UpgradedRing(caps, r, outs), x);
    assert x > s && IsCut(r.ring, x - s);
    CutBound(r.ring, x - s);
  }

  lemma {:induction false} NoLargerCut(events: seq<Event>, x: nat)
    requires x > Total(events)
    ensures !IsCut(events, x)
  {
    if IsCut(events, x) {
      CutBound(events, x);
    }
  }

  lemma {:induction false} DifferWhenEndFits(caps: Caps, r: Replay, outs: seq<Op>)
    requires OnlyOutputs(outs) && Total(r.ring) <= caps.ring
    requires Total(r.ring) + |Stream(outs)| > caps.ring && EndFits(r.ring, |Stream(outs)|, caps.ring)
    ensures Total(UpgradedRing(caps, r, outs)) != Total(PlainRing(caps, r, outs))
  {
    hide UpgradedRing, PlainRing;
    var y: nat :| 0 < y && y + |Stream(outs)| <= caps.ring && IsCut(r.ring, y);
    PlainKeepsEnd(caps, r, outs, y);
    UpgradedDropsOld(caps, r, outs);
  }

  lemma {:induction false} EndFitsWhenDiffer(caps: Caps, r: Replay, outs: seq<Op>)
    requires OnlyOutputs(outs) && Total(r.ring) <= caps.ring
    requires Total(UpgradedRing(caps, r, outs)) != Total(PlainRing(caps, r, outs))
    ensures Total(r.ring) + |Stream(outs)| > caps.ring && EndFits(r.ring, |Stream(outs)|, caps.ring)
  {
    hide UpgradedRing, PlainRing;
    UpgradedIsNotLarger(caps, r, outs);
    LargerKeepsEnd(caps, r, outs);
    var y: nat := Total(PlainRing(caps, r, outs)) - |Stream(outs)|;
    assert 0 < y && y + |Stream(outs)| <= caps.ring && IsCut(r.ring, y);
    if Total(r.ring) + |Stream(outs)| <= caps.ring {
      UpgradedKeepsOld(caps, r, outs);
    }
  }

  /** The ring can really lose bytes: the coalesced event leaves as a whole. */
  lemma {:induction false} UpgradeCanShortenRing()
    ensures var caps := Caps(10, 3);
            var r := Record(caps, Record(caps, Empty, [1]), [2, 3]);
            && Flat(Step(caps, r, Output([4])).ring) == [2, 3, 4]
            && Flat(Step(caps, Step(caps, r, Upgrade), Output([4])).ring) == [4]
  {
    var caps := Caps(10, 3);
    var r := Record(caps, Record(caps, Empty, [1]), [2, 3]);
    var e1, e2, e3, e4, e0 := Event(1, [1]), Event(2, [2, 3]), Event(3, [4]), Event(1, [4]), Event(0, [1, 2, 3]);
    Sums(e1, e2, e3);
    Sums(e0, e4, e4);
    assert r.ring == [e1, e2] by {
      assert [] + [e1] == [e1] && [e1] + [e2] == [e1, e2];
    }
    assert Step(caps, r, Output([4])).ring == [e2, e3] by {
      assert [e1, e2] + [e3] == [e1, e2, e3] && [e1, e2, e3][1..] == [e2, e3];
      assert Total([e2, e3]) == 3 && Keep([e2, e3], 3) == [e2, e3];
      assert Total([e1, e2, e3]) == 4 && Keep([e1, e2, e3], 3) == [e2, e3];
    }
    CoalescedRing(caps, r);
    assert Step(caps, Step(caps, r, Upgrade), Output([4])).ring == [e4] by {
      assert [e0] + [e4] == [e0, e4] && [e0, e4][1..] == [e4];
      assert Total([e4]) == 1 && Keep([e4], 3) == [e4];
      assert Total([e0, e4]) == 4 && Keep([e0, e4], 3) == [e4];
    }
  }

  lemma {:induction false} Sums(a: Event, b: Event, c: Event)
    ensures Total([a]) == |a.bytes| && Flat([a]) == a.bytes
    ensures Total([b]) == |b.bytes| && Flat([b]) == b.bytes
    ensures Total([a, b]) == |a.bytes| + |b.bytes| && Flat([a, b]) == a.bytes + b.bytes
    ensures Total([b, c]) == |b.bytes| + |c.bytes| && Flat([b, c]) == b.bytes + c.bytes
    ensures Total([a, b, c]) == |a.bytes| + |b.bytes| + |c.bytes|
    ensures [a, b][1..] == [b] && [a, b, c][1..] == [b, c]
  {
    assert Total([c]) == |c.bytes| && Flat([c]) == c.bytes;
    assert [b, c][1..] == [c] && [a, b, c][1..] == [b, c] && [a, b][1..] == [b];
  }
}
