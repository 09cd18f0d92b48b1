/** Whole runs of the key-release filter: any mix of output, input and flushes. */
module BridgeRuns {
  import opened Bytes
  import opened Ascii
  import opened CsiU
  import opened ResetDetector
  import opened BridgeFilter

  datatype Op = Observe(bytes: seq<byte>, at: nat) | Input(bytes: seq<byte>, at: nat) | Flush(at: nat)

  ghost function StepFilter(f: Filter, op: Op): Filter {
    match op
    case Observe(bytes, at) => Observing(f, bytes, at)
    case Input(bytes, at) => Filtering(f, bytes, at).filter
    case Flush(_) => Flushing(f).filter
  }

  /** What one operation does to the bytes on their way in. */
  function TraceOf(f: Filter, op: Op): Trace {
    match op
    case Observe(_, _) => Rest(f.pending)
    case Input(bytes, at) => Filtering(f, bytes, at).trace
    case Flush(_) => Flushing(f).trace
  }

  ghost function After(ops: seq<Op>): Filter {
    if ops == [] then NewFilter else StepFilter(After(ops[..|ops| - 1]), ops[|ops| - 1])
  }

  /** The trace of the k-th operation of a run. */
  ghost function TraceAt(ops: seq<Op>, k: nat): Trace
    requires k < |ops|
  {
    TraceOf(After(ops[..k]), ops[k])
  }

  ghost function WholeTrace(ops: seq<Op>): Trace {
    if ops == [] then Rest([])
    else Join(WholeTrace(ops[..|ops| - 1]), TraceOf(After(ops[..|ops| - 1]), ops[|ops| - 1]))
  }

  function OpInput(op: Op): seq<byte> {
    if op.Input? then op.bytes else []
  }

  function Inputs(ops: seq<Op>): seq<byte> {
    if ops == [] then [] else Inputs(ops[..|ops| - 1]) + OpInput(ops[|ops| - 1])
  }

  /** Everything sent on to the shell. */
  ghost function Outputs(ops: seq<Op>): seq<byte> {
    if ops == [] then []
    else Outputs(ops[..|ops| - 1]) + Emitted(TraceOf(After(ops[..|ops| - 1]), ops[|ops| - 1]))
  }

  /** The output chunks observed so far. */
  function Observed(ops: seq<Op>): seq<seq<byte>> {
    if ops == [] then []
    else Observed(ops[..|ops| - 1]) + if ops[|ops| - 1].Observe? then [ops[|ops| - 1].bytes] else []
  }

  /** The k-th operation observes output that completes a keyboard-mode reset. */
  ghost predicate Armed(ops: seq<Op>, k: int) {
    0 <= k < |ops| && ops[k].Observe? && ResetEndsInChunk(Concat(Observed(ops[..k])), ops[k].bytes)
  }

  predicate Clock(ops: seq<Op>) {
    forall i, j | 0 <= i <= j < |ops| :: ops[i].at <= ops[j].at
  }

  predicate HasDrop(trace: Trace) {
    trace.Then? && (trace.token.Drop? || HasDrop(trace.more))
  }

  predicate DropsOnlyReleases(trace: Trace) {
    trace.Then? ==> (trace.token.Drop? ==> IsReleaseSequence(trace.token.bytes)) && DropsOnlyReleases(trace.more)
  }

  // ------------------------------------------------------------------ conservation

  lemma {:induction false} ScanConserves(input: seq<byte>)
    ensures Consumed(Scan(input)) == input
    ensures DropsOnlyReleases(Scan(input))
    decreases |input|
  {
    hide Classify;
    if input != [] && Classify(input) != Incomplete {
      ClassifyMeaning(input);
      var n := TokenLength(input);
      ScanConserves(input[n..]);
      assert input == input[..n] + input[n..];
    }
  }

  lemma {:induction false} FreshConserves(f: Filter, bytes: seq<byte>, at: nat)
    ensures var o := FilteringFresh(f, bytes, at);
            && WellFormed(o.filter) && Pending(o.trace) == o.filter.pending
            && Consumed(o.trace) == f.pending + bytes && DropsOnlyReleases(o.trace)
  {
    var input := f.pending + bytes;
    if WindowOpen(f, at) {
      ScanConserves(input);
    } else {
      assert Consumed(Rest([])) == [] && input + [] == input;
    }
  }

  lemma {:induction false} OpConserves(f: Filter, op: Op)
    requires WellFormed(f)
    ensures WellFormed(StepFilter(f, op))
    ensures Pending(TraceOf(f, op)) == StepFilter(f, op).pending
    ensures Consumed(TraceOf(f, op)) == f.pending + OpInput(op)
    ensures DropsOnlyReleases(TraceOf(f, op))
  {
    hide FilteringFresh;
    match op
    case Observe(_, _) =>
      assert f.pending + [] == f.pending;
    case Flush(_) =>
      assert Consumed(Rest([])) == [];
    case Input(bytes, at) =>
      FreshConserves(f, bytes, at);
      FreshConserves(f.(pending := [], pendingUntil := None), bytes, at);
      assert [] + bytes == bytes;
  }

  lemma {:induction false} JoinConserves(first: Trace, second: Trace, input: seq<byte>)
    requires Consumed(second) == Pending(first) + input
    requires DropsOnlyReleases(first) && DropsOnlyReleases(second)
    ensures Consumed(Join(first, second)) == Consumed(first) + input
    ensures DropsOnlyReleases(Join(first, second))
  {
    if first.Then? {
      JoinConserves(first.more, second, input);
      Regroup(first.token.bytes, Consumed(first.more), input);
    }
  }

  /**
   * The bytes typed so far are, in order, the bytes sent on, whole dropped release
   * reports, and the pending bytes.
   */
  lemma {:induction false} Conservation(ops: seq<Op>)
    ensures Consumed(WholeTrace(ops)) == Inputs(ops)
    ensures Emitted(WholeTrace(ops)) == Outputs(ops)
    ensures Pending(WholeTrace(ops)) == After(ops).pending
    ensures DropsOnlyReleases(WholeTrace(ops))
    ensures WellFormed(After(ops))
  {
    if ops != [] {
      var front, last := ops[..|ops| - 1], ops[|ops| - 1];
      Conservation(front);
      ConservationStep(WholeTrace(front), After(front), last);
    }
  }

  lemma {:induction false} ConservationStep(whole: Trace, f: Filter, op: Op)
    requires WellFormed(f) && Pending(whole) == f.pending && DropsOnlyReleases(whole)
    ensures var joined := Join(whole, TraceOf(f, op));
            && Consumed(joined) == Consumed(whole) + OpInput(op)
            && Emitted(joined) == Emitted(whole) + Emitted(TraceOf(f, op))
            && Pending(joined) == StepFilter(f, op).pending
            && DropsOnlyReleases(joined) && WellFormed(StepFilter(f, op))
  {
    hide TraceOf, StepFilter;
    OpConserves(f, op);
    JoinConserves(whole, TraceOf(f, op), OpInput(op));
    JoinMeaning(whole, TraceOf(f, op));
  }

  // -------------------------------------------------------------------- the window

  lemma {:induction false} OutputPendingFollows(ops: seq<Op>)
    ensures After(ops).outputPending == PendingAfter(Observed(ops))
  {
    if ops != [] {
      var front, last := ops[..|ops| - 1], ops[|ops| - 1];
      OutputPendingFollows(front);
      if last.Observe? {
        assert Observed(ops)[..|Observed(ops)| - 1] == Observed(front);
      } else {
        assert Observed(ops) == Observed(front);
        FilteringKeepsOutputPending(After(front), last);
      }
    }
  }

  lemma {:induction false} FilteringKeepsOutputPending(f: Filter, op: Op)
    requires !op.Observe?
    ensures StepFilter(f, op).outputPending == f.outputPending
    ensures StepFilter(f, op).staleReleaseUntil ==
            if op.Input? && !WindowOpen(f, op.at) then None else f.staleReleaseUntil
  {
  }

  lemma {:induction false} ArmedInFront(front: seq<Op>, last: Op, k: int)
    requires 0 <= k < |front|
    ensures Armed(front + [last], k) <==> Armed(front, k)
  {
    assert (front + [last])[..k] == front[..k];
  }

  lemma {:induction false} ArmedLast(front: seq<Op>, last: Op)
    ensures Armed(front + [last], |front|) <==>
            last.Observe? && ContainsReset(After(front).outputPending + last.bytes)
  {
    assert (front + [last])[..|front|] == front;
    OutputPendingFollows(front);
    if last.Observe? {
      ArmsExactly(Observed(front), last.bytes);
    }
  }

  /** The deadline is that of some armed reset, and no later armed reset still runs without it. */
  ghost predicate WindowInvariant(ops: seq<Op>, until: Option<nat>) {
    && (until.Some? ==> exists k :: Armed(ops, k) && until.value == ops[k].at + STALE_KEY_RELEASE_SUPPRESSION)
    && (forall k | Armed(ops, k) && ops[|ops| - 1].at <= ops[k].at + STALE_KEY_RELEASE_SUPPRESSION ::
          until.Some? && until.value >= ops[k].at + STALE_KEY_RELEASE_SUPPRESSION)
  }

  /** One more call sets the deadline if it is armed; otherwise it leaves it or finds it run out. */
  lemma {:induction false} DeadlineStep(front: seq<Op>, last: Op)
    ensures var ops := front + [last];
            var until := After(front).staleReleaseUntil;
            var next := StepFilter(After(front), last).staleReleaseUntil;
            if Armed(ops, |front|) then next == Some(last.at + STALE_KEY_RELEASE_SUPPRESSION)
            else next == until || (next == None && (until.Some? ==> until.value < last.at))
  {
    hide ResetEndsInChunk, ContainsReset, ResetTail, Filtering;
    ArmedLast(front, last);
    if !last.Observe? {
      FilteringKeepsOutputPending(After(front), last);
    }
  }

  lemma {:induction false} WindowStep(front: seq<Op>, last: Op)
    requires Clock(front + [last]) && WindowInvariant(front, After(front).staleReleaseUntil)
    ensures WindowInvariant(front + [last], StepFilter(After(front), last).staleReleaseUntil)
  {
    var ops := front + [last];
    DeadlineStep(front, last);
    var until := After(front).staleReleaseUntil;
    var next := StepFilter(After(front), last).staleReleaseUntil;
    hide ResetEndsInChunk, StepFilter, Concat, Observed;
    if next.Some? && !Armed(ops, |front|) {
      var k :| Armed(front, k) && until.value == front[k].at + STALE_KEY_RELEASE_SUPPRESSION;
      ArmedLater(front, last, k);
    }
    forall k | Armed(ops, k) && last.at <= ops[k].at + STALE_KEY_RELEASE_SUPPRESSION
      ensures next.Some? && next.value >= ops[k].at + STALE_KEY_RELEASE_SUPPRESSION
    {
      ArmedBefore(front, last, k);
    }
  }

  lemma {:induction false} ArmedLater(front: seq<Op>, last: Op, k: int)
    requires Armed(front, k)
    ensures 0 <= k < |front| && Armed(front + [last], k) && (front + [last])[k] == front[k]
  {
    ArmedInFront(front, last, k);
  }

  lemma {:induction false} ArmedBefore(front: seq<Op>, last: Op, k: int)
    requires Clock(front + [last]) && Armed(front + [last], k)
    ensures 0 <= k <= |front| && (front + [last])[k].at <= last.at
    ensures k < |front| ==> Armed(front, k) && (front + [last])[k] == front[k] && front[|front| - 1].at <= last.at
  {
    hide ResetEndsInChunk;
    var ops := front + [last];
    assert ops[k].at <= ops[|front|].at;
    if k < |front| {
      ArmedInFront(front, last, k);
      assert ops[|front| - 1].at <= ops[|front|].at && ops[|front| - 1] == front[|front| - 1];
    }
  }

  lemma {:induction false} WindowFollows(ops: seq<Op>)
    requires Clock(ops)
    ensures WindowInvariant(ops, After(ops).staleReleaseUntil)
  {
    hide WindowInvariant, StepFilter;
    if ops == [] {
      WindowStart();
    } else {
      var front, last := ops[..|ops| - 1], ops[|ops| - 1];
      assert ops == front + [last];
      WindowFollows(front);
      WindowStep(front, last);
    }
  }

  lemma {:induction false} WindowStart()
    ensures WindowInvariant([], After([]).staleReleaseUntil)
  {
    assert forall k: int :: !Armed([], k);
  }

  /** An armed reset was observed at most 500 ms before `now`. */
  ghost predicate InWindow(ops: seq<Op>, now: nat) {
    exists k :: Armed(ops, k) && now <= ops[k].at + 500_000_000
  }

  /** The window is open exactly within 500 ms of some observed reset. */
  lemma {:induction false} WindowExactly(ops: seq<Op>, now: nat)
    requires Clock(ops) && forall i | 0 <= i < |ops| :: ops[i].at <= now
    ensures WindowOpen(After(ops), now) <==> InWindow(ops, now)
  {
    WindowFollows(ops);
    WindowMeaning(ops, After(ops).staleReleaseUntil, now);
  }

  lemma {:induction false} WindowMeaning(ops: seq<Op>, until: Option<nat>, now: nat)
    requires forall i | 0 <= i < |ops| :: ops[i].at <= now
    requires WindowInvariant(ops, until)
    ensures (until.Some? && now <= until.value) <==>
            exists k :: Armed(ops, k) && now <= ops[k].at + STALE_KEY_RELEASE_SUPPRESSION
  {
    hide ResetEndsInChunk;
  }

  lemma {:induction false} ClosedWindowDropsNothing(f: Filter, op: Op)
    requires op.Input? ==> !WindowOpen(f, op.at)
    ensures !HasDrop(TraceOf(f, op))
  {
    assert !HasDrop(Rest([])) && !HasDrop(Rest(f.pending));
    assert op.Input? ==>
        !HasDrop(Then(Pass([] + op.bytes), Rest([]))) && !HasDrop(Then(Pass(f.pending + op.bytes), Rest([])));
  }

  /** Every dropped report was typed at most 500 ms after an observed reset. */
  lemma {:induction false} DropsFollowResets(ops: seq<Op>, k: nat)
    requires Clock(ops) && k < |ops| && HasDrop(TraceAt(ops, k))
    ensures ops[k].Input?
    ensures exists j :: j < k && Armed(ops, j) && ops[j].at <= ops[k].at <= ops[j].at + 500_000_000
  {
    var front := ops[..k];
    if !ops[k].Input? || !WindowOpen(After(front), ops[k].at) {
      ClosedWindowDropsNothing(After(front), ops[k]);
    }
    assert forall i, j | 0 <= i <= j < k :: front[i] == ops[i] && front[j] == ops[j];
    WindowExactly(front, ops[k].at);
    var j :| Armed(front, j) && ops[k].at <= front[j].at + 500_000_000;
    assert ops[..j] == front[..j];
    assert Armed(ops, j);
  }

  // ------------------------------------------------------------------ every input call

  function LastInput(ops: seq<Op>): Option<nat> {
    if ops == [] then None
    else if ops[|ops| - 1].Input? then Some(ops[|ops| - 1].at)
    else LastInput(ops[..|ops| - 1])
  }

  /** Whatever is pending was put aside by the last input call, for 20 ms. */
  lemma {:induction false} PendingSince(ops: seq<Op>)
    ensures After(ops).pending == [] <==> After(ops).pendingUntil.None?
    ensures After(ops).pending != [] ==>
            LastInput(ops).Some? && After(ops).pendingUntil == Some(LastInput(ops).value + 20_000_000)
  {
    if ops != [] {
      var front, last := ops[..|ops| - 1], ops[|ops| - 1];
      PendingSince(front);
      if last.Input? {
        DeadlineIs(After(front), last.bytes, last.at);
      }
    }
  }

  /** The pending bytes that a call at `at` takes along: all of them for 20 ms, then none. */
  ghost function Carried(ops: seq<Op>, at: nat): seq<byte> {
    if LastInput(ops).Some? && at < LastInput(ops).value + 20_000_000 then After(ops).pending else []
  }

  /** The pending bytes that have waited too long at `at`. */
  ghost function Overdue(ops: seq<Op>, at: nat): seq<byte> {
    if LastInput(ops).Some? && at < LastInput(ops).value + 20_000_000 then [] else After(ops).pending
  }

  lemma {:induction false} FreshEmits(f: Filter, bytes: seq<byte>, at: nat)
    ensures var o := FilteringFresh(f, bytes, at);
            var input := f.pending + bytes;
            && Emitted(o.trace) == (if WindowOpen(f, at) then Kept(input, 0) else input)
            && o.filter.pending == if WindowOpen(f, at) then input[UnfinishedFrom(input, 0)..] else []
  {
    hide Scan, Kept, UnfinishedFrom;
    var input := f.pending + bytes;
    ScanIsPositionwise(input);
    assert Emitted(Rest([])) == [] && input + [] == input;
  }

  /**
   * Every input call of every run: overdue bytes come out first; then, within 500 ms of an armed
   * reset, all that lies in no release report, up to an unfinished one, and otherwise everything.
   */
  lemma {:induction false} InputExactly(ops: seq<Op>, k: nat)
    requires Clock(ops) && k < |ops| && ops[k].Input?
    ensures var front, at := ops[..k], ops[k].at;
            var input := Carried(front, at) + ops[k].bytes;
            && Emitted(TraceAt(ops, k)) ==
               Overdue(front, at) + (if InWindow(front, at) then Kept(input, 0) else input)
            && After(ops[..k + 1]).pending == if InWindow(front, at) then input[UnfinishedFrom(input, 0)..] else []
  {
    hide Armed, Kept, UnfinishedFrom, FilteringFresh;
    var front, at, f := ops[..k], ops[k].at, After(ops[..k]);
    assert ops[..k + 1][..k] == front && ops[..k + 1][k] == ops[k];
    assert forall i, j | 0 <= i <= j < k :: front[i] == ops[i] && front[j] == ops[j];
    WindowExactly(front, at);
    PendingSince(front);
    var g := if PendingExpired(f, at) then f.(pending := [], pendingUntil := None) else f;
    FreshEmits(g, ops[k].bytes, at);
    assert g.pending == Carried(front, at);
    assert f.pending == [] ==> [] + Emitted(FilteringFresh(g, ops[k].bytes, at).trace) ==
                               Emitted(FilteringFresh(g, ops[k].bytes, at).trace);
  }

  /** Without an observed reset the filter passes every byte on at once. */
  lemma {:induction false} NoResetIsIdentity(ops: seq<Op>)
    requires forall k :: !Armed(ops, k)
    ensures Outputs(ops) == Inputs(ops)
    ensures After(ops).pending == [] && After(ops).staleReleaseUntil == None
  {
    if ops != [] {
      var front, last := ops[..|ops| - 1], ops[|ops| - 1];
      assert ops == front + [last];
      forall k
        ensures !Armed(front, k)
      {
        if 0 <= k < |front| {
          ArmedInFront(front, last, k);
        }
      }
      NoResetIsIdentity(front);
      ArmedLast(front, last);
      assert Emitted(TraceOf(After(front), last)) == OpInput(last) by {
        PassThrough(After(front), last);
      }
    }
  }

  lemma {:induction false} PassThrough(f: Filter, op: Op)
    requires f.pending == [] && f.staleReleaseUntil == None
    ensures Emitted(TraceOf(f, op)) == OpInput(op)
    ensures op.Observe? || (StepFilter(f, op).pending == [] && StepFilter(f, op).staleReleaseUntil == None)
  {
    if op.Input? {
      assert [] + op.bytes + [] == op.bytes;
    }
  }

  // ---------------------------------------------------------------------- splicing

  const RELEASE: seq<byte> := [ESC, BRACKET, 49, SEMICOLON, 49, COLON, THREE, LETTER_U]

  /**
   * "The emitted bytes hold no release report" is false: dropping one report can join
   * its neighbours into a new one.
   */
  lemma {:induction false} DroppingCanSplice()
    ensures IsReleaseSequence(RELEASE)
    ensures Emitted(Scan(RELEASE[..3] + RELEASE + RELEASE[3..])) == RELEASE
  {
    var params: seq<byte> := [49, SEMICOLON, 49, COLON, THREE];
    ShapeIsRelease(params, [49], [49], []);
    assert RELEASE[2..7] == params;
    var input := RELEASE[..3] + RELEASE + RELEASE[3..];
    Spliced(input);
  }

  lemma {:induction false} SpliceTokens(input: seq<byte>)
    requires input == RELEASE[..3] + RELEASE + RELEASE[3..] && IsReleaseSequence(RELEASE)
    ensures Classify(input) == NotCsiU && Classify(input[3..]) == Release(8)
    ensures forall k | (1 <= k < 3 || 11 <= k < 16) :: input[k] != ESC
  {
    hide IsReleaseSequence;
    ParamEndUnique(input, 2, 3);
    assert input[3..][..8] == RELEASE;
    SequenceIsFound(input[3..], 8);
  }

  lemma {:induction false} Spliced(input: seq<byte>)
    requires input == RELEASE[..3] + RELEASE + RELEASE[3..] && IsReleaseSequence(RELEASE)
    ensures Emitted(Scan(input)) == RELEASE
  {
    hide IsReleaseSequence, Classify, TokenLength, FirstToken, Scan;
    SpliceTokens(input);
    assert input[0..] == input;
    ScanStep(input, 0);
    PlainBytes(input, 1, 3);
    ScanStep(input, 3);
    PlainBytes(input, 11, 16);
    assert input[16..] == [];
    EmptyScan();
    assert RELEASE == [ESC] + (input[1..3] + (input[11..16] + []));
  }

  /** Bytes that are no escape pass one by one. */
  lemma {:induction false} PlainBytes(input: seq<byte>, i: nat, j: nat)
    requires i <= j <= |input| && forall k | i <= k < j :: input[k] != ESC
    ensures Emitted(Scan(input[i..])) == input[i..j] + Emitted(Scan(input[j..]))
    decreases j - i
  {
    hide Classify, TokenLength, FirstToken;
    if i < j {
      PlainBytes(input, i + 1, j);
      ScanStep(input, i);
      assert input[i..][0] == input[i];
      assert input[i..j] == [input[i]] + input[i + 1..j];
      Regroup([input[i]], input[i + 1..j], Emitted(Scan(input[j..])));
    }
  }
}
