/** `BridgeInputFilter`: dropping stale key releases from a stream of input chunks. */
module BridgeFilter {
  import opened Bytes
  import opened Ascii
  import opened CsiU
  import opened ResetDetector

  // Instants and durations are in nanoseconds.
  const STALE_KEY_RELEASE_SUPPRESSION: nat := 500_000_000
  const PENDING_CSI_TIMEOUT: nat := 20_000_000

  datatype Token = Pass(bytes: seq<byte>) | Drop(bytes: seq<byte>)

  /** Tokens in order, and what is still undecided after the last of them. */
  datatype Trace = Rest(pending: seq<byte>) | Then(token: Token, more: Trace)

  /** The tokens of `input`, and the unfinished report at its end. */
  function Scan(input: seq<byte>): Trace
    decreases |input|
  {
    if input == [] || Classify(input) == Incomplete then Rest(input)
    else Then(FirstToken(input), Scan(input[TokenLength(input)..]))
  }

  function TokenLength(input: seq<byte>): (n: nat)
    requires input != []
    ensures 1 <= n <= |input|
  {
    match Classify(input)
    case Release(len) => len
    case Other(len) => len
    case _ => 1
  }

  function FirstToken(input: seq<byte>): Token
    requires input != []
  {
    var bytes := input[..TokenLength(input)];
    if Classify(input).Release? then Drop(bytes) else Pass(bytes)
  }

  function Emitted(trace: Trace): seq<byte> {
    match trace
    case Rest(_) => []
    case Then(Pass(bytes), more) => bytes + Emitted(more)
    case Then(Drop(_), more) => Emitted(more)
  }

  function Pending(trace: Trace): seq<byte> {
    match trace
    case Rest(pending) => pending
    case Then(_, more) => Pending(more)
  }

  /** Everything that went in: passed, dropped and still pending. */
  function Consumed(trace: Trace): seq<byte> {
    match trace
    case Rest(pending) => pending
    case Then(token, more) => token.bytes + Consumed(more)
  }

  /** `second` takes over where `first` stopped. */
  function Join(first: Trace, second: Trace): Trace {
    match first
    case Rest(_) => second
    case Then(token, more) => Then(token, Join(more, second))
  }

  // ------------------------------------------------------------------ the filter

  datatype Filter = Filter(
    staleReleaseUntil: Option<nat>,
    pending: seq<byte>,
    pendingUntil: Option<nat>,
    outputPending: seq<byte>)

  const NewFilter := Filter(None, [], None, [])

  datatype Outcome = Outcome(filter: Filter, trace: Trace)

  predicate WellFormed(f: Filter) {
    f.pending == [] <==> f.pendingUntil.None?
  }

  predicate PendingExpired(f: Filter, now: nat) {
    f.pending != [] && (f.pendingUntil.Some? ==> now >= f.pendingUntil.value)
  }

  predicate WindowOpen(f: Filter, now: nat) {
    f.staleReleaseUntil.Some? && now <= f.staleReleaseUntil.value
  }

  ghost function Observing(f: Filter, bytes: seq<byte>, now: nat): Filter {
    var input := f.outputPending + bytes;
    f.(outputPending := ResetTail(input),
       staleReleaseUntil := if ContainsReset(input) then Some(now + STALE_KEY_RELEASE_SUPPRESSION)
                            else f.staleReleaseUntil)
  }

  function Flushing(f: Filter): Outcome {
    Outcome(f.(pending := [], pendingUntil := None), Then(Pass(f.pending), Rest([])))
  }

  function Filtering(f: Filter, bytes: seq<byte>, now: nat): Outcome {
    if PendingExpired(f, now) then
      var rest := FilteringFresh(f.(pending := [], pendingUntil := None), bytes, now);
      rest.(trace := Then(Pass(f.pending), rest.trace))
    else FilteringFresh(f, bytes, now)
  }

  /** `filter_input` once expired pending bytes are out of the way. */
  function FilteringFresh(f: Filter, bytes: seq<byte>, now: nat): Outcome {
    var input := f.pending + bytes;
    if !WindowOpen(f, now) then
      Outcome(f.(staleReleaseUntil := None, pending := [], pendingUntil := None), Then(Pass(input), Rest([])))
    else
      var trace := Scan(input);
      var pending := Pending(trace);
      Outcome(f.(pending := pending,
                 pendingUntil := if pending == [] then None else Some(now + PENDING_CSI_TIMEOUT)),
              trace)
  }

  class BridgeInputFilter {
    var staleReleaseUntil: Option<nat>
    var pending: seq<byte>
    var pendingUntil: Option<nat>
    var outputPending: seq<byte>

    ghost function Abs(): Filter
      reads this
    {
      Filter(staleReleaseUntil, pending, pendingUntil, outputPending)
    }

    constructor ()
      ensures Abs() == NewFilter
    {
      staleReleaseUntil, pending, pendingUntil, outputPending := None, [], None, [];
    }

    method ObserveOutput(bytes: seq<byte>, now: nat)
      modifies this
      ensures Abs() == Observing(old(Abs()), bytes, now)
    {
      var input := outputPending + bytes;
      var resets := OutputResets(input);
      if resets {
        staleReleaseUntil := Some(now + STALE_KEY_RELEASE_SUPPRESSION);
      }
      outputPending := TrailingResetPrefix(input);
    }

    method FilterInput(bytes: seq<byte>, now: nat) returns (out: seq<byte>)
      requires WellFormed(Abs())
      modifies this
      ensures WellFormed(Abs())
      ensures Abs() == Filtering(old(Abs()), bytes, now).filter
      ensures out == Emitted(Filtering(old(Abs()), bytes, now).trace)
    {
      hide Classify, TokenLength, FirstToken;
      out := [];
      if pending != [] && (pendingUntil.None? || now >= pendingUntil.value) {
        out := FlushPending();
      }
      ghost var ready := Abs();
      var filtering := ShouldFilter(now);
      var input := TakePendingThen(bytes);
      if !filtering {
        out := out + input;
        return;
      }
      var scanned := ScanInput(input, now);
      out := out + scanned;
    }

    /** The scanning loop of `filter_input`. */
    method ScanInput(input: seq<byte>, now: nat) returns (out: seq<byte>)
      requires pending == [] && pendingUntil == None
      modifies this
      ensures out == Emitted(Scan(input))
      ensures Abs() == old(Abs()).(
                pending := Pending(Scan(input)),
                pendingUntil := if Pending(Scan(input)) == [] then None else Some(now + PENDING_CSI_TIMEOUT))
    {
      hide Classify, TokenLength, FirstToken, Scan;
      out := [];
      var i := 0;
      assert input[0..] == input;
      while i < |input|
        invariant 0 <= i <= |input|
        invariant Emitted(Scan(input)) == out + Emitted(Scan(input[i..]))
        invariant Pending(Scan(input)) == Pending(Scan(input[i..]))
        invariant Abs() == old(Abs())
      {
        ScanStep(input, i);
        if input[i] == ESC {
          var verdict := ClassifyCsiU(input[i..]);
          match verdict
          case Release(len) =>
            i := i + len;
            continue;
          case Other(len) =>
            Regroup(out, input[i..i + len], Emitted(Scan(input[i + len..])));
            out := out + input[i..i + len];
            i := i + len;
            continue;
          case Incomplete =>
            SetPending(input[i..], now);
            return;
          case NotCsiU =>
        }
        Regroup(out, [input[i]], Emitted(Scan(input[i + 1..])));
        out := out + [input[i]];
        i := i + 1;
      }
      assert input[i..] == [];
      EmptyScan();
    }

    method TakePendingThen(bytes: seq<byte>) returns (input: seq<byte>)
      requires WellFormed(Abs())
      modifies this
      ensures input == old(pending) + bytes
      ensures Abs() == old(Abs()).(pending := [], pendingUntil := None)
    {
      if pending == [] {
        return bytes;
      }
      input := pending + bytes;
      pending, pendingUntil := [], None;
    }

    method FlushPending() returns (out: seq<byte>)
      modifies this
      ensures Abs() == Flushing(old(Abs())).filter && out == Emitted(Flushing(old(Abs())).trace)
    {
      pendingUntil := None;
      out := pending;
      pending := [];
    }

    /** How long the reader may wait: zero exactly when the pending bytes have expired. */
    method PendingTimeout(now: nat) returns (wait: Option<nat>)
      ensures wait.None? <==> pending == []
      ensures wait == Some(0) <==> PendingExpired(Abs(), now)
      ensures pending != [] && pendingUntil.Some? ==>
              (wait == Some(0) <==> pendingUntil.value <= now) &&
              (pendingUntil.value > now ==> wait == Some(pendingUntil.value - now))
    {
      if pending == [] {
        return None;
      }
      var until := if pendingUntil.Some? then pendingUntil.value else now;
      return Some(if until >= now then until - now else 0);
    }

    method ShouldFilter(now: nat) returns (filtering: bool)
      modifies this
      ensures filtering == WindowOpen(old(Abs()), now)
      ensures Abs() == if filtering then old(Abs()) else old(Abs()).(staleReleaseUntil := None)
    {
      if staleReleaseUntil.Some? {
        if now <= staleReleaseUntil.value {
          return true;
        }
        staleReleaseUntil := None;
      }
      return false;
    }

    method SetPending(bytes: seq<byte>, now: nat)
      modifies this
      ensures Abs() == old(Abs()).(pending := bytes, pendingUntil := Some(now + PENDING_CSI_TIMEOUT))
    {
      pending := bytes;
      pendingUntil := Some(now + PENDING_CSI_TIMEOUT);
    }
  }

  lemma {:induction false} EmptyScan()
    ensures Emitted(Scan([])) == [] && Pending(Scan([])) == []
  {
  }

  lemma {:induction false} Regroup(a: seq<byte>, b: seq<byte>, c: seq<byte>)
    ensures a + (b + c) == (a + b) + c
  {
  }

  /** One turn of the scanning loop. */
  lemma {:induction false} ScanStep(input: seq<byte>, i: nat)
    requires i < |input|
    ensures match Classify(input[i..])
            case Release(n) => i + n <= |input| && Scan(input[i..]) == Then(Drop(input[i..i + n]), Scan(input[i + n..]))
            case Other(n) => i + n <= |input| && Scan(input[i..]) == Then(Pass(input[i..i + n]), Scan(input[i + n..]))
            case Incomplete => Scan(input[i..]) == Rest(input[i..])
            case NotCsiU => Scan(input[i..]) == Then(Pass([input[i]]), Scan(input[i + 1..]))
  {
    hide Classify;
    var n := TokenLength(input[i..]);
    assert input[i..][n..] == input[i + n..] && input[i..][..n] == input[i..i + n];
    assert input[i..i + 1] == [input[i]];
  }

  // -------------------------------------------------------------- chunk invariance

  lemma {:induction false} ScanStops(a: seq<byte>)
    requires a == [] || Classify(a) == Incomplete
    ensures Scan(a) == Rest(a)
  {
  }

  /** Bytes that come later do not change the first token. */
  lemma {:induction false} ScanAhead(a: seq<byte>, b: seq<byte>)
    requires a != [] && Classify(a) != Incomplete
    ensures Scan(a) == Then(FirstToken(a), Scan(a[TokenLength(a)..]))
    ensures Scan(a + b) == Then(FirstToken(a), Scan(a[TokenLength(a)..] + b))
  {
    hide Classify;
    VerdictIsStable(a, b);
    var n := TokenLength(a);
    assert (a + b)[..n] == a[..n] && (a + b)[n..] == a[n..] + b;
  }

  /** Scanning in two parts, the rest of the first carried into the second, changes nothing. */
  lemma {:induction false} ScanInTwoParts(a: seq<byte>, b: seq<byte>)
    ensures Scan(a + b) == Join(Scan(a), Scan(Pending(Scan(a)) + b))
    decreases |a|
  {
    hide Classify, Scan, FirstToken, TokenLength;
    if a == [] || Classify(a) == Incomplete {
      ScanStops(a);
    } else {
      ScanAhead(a, b);
      ScanInTwoParts(a[TokenLength(a)..], b);
    }
  }

  /** `g` is the filter after the input `a` at `t1`, but for the deadline of the carried bytes. */
  predicate Carries(f: Filter, a: seq<byte>, t1: nat, g: Filter) {
    g == Filtering(f, a, t1).filter.(pendingUntil := g.pendingUntil)
  }

  lemma {:induction false} NextChunk(f: Filter, a: seq<byte>, b: seq<byte>, t1: nat, g: Filter, t2: nat)
    requires t1 <= t2 && WindowOpen(f, t2) && Carries(f, a, t1, g) && !PendingExpired(g, t2)
    ensures var first := Filtering(f, a, t1);
            var second := Filtering(g, b, t2);
            var whole := Filtering(f, a + b, t1);
            && whole.trace == Join(first.trace, second.trace)
            && Emitted(whole.trace) == Emitted(first.trace) + Emitted(second.trace)
            && Carries(f, a + b, t1, second.filter)
  {
    hide Scan, Emitted, Pending;
    var carried := if PendingExpired(f, t1) then [] else f.pending;
    ScanInTwoParts(carried + a, b);
    assert carried + (a + b) == (carried + a) + b;
    var first := Filtering(f, a, t1);
    var second := Filtering(g, b, t2);
    JoinMeaning(Scan(carried + a), second.trace);
    JoinMeaning(first.trace, second.trace);
  }

  /** Whatever a call carries on, it carries for 20 ms. */
  lemma {:induction false} DeadlineIs(f: Filter, a: seq<byte>, t1: nat)
    ensures var g := Filtering(f, a, t1).filter;
            && WellFormed(g)
            && (g.pending != [] ==> g.pendingUntil == Some(t1 + 20_000_000))
            && (forall t2: nat :: PendingExpired(g, t2) <==> g.pending != [] && t2 >= t1 + 20_000_000)
  {
    hide Scan, Emitted, Pending;
  }

  /**
   * While the window is open and the second call comes less than 20 ms after the first, two
   * calls give the tokens and the pending bytes of one call with both chunks.
   */
  lemma {:induction false} ChunkInvariant(f: Filter, a: seq<byte>, b: seq<byte>, t1: nat, t2: nat)
    requires t1 <= t2 < t1 + 20_000_000 && WindowOpen(f, t2)
    ensures var first := Filtering(f, a, t1);
            var second := Filtering(first.filter, b, t2);
            var whole := Filtering(f, a + b, t1);
            && whole.trace == Join(first.trace, second.trace)
            && Emitted(whole.trace) == Emitted(first.trace) + Emitted(second.trace)
            && second.filter == whole.filter.(pendingUntil := second.filter.pendingUntil)
  {
    DeadlineIs(f, a, t1);
    NextChunk(f, a, b, t1, Filtering(f, a, t1).filter, t2);
  }

  /** After 20 ms the carried bytes come out first, and the rest is read without them. */
  lemma {:induction false} ExpiredComesFirst(f: Filter, a: seq<byte>, b: seq<byte>, t1: nat, t2: nat)
    requires t2 >= t1 + 20_000_000
    ensures var g := Filtering(f, a, t1).filter;
            var bare := g.(pending := [], pendingUntil := None);
            && Emitted(Filtering(g, b, t2).trace) == g.pending + Emitted(Filtering(bare, b, t2).trace)
            && Filtering(g, b, t2).filter == Filtering(bare, b, t2).filter
  {
    DeadlineIs(f, a, t1);
    hide FilteringFresh;
    var g := Filtering(f, a, t1).filter;
    assert g.pending == [] ==> g.(pending := [], pendingUntil := None) == g;
  }

  datatype Call = Call(bytes: seq<byte>, at: nat)

  function FilterAfter(f: Filter, calls: seq<Call>): Filter {
    if calls == [] then f
    else
      var last := calls[|calls| - 1];
      Filtering(FilterAfter(f, calls[..|calls| - 1]), last.bytes, last.at).filter
  }

  /** What the calls return, one after the other. */
  function EmittedBy(f: Filter, calls: seq<Call>): seq<byte> {
    if calls == [] then []
    else
      var front, last := calls[..|calls| - 1], calls[|calls| - 1];
      EmittedBy(f, front) + Emitted(Filtering(FilterAfter(f, front), last.bytes, last.at).trace)
  }

  function Typed(calls: seq<Call>): seq<byte> {
    if calls == [] then [] else Typed(calls[..|calls| - 1]) + calls[|calls| - 1].bytes
  }

  /** The clock never runs back, and each call comes less than 20 ms after the one before. */
  predicate InTime(calls: seq<Call>) {
    forall i | 0 < i < |calls| :: calls[i - 1].at <= calls[i].at < calls[i - 1].at + 20_000_000
  }

  lemma {:induction false} InTimeBefore(calls: seq<Call>)
    requires calls != [] && InTime(calls)
    ensures InTime(calls[..|calls| - 1]) && calls[0].at <= calls[|calls| - 1].at
    decreases |calls|
  {
    if |calls| > 1 {
      InTimeBefore(calls[..|calls| - 1]);
    }
  }

  lemma {:induction false} NoCalls(f: Filter, calls: seq<Call>)
    requires calls == []
    ensures Typed(calls) == [] && FilterAfter(f, calls) == f && EmittedBy(f, calls) == []
  {
  }

  /**
   * However the typed bytes are cut into calls: with the window open and less than 20 ms between any
   * call and the next, one call does the same.
   */
  lemma {:induction false} ManyChunks(f: Filter, calls: seq<Call>)
    requires calls != [] && InTime(calls) && WindowOpen(f, calls[|calls| - 1].at)
    ensures var whole := Filtering(f, Typed(calls), calls[0].at);
            && EmittedBy(f, calls) == Emitted(whole.trace)
            && FilterAfter(f, calls) == whole.filter.(pendingUntil := FilterAfter(f, calls).pendingUntil)
    decreases |calls|
  {
    hide Filtering, PendingExpired;
    var front, last := calls[..|calls| - 1], calls[|calls| - 1];
    InTimeBefore(calls);
    if front == [] {
      NoCalls(f, front);
      assert Typed(calls) == last.bytes;
    } else {
      InTimeBefore(front);
      ManyChunks(f, front);
      DeadlineIs(FilterAfter(f, front[..|front| - 1]), front[|front| - 1].bytes, front[|front| - 1].at);
      NextChunk(f, Typed(front), last.bytes, front[0].at, FilterAfter(f, front), last.at);
    }
  }

  lemma {:induction false} JoinMeaning(first: Trace, second: Trace)
    ensures Emitted(Join(first, second)) == Emitted(first) + Emitted(second)
    ensures Pending(Join(first, second)) == Pending(second)
  {
    if first.Then? {
      JoinMeaning(first.more, second);
    }
  }

  // ------------------------------------------------------- position-wise meaning

  /** Byte `k` lies in a release report that starts at some escape byte of `input`. */
  ghost predicate InRelease(input: seq<byte>, k: nat) {
    exists i: nat :: i <= k < |input| && Covers(input, i, k)
  }

  predicate Covers(input: seq<byte>, i: nat, k: nat)
    requires i <= |input|
  {
    var v := Classify(input[i..]);
    v.Release? && k < i + v.len
  }

  /** Where the unfinished report at the end of `input` begins, or |input|. */
  function UnfinishedFrom(input: seq<byte>, i: nat): (u: nat)
    requires i <= |input|
    ensures i <= u <= |input|
    decreases |input| - i
  {
    if i == |input| || Classify(input[i..]) == Incomplete then i else UnfinishedFrom(input, i + 1)
  }

  /** The bytes from `i` up to the unfinished report that lie in no release report. */
  ghost function Kept(input: seq<byte>, i: nat): seq<byte>
    requires i <= |input|
    decreases |input| - i
  {
    if i == UnfinishedFrom(input, i) then []
    else (if InRelease(input, i) then [] else [input[i]]) + Kept(input, i + 1)
  }

  /** No report that starts before `i` reaches `i` or beyond. */
  ghost predicate Boundary(input: seq<byte>, i: nat) {
    i <= |input| &&
    forall j: nat | j < i ::
      match Classify(input[j..])
      case Release(n) => j + n <= i
      case Other(n) => j + n <= i
      case Incomplete => false
      case NotCsiU => true
  }

  /** The bytes from `k` to `end` are all dropped or all kept, and none begins an unfinished report. */
  ghost predicate SameFate(input: seq<byte>, k: nat, end: nat, dropped: bool)
    requires end <= |input|
  {
    forall m: nat | k <= m < end :: HasFate(input, m, dropped)
  }

  ghost predicate HasFate(input: seq<byte>, m: nat, dropped: bool)
    requires m <= |input|
  {
    (InRelease(input, m) <==> dropped) && Classify(input[m..]) != Incomplete
  }

  lemma {:induction false} KeptOfToken(input: seq<byte>, k: nat, end: nat, dropped: bool)
    requires k <= end <= |input| && SameFate(input, k, end, dropped)
    ensures Kept(input, k) == (if dropped then [] else input[k..end]) + Kept(input, end)
    ensures UnfinishedFrom(input, k) == UnfinishedFrom(input, end)
    decreases end - k
  {
    hide Classify, InRelease;
    if k < end {
      KeptOfToken(input, k + 1, end, dropped);
      assert HasFate(input, k, dropped);
      hide SameFate;
      assert input[k..end] == [input[k]] + input[k + 1..end];
      Regroup([input[k]], input[k + 1..end], Kept(input, end));
    } else {
      assert input[k..end] == [];
    }
  }

  /** The inner bytes of a report start nothing. */
  lemma {:induction false} InnerBytes(input: seq<byte>, i: nat, n: nat)
    requires i < |input|
    requires Classify(input[i..]) == Release(n) || Classify(input[i..]) == Other(n)
    ensures forall m: nat | i < m < i + n :: Classify(input[m..]) == NotCsiU
  {
    forall m: nat | i < m < i + n
      ensures Classify(input[m..]) == NotCsiU
    {
      NoInnerEscape(input[i..], m - i);
      assert input[m..][0] == input[i..][m - i];
    }
  }

  lemma {:induction false} CoverIsOwn(input: seq<byte>, i: nat, j: nat, m: nat)
    requires Boundary(input, i) && j <= m && i <= m && j <= |input| && Covers(input, j, m)
    ensures i <= j
  {
  }

  lemma {:induction false} NextBoundary(input: seq<byte>, i: nat, n: nat)
    requires Boundary(input, i) && i < |input|
    requires Classify(input[i..]) != Incomplete && n == TokenLength(input[i..])
    ensures i + n <= |input| && Boundary(input, i + n)
    ensures SameFate(input, i, i + n, Classify(input[i..]).Release?)
  {
    if n > 1 {
      InnerBytes(input, i, n);
    }
    forall m: nat | i <= m < i + n
      ensures InRelease(input, m) <==> Classify(input[i..]).Release?
    {
      if Classify(input[i..]).Release? {
        assert Covers(input, i, m);
      }
      forall j: nat | j <= m && Covers(input, j, m)
        ensures j == i
      {
        CoverIsOwn(input, i, j, m);
      }
    }
  }

  /** The first token, its emission and what follows it. */
  lemma {:induction false} FirstEmission(input: seq<byte>, i: nat)
    requires i < |input| && Classify(input[i..]) != Incomplete
    ensures var n := TokenLength(input[i..]);
            && i + n <= |input|
            && Emitted(Scan(input[i..])) ==
               (if Classify(input[i..]).Release? then [] else input[i..i + n]) + Emitted(Scan(input[i + n..]))
            && Pending(Scan(input[i..])) == Pending(Scan(input[i + n..]))
  {
    hide Classify, TokenLength;
    var s := input[i..];
    var n := TokenLength(s);
    assert s[n..] == input[i + n..] && s[..n] == input[i..i + n];
    assert Scan(s) == Then(FirstToken(s), Scan(s[n..]));
    hide Scan;
  }

  lemma {:induction false} NothingLeft(input: seq<byte>, i: nat)
    requires i <= |input| && (i == |input| || Classify(input[i..]) == Incomplete)
    ensures Agree(input, i)
  {
    hide Classify, InRelease;
    assert UnfinishedFrom(input, i) == i;
    assert Scan(input[i..]) == Rest(input[i..]);
  }

  /** From `i` on, scanning and the position-wise reading agree. */
  ghost predicate Agree(input: seq<byte>, i: nat) {
    && i <= |input|
    && Emitted(Scan(input[i..])) == Kept(input, i)
    && Pending(Scan(input[i..])) == input[UnfinishedFrom(input, i)..]
  }

  lemma {:induction false} AgreeStep(input: seq<byte>, i: nat, n: nat)
    requires i < |input| && Classify(input[i..]) != Incomplete && n == TokenLength(input[i..])
    requires i + n <= |input| && SameFate(input, i, i + n, Classify(input[i..]).Release?) && Agree(input, i + n)
    ensures Agree(input, i)
  {
    hide Classify, Scan, Kept, UnfinishedFrom, SameFate, TokenLength, Emitted, Pending, InRelease, FirstToken;
    FirstEmission(input, i);
    KeptOfToken(input, i, i + n, Classify(input[i..]).Release?);
  }

  lemma {:induction false} BoundaryInRange(input: seq<byte>, i: nat)
    requires Boundary(input, i)
    ensures i <= |input|
  {
  }

  lemma {:induction false} ScanFromBoundary(input: seq<byte>, i: nat)
    requires Boundary(input, i)
    ensures Agree(input, i)
    decreases |input| - i
  {
    hide *;
    BoundaryInRange(input, i);
    if i == |input| || Classify(input[i..]) == Incomplete {
      NothingLeft(input, i);
    } else {
      var n := TokenLength(input[i..]);
      NextBoundary(input, i, n);
      ScanFromBoundary(input, i + n);
      AgreeStep(input, i, n);
    }
  }

  /**
   * A byte is dropped iff it lies in a release report starting at an escape byte of
   * the input; all others are emitted in order, up to the unfinished report, which
   * becomes the rest.
   */
  lemma {:induction false} ScanIsPositionwise(input: seq<byte>)
    ensures Emitted(Scan(input)) == Kept(input, 0)
    ensures Pending(Scan(input)) == input[UnfinishedFrom(input, 0)..]
    ensures Pending(Scan(input)) != [] ==> Classify(Pending(Scan(input))) == Incomplete
  {
    assert input[0..] == input;
    ScanFromBoundary(input, 0);
    UnfinishedIsIncomplete(input, 0);
  }

  lemma {:induction false} UnfinishedIsIncomplete(input: seq<byte>, i: nat)
    requires i <= |input|
    ensures var u := UnfinishedFrom(input, i);
            i <= u <= |input| && (u < |input| ==> Classify(input[u..]) == Incomplete)
    decreases |input| - i
  {
    if i < |input| {
      UnfinishedIsIncomplete(input, i + 1);
    }
  }
}
