/**
 * When the filter's output holds a release report although every report of the input was
 * dropped: exactly when an unfinished report, interrupted by whole release reports only,
 * is continued to a release report.
 */
module Splicing {
  import opened Bytes
  import opened Ascii
  import opened CsiU
  import opened BridgeFilter
  import opened BridgeRuns

  /** Some escape byte of `s` begins a release report. */
  ghost predicate HasRelease(s: seq<byte>) {
    exists p: nat :: ReleaseAt(s, p)
  }

  predicate ReleaseAt(s: seq<byte>, p: nat) {
    p <= |s| && Classify(s[p..]).Release?
  }

  // ------------------------------------------------- beginnings of release reports

  /** Whether parameters can still be completed to those of a release report. */
  predicate ParamsMayRelease(params: seq<byte>) {
    var k := Find(params, SEMICOLON);
    k == |params| || FieldMayRelease(params[k + 1..])
  }

  /** The same for what follows the key: modifiers, `:3`, then nothing or a separator. */
  predicate FieldMayRelease(f: seq<byte>) {
    var c := Find(f, COLON);
    if c == |f| then SEMICOLON !in f
    else
      && SEMICOLON !in f[..c]
      && (|f| > c + 1 ==> f[c + 1] == THREE)
      && (|f| > c + 2 ==> f[c + 2] == SEMICOLON || f[c + 2] == COLON)
  }

  /** A non-empty beginning of some release report. */
  predicate MayBecomeRelease(u: seq<byte>) {
    u == [ESC] || (|u| >= 2 && IsSequencePrefix(u) && ParamsMayRelease(u[2..]))
  }

  lemma {:induction false} FieldPrefix(mods: seq<byte>, rest: seq<byte>, t: nat)
    requires SEMICOLON !in mods && COLON !in mods
    requires rest == [] || rest[0] == SEMICOLON || rest[0] == COLON
    requires t <= |mods + [COLON, THREE] + rest|
    ensures FieldMayRelease((mods + [COLON, THREE] + rest)[..t])
  {
    var g := mods + [COLON, THREE] + rest;
    var f := g[..t];
    assert forall k | 0 <= k < t && k < |mods| :: f[k] == mods[k];
    if t <= |mods| {
      FindUnique(f, COLON, t);
    } else {
      assert f[|mods|] == COLON;
      FindUnique(f, COLON, |mods|);
      assert f[..|mods|] == mods;
    }
  }

  /** Every part of a release report's parameters can still be completed. */
  lemma {:induction false} ParamsPrefix(params: seq<byte>, key: seq<byte>, mods: seq<byte>, rest: seq<byte>, t: nat)
    requires HasReleaseShape(params, key, mods, rest) && t <= |params|
    ensures ParamsMayRelease(params[..t])
  {
    hide FieldMayRelease;
    var p := params[..t];
    assert forall k | 0 <= k < t && k < |key| :: p[k] == key[k];
    if t <= |key| {
      FindUnique(p, SEMICOLON, t);
    } else {
      assert p[|key|] == SEMICOLON;
      FindUnique(p, SEMICOLON, |key|);
      var g := mods + [COLON, THREE] + rest;
      assert params[|key| + 1..] == g;
      assert p[|key| + 1..] == g[..t - |key| - 1];
      FieldPrefix(mods, rest, t - |key| - 1);
    }
  }

  lemma {:induction false} PrefixMayBecome(w: seq<byte>, n: nat)
    requires IsReleaseSequence(w) && 0 < n < |w|
    ensures MayBecomeRelease(w[..n])
  {
    hide IsKittyReleaseEvent, ParamsMayRelease, HasReleaseShape;
    var u := w[..n];
    if n == 1 {
      assert u == [ESC];
    } else {
      var params := w[2..|w| - 1];
      ReleaseHasShape(params);
      var key, mods, rest :| HasReleaseShape(params, key, mods, rest);
      ParamsPrefix(params, key, mods, rest, n - 2);
      assert u[2..] == params[..n - 2];
      assert AllParams(u[2..]);
    }
  }

  /** What completes the parameters `params`. */
  function Completion(params: seq<byte>): seq<byte> {
    var k := Find(params, SEMICOLON);
    if k == |params| then [SEMICOLON, COLON, THREE]
    else
      var f := params[k + 1..];
      var c := Find(f, COLON);
      if c == |f| then [COLON, THREE] else if c + 1 == |f| then [THREE] else []
  }

  lemma {:induction false} FieldCompletes(key: seq<byte>, f: seq<byte>)
    requires SEMICOLON !in key && FieldMayRelease(f)
    ensures var c := Find(f, COLON);
            var more := if c == |f| then [COLON, THREE] else if c + 1 == |f| then [THREE] else [];
            IsKittyReleaseEvent(key + [SEMICOLON] + f + more)
  {
    hide IsKittyReleaseEvent, Find;
    var c := Find(f, COLON);
    if c == |f| {
      ShapeHolds(key, f, []);
      assert key + [SEMICOLON] + f + [COLON, THREE] + [] == key + [SEMICOLON] + f + [COLON, THREE];
    } else if c + 1 == |f| {
      assert f == f[..c] + [COLON];
      ShapeHolds(key, f[..c], []);
      assert key + [SEMICOLON] + f[..c] + [COLON, THREE] + [] == key + [SEMICOLON] + f + [THREE];
    } else {
      assert f == f[..c] + [COLON, THREE] + f[c + 2..];
      ShapeHolds(key, f[..c], f[c + 2..]);
      assert key + [SEMICOLON] + f[..c] + [COLON, THREE] + f[c + 2..] == key + [SEMICOLON] + f + [];
    }
  }

  lemma {:induction false} ShapeHolds(key: seq<byte>, mods: seq<byte>, rest: seq<byte>)
    requires SEMICOLON !in key && SEMICOLON !in mods && COLON !in mods
    requires rest == [] || rest[0] == SEMICOLON || rest[0] == COLON
    ensures IsKittyReleaseEvent(key + [SEMICOLON] + mods + [COLON, THREE] + rest)
  {
    hide IsKittyReleaseEvent;
    ShapeIsRelease(key + [SEMICOLON] + mods + [COLON, THREE] + rest, key, mods, rest);
  }

  lemma {:induction false} CompletionWorks(params: seq<byte>)
    requires ParamsMayRelease(params)
    ensures IsKittyReleaseEvent(params + Completion(params))
  {
    hide IsKittyReleaseEvent, Find, FieldMayRelease;
    var k := Find(params, SEMICOLON);
    if k == |params| {
      ShapeHolds(params, [], []);
      assert params + [SEMICOLON] + [] + [COLON, THREE] + [] == params + [SEMICOLON, COLON, THREE];
    } else {
      var key, f := params[..k], params[k + 1..];
      assert params == key + [SEMICOLON] + f;
      FieldCompletes(key, f);
    }
  }

  lemma {:induction false} CanComplete(u: seq<byte>) returns (q: seq<byte>)
    requires MayBecomeRelease(u)
    ensures q != [] && IsReleaseSequence(u + q)
  {
    hide IsKittyReleaseEvent, ParamsMayRelease;
    if u == [ESC] {
      NoParams();
      q := CanComplete2([ESC, BRACKET]);
      assert [ESC] + ([BRACKET] + q) == [ESC, BRACKET] + q;
      q := [BRACKET] + q;
    } else {
      q := CanComplete2(u);
    }
  }

  lemma {:induction false} NoParams()
    ensures ParamsMayRelease([ESC, BRACKET][2..])
  {
    assert [ESC, BRACKET][2..] == [];
  }

  lemma {:induction false} CanComplete2(u: seq<byte>) returns (q: seq<byte>)
    requires |u| >= 2 && IsSequencePrefix(u) && ParamsMayRelease(u[2..])
    ensures q != [] && IsReleaseSequence(u + q)
  {
    hide IsKittyReleaseEvent, ParamsMayRelease;
    var c := Completion(u[2..]);
    CompletionWorks(u[2..]);
    q := c + [LETTER_U];
    var w := u + q;
    assert w[2..|w| - 1] == u[2..] + c;
    assert AllParams(c);
  }

  /** The test is exact: `u` passes it just when some bytes complete it to a release report. */
  lemma {:induction false} MayBecomeReleaseExactly(u: seq<byte>)
    requires u != []
    ensures MayBecomeRelease(u) <==> exists q :: q != [] && IsReleaseSequence(u + q)
  {
    hide MayBecomeRelease, IsReleaseSequence;
    if MayBecomeRelease(u) {
      var q := CanComplete(u);
    }
    forall q | q != [] && IsReleaseSequence(u + q)
      ensures MayBecomeRelease(u)
    {
      PrefixMayBecome(u + q, |u|);
      assert (u + q)[..|u|] == u;
    }
  }

  /** Not every unfinished report can become a release: nothing completes `ESC [ 1 ; 1 ;`. */
  lemma {:induction false} DeadPrefix(q: seq<byte>)
    ensures IsSequencePrefix([ESC, BRACKET, 49, SEMICOLON, 49, SEMICOLON])
    ensures q != [] ==> !IsReleaseSequence([ESC, BRACKET, 49, SEMICOLON, 49, SEMICOLON] + q)
  {
    var u: seq<byte> := [ESC, BRACKET, 49, SEMICOLON, 49, SEMICOLON];
    MayBecomeReleaseExactly(u);
    hide IsReleaseSequence;
    assert u[2..] == [49, SEMICOLON, 49, SEMICOLON];
    FindUnique(u[2..], SEMICOLON, 1);
    assert u[2..][2..] == [49, SEMICOLON];
    FindUnique([49, SEMICOLON], COLON, 2);
    assert !FieldMayRelease([49, SEMICOLON]);
  }

  // ------------------------------------------------------- reports that are put together

  function NextEscape(s: seq<byte>, i: nat): (e: nat)
    requires i <= |s|
    ensures i <= e <= |s| && (forall k | i <= k < e :: s[k] != ESC) && (e < |s| ==> s[e] == ESC)
    decreases |s| - i
  {
    if i == |s| || s[i] == ESC then i else NextEscape(s, i + 1)
  }

  /**
   * `s` begins with a release report, and what follows it up to the next escape byte makes
   * one of `u`, at once or after further interruptions of the same kind.
   */
  predicate Resumes(u: seq<byte>, s: seq<byte>)
    decreases |s|
  {
    && Classify(s).Release?
    && var n := Classify(s).len;
    && var e := NextEscape(s, n);
    && var v := u + s[n..e];
    && (Classify(v).Release? || (Classify(v) == Incomplete && Resumes(v, s[e..])))
  }

  /** An unfinished report begins at `i`, is interrupted by release reports only, and goes on to be one. */
  predicate ResumedAt(input: seq<byte>, i: nat) {
    && i < |input| && input[i] == ESC
    && var e := NextEscape(input, i + 1);
    && Classify(input[i..e]) == Incomplete && Resumes(input[i..e], input[e..])
  }

  /** A dropped report, and the plain bytes that follow it. */
  lemma {:induction false} AfterRelease(s: seq<byte>, e: nat)
    requires Classify(s).Release? && e == NextEscape(s, Classify(s).len)
    ensures Emitted(Scan(s)) == s[Classify(s).len..e] + Emitted(Scan(s[e..]))
  {
    hide Classify, Scan, Emitted;
    var n := Classify(s).len;
    FirstEmission(s, 0);
    assert s[0..] == s;
    PlainBytes(s, n, e);
  }

  /** An escape byte, or nothing, comes first after the input stood at an escape byte that drops nothing. */
  lemma {:induction false} EscapeComesFirst(s: seq<byte>)
    requires (s != [] ==> s[0] == ESC) && !Classify(s).Release? && Emitted(Scan(s)) != []
    ensures Emitted(Scan(s))[0] == ESC
  {
    hide Classify;
    if s == [] || Classify(s) == Incomplete {
      ScanStops(s);
    } else {
      assert Scan(s) == Then(FirstToken(s), Scan(s[TokenLength(s)..]));
    }
  }

  /** An unfinished report is none, and stays none when an escape byte follows. */
  lemma {:induction false} UnfinishedIsNone(u: seq<byte>, more: seq<byte>)
    requires Classify(u) == Incomplete && (more != [] ==> more[0] == ESC)
    ensures !Classify(u + more).Release?
  {
    hide Classify, IsSequence, IsReleaseSequence;
    var s := u + more;
    if Classify(s).Release? {
      var n := Classify(s).len;
      if n <= |u| {
        FoundIsSequence(s, n);
        assert s[..n] == u[..n];
        SequenceIsFound(u, n);
      } else {
        NoInnerEscape(s, |u|);
      }
    }
  }

  lemma {:induction false} ResumesExactly(u: seq<byte>, s: seq<byte>)
    requires Classify(u) == Incomplete && (s != [] ==> s[0] == ESC)
    ensures Classify(u + Emitted(Scan(s))).Release? <==> Resumes(u, s)
    decreases |s|
  {
    hide Classify, Scan, Emitted;
    if Classify(s).Release? {
      var n := Classify(s).len;
      var e := NextEscape(s, n);
      var v, rest := u + s[n..e], Emitted(Scan(s[e..]));
      AfterRelease(s, e);
      assert u + (s[n..e] + rest) == v + rest;
      if Classify(v) == Incomplete {
        ResumesExactly(v, s[e..]);
      } else {
        VerdictIsStable(v, rest);
      }
    } else {
      if Emitted(Scan(s)) != [] {
        EscapeComesFirst(s);
      }
      UnfinishedIsNone(u, Emitted(Scan(s)));
    }
  }

  /** A lone escape byte and what is emitted after it. */
  lemma {:induction false} EscapeExactly(input: seq<byte>)
    requires input != [] && input[0] == ESC && Classify(input) == NotCsiU
    ensures Classify(Emitted(Scan(input))).Release? <==> ResumedAt(input, 0)
  {
    hide Classify, Scan, Emitted, Resumes;
    var e := NextEscape(input, 1);
    var u, rest := input[..e], input[e..];
    HeadPasses(input);
    PlainBytes(input, 1, e);
    assert input[0..e] == u && u + rest == input;
    JoinHead(u, Emitted(Scan(rest)));
    if Classify(u) == Incomplete {
      ResumesExactly(u, rest);
    } else {
      VerdictIsStable(u, rest);
      VerdictIsStable(u, Emitted(Scan(rest)));
    }
  }

  lemma {:induction false} HeadPasses(s: seq<byte>)
    requires s != [] && Classify(s) == NotCsiU
    ensures Emitted(Scan(s)) == [s[0]] + Emitted(Scan(s[1..]))
  {
    hide Classify, Scan, Emitted;
    FirstEmission(s, 0);
    assert s[0..] == s && s[0..1] == [s[0]];
  }

  lemma {:induction false} JoinHead(u: seq<byte>, t: seq<byte>)
    requires u != []
    ensures [u[0]] + (u[1..] + t) == u + t
  {
  }

  /** The first passed token: only its first byte can begin a release report of the output. */
  lemma {:induction false} HeadExactly(input: seq<byte>, p: nat)
    requires input != [] && Classify(input) != Incomplete && !Classify(input).Release? && p < TokenLength(input)
    ensures ReleaseAt(Emitted(Scan(input)), p) <==> ResumedAt(input, p)
  {
    hide Scan, Emitted, Resumes;
    var n := TokenLength(input);
    var tail := Emitted(Scan(input[n..]));
    var out := input[..n] + tail;
    FirstEmission(input, 0);
    assert input[0..] == input && input[0..n] == input[..n] && Emitted(Scan(input)) == out;
    assert out[p] == input[p] && out[p..][0] == out[p];
    if Classify(input).Other? {
      if p == 0 {
        OtherStaysOther(input, tail);
        assert out[0..] == out;
        WholeIsNotResumed(input);
      } else {
        NoInnerEscape(input, p);
      }
    } else if input[0] == ESC {
      EscapeExactly(input);
      assert out[0..] == out;
    }
  }

  lemma {:induction false} OtherStaysOther(input: seq<byte>, tail: seq<byte>)
    requires Classify(input).Other?
    ensures Classify(input[..Classify(input).len] + tail).Other?
  {
    hide Classify, IsKittyReleaseEvent;
    var n := Classify(input).len;
    FoundIsSequence(input, n);
    assert input[..n][..n] == input[..n];
    SequenceIsFound(input[..n], n);
    VerdictIsStable(input[..n], tail);
  }

  /** Nothing is unfinished at a whole report. */
  lemma {:induction false} WholeIsNotResumed(input: seq<byte>)
    requires input != [] && (Classify(input).Other? || Classify(input).Release?)
    ensures !ResumedAt(input, 0)
  {
    hide Resumes;
    var n := Classify(input).len;
    FoundIsSequence(input, n);
    var e := NextEscape(input, 1);
    hide Classify, IsSequence, IsReleaseSequence;
    if e < n {
      NoInnerEscape(input, e);
    }
    assert input[0..e][..n] == input[..n];
    SequenceIsFound(input[0..e], n);
  }

  /** Where the input begins with an unfinished report, none of it is resumed. */
  lemma {:induction false} UnfinishedIsNotResumed(input: seq<byte>, i: nat)
    requires Classify(input) == Incomplete
    ensures !ResumedAt(input, i)
  {
    if 0 < i < |input| {
      NoInnerEscape(input, i);
    } else if i == 0 {
      var e := NextEscape(input, 1);
      if e < |input| {
        NoInnerEscape(input, e);
      }
    }
  }

  lemma {:induction false} ResumedLater(input: seq<byte>, n: nat, i: nat)
    requires n <= |input|
    ensures ResumedAt(input[n..], i) <==> ResumedAt(input, n + i)
  {
    hide Classify, Resumes;
    if n + i < |input| {
      SameNextEscape(input, n, i + 1);
      var e := NextEscape(input, n + i + 1);
      assert input[n..][i..e - n] == input[n + i..e] && input[n..][e - n..] == input[e..];
    }
  }

  lemma {:induction false} SameNextEscape(s: seq<byte>, n: nat, i: nat)
    requires n + i <= |s|
    ensures NextEscape(s[n..], i) == NextEscape(s, n + i) - n
    decreases |s| - i
  {
    if n + i < |s| && s[n + i] != ESC {
      SameNextEscape(s, n, i + 1);
    }
  }

  ghost predicate Resumed(input: seq<byte>) {
    exists i: nat :: ResumedAt(input, i)
  }

  lemma {:induction false} ReleaseBehind(x: seq<byte>, s: seq<byte>, p: nat)
    ensures ReleaseAt(x + s, |x| + p) <==> ReleaseAt(s, p)
  {
    hide Classify;
    if p <= |s| {
      assert (x + s)[|x| + p..] == s[p..];
    }
  }

  /** A release report of the output begins in the first token, or in what the rest emits. */
  lemma {:induction false} OutputThenInput(input: seq<byte>, p: nat)
    requires input != [] && Classify(input) != Incomplete && ReleaseAt(Emitted(Scan(input)), p)
    requires HasRelease(Emitted(Scan(input[TokenLength(input)..]))) ==> Resumed(input[TokenLength(input)..])
    ensures Resumed(input)
  {
    hide Classify, Scan, Emitted, ResumedAt, TokenLength, ReleaseAt;
    var n := TokenLength(input);
    var first := if Classify(input).Release? then [] else input[..n];
    var tail := Emitted(Scan(input[n..]));
    FirstEmission(input, 0);
    assert input[0..] == input && input[0..n] == input[..n];
    if p < |first| {
      HeadExactly(input, p);
    } else {
      ReleaseBehind(first, tail, p - |first|);
      assert ReleaseAt(tail, p - |first|);
      var i: nat :| ResumedAt(input[n..], i);
      ResumedLater(input, n, i);
    }
  }

  lemma {:induction false} InputThenOutput(input: seq<byte>, i: nat)
    requires input != [] && Classify(input) != Incomplete && ResumedAt(input, i)
    requires Resumed(input[TokenLength(input)..]) ==> HasRelease(Emitted(Scan(input[TokenLength(input)..])))
    ensures HasRelease(Emitted(Scan(input)))
  {
    hide Classify, Scan, Emitted, Resumes, TokenLength, ReleaseAt;
    var n := TokenLength(input);
    var first := if Classify(input).Release? then [] else input[..n];
    var tail := Emitted(Scan(input[n..]));
    FirstEmission(input, 0);
    assert input[0..] == input && input[0..n] == input[..n];
    if i >= n {
      ResumedLater(input, n, i - n);
      assert ResumedAt(input[n..], i - n);
      var p: nat :| ReleaseAt(tail, p);
      ReleaseBehind(first, tail, p);
    } else if Classify(input).Release? {
      NotInRelease(input, i);
    } else {
      HeadExactly(input, i);
    }
  }

  lemma {:induction false} NotInRelease(input: seq<byte>, i: nat)
    requires Classify(input).Release? && i < TokenLength(input)
    ensures !ResumedAt(input, i)
  {
    hide Classify, Resumes;
    if i == 0 {
      WholeIsNotResumed(input);
    } else {
      NoInnerEscape(input, i);
    }
  }

  /**
   * The filter's output holds a release report exactly if some unfinished report of the
   * input, interrupted by whole release reports only, is continued to one.
   */
  lemma {:induction false} SplicedExactly(input: seq<byte>)
    ensures HasRelease(Emitted(Scan(input))) <==> exists i: nat :: ResumedAt(input, i)
    decreases |input|
  {
    hide Classify, Scan, Emitted, Resumes, TokenLength, ReleaseAt;
    if input == [] || Classify(input) == Incomplete {
      NothingEmitted(input);
      forall i: nat
        ensures !ResumedAt(input, i)
      {
        if input != [] {
          UnfinishedIsNotResumed(input, i);
        }
      }
    } else {
      SplicedExactly(input[TokenLength(input)..]);
      forall p: nat | ReleaseAt(Emitted(Scan(input)), p)
        ensures Resumed(input)
      {
        OutputThenInput(input, p);
      }
      forall i: nat | ResumedAt(input, i)
        ensures HasRelease(Emitted(Scan(input)))
      {
        InputThenOutput(input, i);
      }
    }
  }

  lemma {:induction false} NothingEmitted(input: seq<byte>)
    requires input == [] || Classify(input) == Incomplete
    ensures Emitted(Scan(input)) == [] && !HasRelease([])
  {
    ScanStops(input);
  }

  // ------------------------------------------------------------------ filtering twice

  /** Scanning always comes to stand at an escape byte, so it drops something just if a report is there. */
  lemma {:induction false} DropsExactly(s: seq<byte>)
    ensures HasDrop(Scan(s)) <==> HasRelease(s)
    decreases |s|
  {
    hide Classify;
    if s == [] || Classify(s) == Incomplete {
      ScanStops(s);
      UnfinishedHasNone(s);
    } else {
      var n := TokenLength(s);
      assert s[0..] == s && Scan(s) == Then(FirstToken(s), Scan(s[n..]));
      DropsExactly(s[n..]);
      RestHasRelease(s);
    }
  }

  lemma {:induction false} UnfinishedHasNone(s: seq<byte>)
    requires s == [] || Classify(s) == Incomplete
    ensures !HasRelease(s)
  {
    forall p: nat
      ensures !ReleaseAt(s, p)
    {
      if 0 < p < |s| {
        NoInnerEscape(s, p);
      }
      assert s[0..] == s;
    }
  }

  lemma {:induction false} RestHasRelease(s: seq<byte>)
    requires s != [] && Classify(s) != Incomplete
    ensures HasRelease(s) <==> Classify(s).Release? || HasRelease(s[TokenLength(s)..])
  {
    hide Classify;
    var n := TokenLength(s);
    assert s[..n] + s[n..] == s && s[0..] == s;
    forall p: nat | ReleaseAt(s, p)
      ensures Classify(s).Release? || HasRelease(s[n..])
    {
      if p > 0 {
        assert p < |s| && s[p] == ESC;
        TokenEndsBefore(s, p);
        ReleaseBehind(s[..n], s[n..], p - n);
        assert ReleaseAt(s[n..], p - n);
      }
    }
    forall p: nat | ReleaseAt(s[n..], p)
      ensures HasRelease(s)
    {
      ReleaseBehind(s[..n], s[n..], p);
      assert ReleaseAt(s, n + p);
    }
    assert Classify(s).Release? ==> ReleaseAt(s, 0);
  }

  lemma {:induction false} TokenEndsBefore(s: seq<byte>, i: nat)
    requires 0 < i < |s| && s[i] == ESC
    ensures Classify(s) != Incomplete && TokenLength(s) <= i
  {
    if Classify(s) != NotCsiU && (Classify(s) == Incomplete || i < TokenLength(s)) {
      NoInnerEscape(s, i);
    }
  }

  /** Filtering the output again drops something exactly under the same condition. */
  lemma {:induction false} SecondPassExactly(input: seq<byte>)
    ensures HasDrop(Scan(Emitted(Scan(input)))) <==> exists i: nat :: ResumedAt(input, i)
  {
    hide HasRelease, HasDrop, Scan, Emitted, ResumedAt;
    SplicedExactly(input);
    DropsExactly(Emitted(Scan(input)));
  }

  // ---------------------------------------------------------------------- splice points

  /** At `i` something begins that could become a release, and at `j` a release interrupts it. */
  predicate SpliceAt(input: seq<byte>, i: nat, j: nat) {
    i < j <= |input| && MayBecomeRelease(input[i..j]) && Classify(input[j..]).Release?
  }

  ghost predicate NoSplice(input: seq<byte>) {
    forall i: nat, j: nat :: !SpliceAt(input, i, j)
  }

  /** What is resumed can be completed to a release report. */
  lemma {:induction false} ResumesCompletes(u: seq<byte>, s: seq<byte>) returns (q: seq<byte>)
    requires Classify(u) == Incomplete && Resumes(u, s)
    ensures q != [] && IsReleaseSequence(u + q)
    decreases |s|
  {
    hide Classify, IsSequence, IsReleaseSequence;
    var n := Classify(s).len;
    var e := NextEscape(s, n);
    var v := u + s[n..e];
    if Classify(v).Release? {
      var m := Classify(v).len;
      FoundIsSequence(v, m);
      if m <= |u| {
        assert v[..m] == u[..m];
        SequenceIsFound(u, m);
      }
      q := v[|u|..m];
      assert u + q == v[..m];
    } else {
      var more := ResumesCompletes(v, s[e..]);
      q := s[n..e] + more;
      assert u + q == v + more;
    }
  }

  lemma {:induction false} ResumedIsSplice(input: seq<byte>, i: nat)
    requires ResumedAt(input, i)
    ensures SpliceAt(input, i, NextEscape(input, i + 1))
  {
    hide MayBecomeRelease, IsReleaseSequence;
    var e := NextEscape(input, i + 1);
    var q := ResumesCompletes(input[i..e], input[e..]);
    MayBecomeReleaseExactly(input[i..e]);
  }

  /** No release report follows the beginning of another directly: then the output is clean. */
  lemma {:induction false} CleanWithoutSplice(input: seq<byte>)
    requires NoSplice(input)
    ensures !HasRelease(Emitted(Scan(input)))
  {
    hide HasRelease, Scan, Emitted, ResumedAt, SpliceAt;
    SplicedExactly(input);
    forall i: nat
      ensures !ResumedAt(input, i)
    {
      if ResumedAt(input, i) {
        ResumedIsSplice(input, i);
      }
    }
  }

  /** The input up to the end of the release report at `j`. */
  function UpToRelease(input: seq<byte>, j: nat): seq<byte>
    requires j <= |input| && Classify(input[j..]).Release?
  {
    input[..j + Classify(input[j..]).len]
  }

  lemma {:induction false} SequenceFacts(u: seq<byte>, q: seq<byte>)
    requires u != [] && IsReleaseSequence(u + q)
    ensures u[0] == ESC && IsSequence(u + q) && forall k | 0 <= k < |q| :: q[k] != ESC
  {
    hide IsKittyReleaseEvent;
    var w := u + q;
    assert w[0] == u[0];
    assert w[..|w|] == w;
    SequenceIsFound(w, |w|);
    forall k | 0 <= k < |q|
      ensures q[k] != ESC
    {
      NoInnerEscape(w, |u| + k);
      assert w[|u| + k] == q[k];
    }
  }

  /** A release report that interrupts `u`, and then bytes that complete `u`. */
  lemma {:induction false} CompletionResumes(u: seq<byte>, r: seq<byte>, q: seq<byte>)
    requires u != [] && r != [] && q != [] && IsReleaseSequence(u + q) && IsReleaseSequence(r)
    ensures r[0] == ESC && Resumes(u, r + q)
  {
    hide Classify, IsReleaseSequence, IsSequence;
    var s := r + q;
    assert s[..|r|] == r && s[|r|..] == q && (u + q)[..|u + q|] == u + q && r + [] == r;
    SequenceFacts(u, q);
    SequenceFacts(r, []);
    SequenceIsFound(s, |r|);
    SequenceIsFound(u + q, |u + q|);
    assert forall k | |r| <= k < |s| :: s[k] == q[k - |r|];
    assert s[|r|..NextEscape(s, |r|)] == q;
  }

  lemma {:induction false} BeginningIsPlain(u: seq<byte>)
    requires MayBecomeRelease(u)
    ensures u != [] && u[0] == ESC && Classify(u) == Incomplete && forall k | 0 < k < |u| :: u[k] != ESC
  {
    hide ParamsMayRelease;
    PrefixIsIncomplete(u);
    assert |u| >= 2 ==> forall k | 2 <= k < |u| :: u[k] == u[2..][k - 2];
  }

  lemma {:induction false} CutAtRelease(input: seq<byte>, i: nat, j: nat, q: seq<byte>) returns (r: seq<byte>)
    requires SpliceAt(input, i, j)
    ensures r != [] && IsReleaseSequence(r)
    ensures i < |UpToRelease(input, j) + q| && (UpToRelease(input, j) + q)[i..] == input[i..j] + (r + q)
  {
    var n := Classify(input[j..]).len;
    FoundIsSequence(input[j..], n);
    hide Classify, MayBecomeRelease, IsReleaseSequence;
    r := input[j..][..n];
    assert r == input[j..j + n] && input[..j + n] == input[..j] + r && input[..j][i..] == input[i..j];
    DropInFront(input[..j], r, i);
    DropInFront(input[..j] + r, q, i);
    assert input[i..j] + r + q == input[i..j] + (r + q);
  }

  lemma {:induction false} DropInFront(a: seq<byte>, b: seq<byte>, i: nat)
    requires i <= |a|
    ensures (a + b)[i..] == a[i..] + b
  {
  }

  lemma {:induction false} BeginningResumes(u: seq<byte>, s: seq<byte>)
    requires MayBecomeRelease(u) && s != [] && s[0] == ESC && Resumes(u, s)
    ensures ResumedAt(u + s, 0)
  {
    BeginningIsPlain(u);
    hide Classify, MayBecomeRelease, Resumes;
    var t := u + s;
    var e := NextEscape(t, 1);
    assert t[|u|] == ESC && e == |u|;
    assert t[0..e] == u && t[e..] == s;
  }

  /**
   * Every splice point can matter: cut the input after the interrupting release, complete
   * what it interrupted, and the output holds a release report.
   */
  lemma {:induction false} SpliceShows(input: seq<byte>, i: nat, j: nat)
    requires SpliceAt(input, i, j)
    ensures exists q :: HasRelease(Emitted(Scan(UpToRelease(input, j) + q)))
  {
    hide Classify, Scan, Emitted, MayBecomeRelease, IsReleaseSequence, HasRelease, UpToRelease, Resumes, ResumedAt;
    var u := input[i..j];
    var q := CanComplete(u);
    var r := CutAtRelease(input, i, j, q);
    var s := UpToRelease(input, j) + q;
    BeginningIsPlain(u);
    CompletionResumes(u, r, q);
    BeginningResumes(u, r + q);
    ResumedLater(s, i, 0);
    SplicedExactly(s);
    assert HasRelease(Emitted(Scan(s)));
  }
}
