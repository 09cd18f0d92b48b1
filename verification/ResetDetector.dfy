/**
 * The output side of the key-release filter: which chunks of daemon output
 * contain a keyboard-mode reset, when the stream may be cut anywhere.
 */
module ResetDetector {
  import opened Bytes
  import opened Ascii

  const MAX_OUTPUT_RESET_PREFIX: nat := 64

  predicate IsModeByte(b: byte) {
    IsDigit(b) || b == SEMICOLON
  }

  predicate AllModeBytes(s: seq<byte>) {
    forall i | 0 <= i < |s| :: IsModeByte(s[i])
  }

  /** Bits 0b10 (report events) and 0b1000 (report all keys). */
  predicate ReportsKeys(flags: nat) {
    flags / 2 % 2 == 1 || flags / 8 % 2 == 1
  }

  /** `flags ; mode` between `ESC [ =` and `u`: does it leave key reporting off? */
  predicate TurnsReportingOff(body: seq<byte>) {
    var params := Split(body, SEMICOLON);
    var flags := var f := ParseU32(params[0]); if f.Some? then f.value else 0;
    var mode := if |params| < 2 then 1 else var m := ParseU32(params[1]); if m.Some? then m.value else 1;
    if mode == 1 then !ReportsKeys(flags)
    else if mode == 3 then ReportsKeys(flags)
    else false
  }

  // --------------------------------------------------- what the detector looks for

  /** A whole pop (`ESC [ < digits u`) or direct reset (`ESC [ = flags ; mode u`). */
  predicate IsResetSequence(s: seq<byte>) {
    && |s| >= 4 && s[0] == ESC && s[1] == BRACKET && s[|s| - 1] == LETTER_U
    && var body := s[3..|s| - 1];
       || (s[2] == LESS && AllDigits(body))
       || (s[2] == EQUALS && AllModeBytes(body) && TurnsReportingOff(body))
  }

  ghost predicate ContainsReset(bytes: seq<byte>) {
    exists i, j :: ResetAt(bytes, i, j)
  }

  predicate ResetAt(bytes: seq<byte>, i: int, j: int) {
    0 <= i <= j <= |bytes| && IsResetSequence(bytes[i..j])
  }

  /** Everything a reset sequence can start with, before its final `u`. */
  predicate IsResetPrefix(s: seq<byte>) {
    || s == [ESC]
    || s == [ESC, BRACKET]
    || (|s| >= 3 && s[..3] == [ESC, BRACKET, LESS] && AllDigits(s[3..]))
    || (|s| >= 3 && s[..3] == [ESC, BRACKET, EQUALS] && AllModeBytes(s[3..]))
  }

  /** The suffix kept for the next chunk: a reset prefix of at most 64 bytes, or nothing. */
  function ResetTail(bytes: seq<byte>): seq<byte> {
    ResetTailFrom(bytes, if |bytes| > MAX_OUTPUT_RESET_PREFIX then |bytes| - MAX_OUTPUT_RESET_PREFIX else 0)
  }

  function ResetTailFrom(bytes: seq<byte>, i: nat): seq<byte>
    requires i <= |bytes|
    decreases |bytes| - i
  {
    if i == |bytes| then []
    else if IsResetPrefix(bytes[i..]) then bytes[i..]
    else ResetTailFrom(bytes, i + 1)
  }

  // ------------------------------------------------------------------ the scanners

  /** `direct_keyboard_protocol_reset`, on everything after `ESC [ =`. */
  predicate DirectReset(bytes: seq<byte>) {
    var end := Find(bytes, LETTER_U);
    end < |bytes| && AllModeBytes(bytes[..end]) && TurnsReportingOff(bytes[..end])
  }

  ghost predicate NoResetBefore(bytes: seq<byte>, i: int) {
    forall k, j | 0 <= k < i :: !ResetAt(bytes, k, j)
  }

  ghost predicate NoResetFrom(bytes: seq<byte>, i: int) {
    forall j :: !ResetAt(bytes, i, j)
  }

  lemma {:induction false} NothingBegins(bytes: seq<byte>, i: nat)
    requires i + 3 <= |bytes|
    requires !(bytes[i] == ESC && bytes[i + 1] == BRACKET && (bytes[i + 2] == LESS || bytes[i + 2] == EQUALS))
    ensures NoResetFrom(bytes, i)
  {
    hide TurnsReportingOff;
    forall j
      ensures !ResetAt(bytes, i, j)
    {
      if 0 <= i <= j <= |bytes| && j >= i + 3 {
        var s := bytes[i..j];
        assert s[0] == bytes[i] && s[1] == bytes[i + 1] && s[2] == bytes[i + 2];
      }
    }
  }

  lemma {:induction false} ShortRest(bytes: seq<byte>, i: nat)
    requires i + 3 > |bytes| && NoResetBefore(bytes, i)
    ensures !ContainsReset(bytes)
  {
    hide TurnsReportingOff;
  }

  lemma {:induction false} PopFound(bytes: seq<byte>, i: nat, j: nat)
    requires i + 3 <= j < |bytes| && bytes[j] == LETTER_U && AllDigits(bytes[i + 3..j])
    requires bytes[i] == ESC && bytes[i + 1] == BRACKET && bytes[i + 2] == LESS
    ensures ContainsReset(bytes)
  {
    SliceOfSlice(bytes, i, j + 1, 3, j - i);
    assert ResetAt(bytes, i, j + 1);
  }

  method OutputResets(bytes: seq<byte>) returns (found: bool)
    ensures found <==> ContainsReset(bytes)
  {
    hide ResetAt, DirectReset;
    var i := 0;
    while i + 3 <= |bytes|
      invariant 0 <= i
      invariant NoResetBefore(bytes, i)
    {
      if bytes[i] == ESC && bytes[i + 1] == BRACKET {
        if bytes[i + 2] == LESS {
          var j := i + 3;
          while j < |bytes| && IsDigit(bytes[j])
            invariant i + 3 <= j <= |bytes|
            invariant AllDigits(bytes[i + 3..j])
          {
            assert bytes[i + 3..j + 1] == bytes[i + 3..j] + [bytes[j]];
            j := j + 1;
          }
          if j < |bytes| && bytes[j] == LETTER_U {
            PopFound(bytes, i, j);
            return true;
          }
          NoPop(bytes, i, j);
        } else if bytes[i + 2] == EQUALS {
          DirectResetMeaning(bytes, i);
          if DirectReset(bytes[i + 3..]) {
            return true;
          }
        } else {
          NothingBegins(bytes, i);
        }
      } else {
        NothingBegins(bytes, i);
      }
      assert NoResetFrom(bytes, i);
      i := i + 1;
    }
    ShortRest(bytes, i);
    return false;
  }

  lemma {:induction false} PopEnd(bytes: seq<byte>, i: nat, j: nat, stop: nat)
    requires ResetAt(bytes, i, j) && bytes[i + 2] == LESS
    requires i + 3 <= stop <= |bytes| && AllDigits(bytes[i + 3..stop])
    requires stop < |bytes| ==> !IsDigit(bytes[stop])
    ensures stop == j - 1 && bytes[stop] == LETTER_U
  {
    SliceOfSlice(bytes, i, j, 3, j - i - 1);
    assert bytes[i..j][j - i - 1] == bytes[j - 1];
    DigitRange(bytes, i + 3, j - 1);
    DigitRange(bytes, i + 3, stop);
  }

  lemma {:induction false} DigitRange(bytes: seq<byte>, lo: nat, hi: nat)
    requires lo <= hi <= |bytes| && AllDigits(bytes[lo..hi])
    ensures forall k | lo <= k < hi :: IsDigit(bytes[k])
  {
    assert forall k | lo <= k < hi :: bytes[k] == bytes[lo..hi][k - lo];
  }

  lemma {:induction false} NoPop(bytes: seq<byte>, i: nat, stop: nat)
    requires i + 3 <= stop <= |bytes| && bytes[i + 2] == LESS
    requires AllDigits(bytes[i + 3..stop])
    requires stop < |bytes| ==> !IsDigit(bytes[stop]) && bytes[stop] != LETTER_U
    ensures forall j :: !ResetAt(bytes, i, j)
  {
    forall j
      ensures !ResetAt(bytes, i, j)
    {
      if ResetAt(bytes, i, j) {
        PopEnd(bytes, i, j, stop);
      }
    }
  }

  lemma {:induction false} DirectResetFound(bytes: seq<byte>, i: nat, j: int)
    requires ResetAt(bytes, i, j) && bytes[i + 2] == EQUALS
    ensures DirectReset(bytes[i + 3..])
  {
    hide TurnsReportingOff, Find;
    SliceOfSlice(bytes, i, j, 3, j - i - 1);
    var rest, body := bytes[i + 3..], bytes[i + 3..j - 1];
    assert bytes[i..j][j - i - 1] == bytes[j - 1] == rest[|body|];
    assert body == rest[..|body|];
    assert forall k | 0 <= k < |body| :: rest[k] == body[k] && IsModeByte(body[k]);
    FindUnique(rest, LETTER_U, |body|);
  }

  lemma {:induction false} DirectResetMeaning(bytes: seq<byte>, i: nat)
    requires i + 3 <= |bytes|
    requires bytes[i] == ESC && bytes[i + 1] == BRACKET && bytes[i + 2] == EQUALS
    ensures DirectReset(bytes[i + 3..]) <==> exists j :: ResetAt(bytes, i, j)
  {
    var rest := bytes[i + 3..];
    if DirectReset(rest) {
      var j := i + 3 + Find(rest, LETTER_U) + 1;
      SliceOfSlice(bytes, i, j, 3, j - i - 1);
      assert rest[..j - i - 4] == bytes[i + 3..j - 1];
      assert ResetAt(bytes, i, j);
    }
    forall j | ResetAt(bytes, i, j)
      ensures DirectReset(rest)
    {
      DirectResetFound(bytes, i, j);
    }
  }

  method TrailingResetPrefix(bytes: seq<byte>) returns (tail: seq<byte>)
    ensures tail == ResetTail(bytes)
  {
    var start := if |bytes| > MAX_OUTPUT_RESET_PREFIX then |bytes| - MAX_OUTPUT_RESET_PREFIX else 0;
    for i := start to |bytes|
      invariant ResetTailFrom(bytes, i) == ResetTailFrom(bytes, start)
    {
      if IsResetPrefix(bytes[i..]) {
        return bytes[i..];
      }
    }
    return [];
  }

  // ------------------------------------------------------------ facts on prefixes

  /** An escape byte can only be the first byte of a prefix. */
  lemma {:induction false} PrefixHasOneEscape(s: seq<byte>, k: nat)
    requires IsResetPrefix(s) && 0 < k < |s|
    ensures s[k] != ESC && s[k] != LETTER_U && s[0] == ESC
  {
    if k >= 3 {
      assert s[3..][k - 3] == s[k];
    } else if |s| >= 3 {
      assert s[..3][k] == s[k] && s[..3][0] == s[0];
    }
  }

  lemma {:induction false} CutOfPrefix(s: seq<byte>, n: nat)
    requires IsResetPrefix(s) && 0 < n <= |s|
    ensures IsResetPrefix(s[..n])
  {
    if n >= 3 {
      assert s[..n][..3] == s[..3];
      assert s[..n][3..] == s[3..][..n - 3];
    } else if |s| >= 3 {
      assert s[..n] == s[..3][..n];
    }
  }

  lemma {:induction false} CutOfSequence(s: seq<byte>, n: nat)
    requires IsResetSequence(s) && 0 < n < |s|
    ensures IsResetPrefix(s[..n])
  {
    if n >= 3 {
      assert s[..n][..3] == s[..3] == [s[0], s[1], s[2]];
      assert s[..n][3..] == s[3..|s| - 1][..n - 3];
    } else if n == 2 {
      assert s[..n] == [s[0], s[1]];
    } else {
      assert s[..n] == [s[0]];
    }
  }

  /** No later suffix of a reset prefix is one. */
  lemma {:induction false} OnePrefixStart(bytes: seq<byte>, i: nat, k: nat)
    requires i < k < |bytes| && IsResetPrefix(bytes[i..])
    ensures !IsResetPrefix(bytes[k..])
  {
    PrefixHasOneEscape(bytes[i..], k - i);
    assert bytes[k..][0] == bytes[i..][k - i] != ESC;
    if IsResetPrefix(bytes[k..]) {
      PrefixStartsWithEscape(bytes[k..]);
    }
  }

  lemma {:induction false} PrefixStartsWithEscape(s: seq<byte>)
    requires IsResetPrefix(s)
    ensures s != [] && s[0] == ESC
  {
    if |s| >= 3 {
      assert s[..3][0] == s[0];
    }
  }

  /** `tail` is what the next chunk must be read together with. */
  ghost predicate IsTail(tail: seq<byte>, bytes: seq<byte>) {
    && IsSuffix(tail, bytes) && |tail| <= 64
    && (tail != [] ==> IsResetPrefix(tail))
    && (tail == [] ==> forall k | 0 <= k < |bytes| && |bytes| - k <= 64 ::
                         !IsResetPrefix(bytes[k..]))
  }

  lemma {:induction false} ResetTailIsTail(bytes: seq<byte>)
    ensures IsTail(ResetTail(bytes), bytes)
  {
    TailShape(bytes, if |bytes| > MAX_OUTPUT_RESET_PREFIX then |bytes| - MAX_OUTPUT_RESET_PREFIX else 0);
  }

  lemma {:induction false} TailShape(bytes: seq<byte>, start: nat)
    requires start <= |bytes|
    ensures var tail := ResetTailFrom(bytes, start);
            && IsSuffix(tail, bytes) && |tail| <= |bytes| - start
            && (tail != [] ==> IsResetPrefix(tail))
            && (tail == [] ==> forall k | start <= k < |bytes| :: !IsResetPrefix(bytes[k..]))
    decreases |bytes| - start
  {
    hide IsResetPrefix;
    if start < |bytes| && !IsResetPrefix(bytes[start..]) {
      TailShape(bytes, start + 1);
    }
  }

  /** A stream has at most one such suffix, so the tail is unique. */
  lemma {:induction false} TailUnique(a: seq<byte>, b: seq<byte>, bytes: seq<byte>)
    requires IsTail(a, bytes) && IsTail(b, bytes)
    ensures a == b
  {
    hide IsResetPrefix;
    assert bytes[|bytes| - |a|..] == a && bytes[|bytes| - |b|..] == b;
    if 0 < |a| < |b| {
      OnePrefixStart(bytes, |bytes| - |b|, |bytes| - |a|);
    } else if 0 < |b| < |a| {
      OnePrefixStart(bytes, |bytes| - |a|, |bytes| - |b|);
    }
  }

  // ------------------------------------------------- reset sequences, byte by byte

  /** Neither bit 1 nor bit 3. */
  predicate NoKeyBits(flags: nat) {
    flags / 2 % 2 == 0 && flags / 8 % 2 == 0
  }

  /** `n` is the 32-bit number that `field` writes, or `default` if it writes none. */
  ghost predicate ReadsAs(field: seq<byte>, n: nat, default: nat) {
    if exists m: nat | m < 4_294_967_296 :: IsNumeral(field, m) then IsNumeral(field, n) && n < 4_294_967_296
    else n == default
  }

  predicate DigitsAndSemicolons(s: seq<byte>) {
    forall i | 0 <= i < |s| :: 48 <= s[i] <= 57 || s[i] == 59
  }

  lemma {:induction false} ParsesAs(field: seq<byte>, n: nat, default: nat)
    requires ReadsAs(field, n, default)
    ensures n == (if ParseU32(field).Some? then ParseU32(field).value else default)
  {
    hide ParseU32;
    ParseExactly(field, n);
    if ParseU32(field).Some? {
      ParseExactly(field, ParseU32(field).value);
    }
    forall m: nat | m < 4_294_967_296 && IsNumeral(field, m)
      ensures ParseU32(field) == Some(m)
    {
      ParseExactly(field, m);
    }
  }

  lemma {:induction false} SequenceWithBody(kind: byte, body: seq<byte>)
    ensures var s := [27, 91, kind] + body + [117];
            IsResetSequence(s) <==> (kind == 60 && AllDigits(body)) ||
                                    (kind == 61 && AllModeBytes(body) && TurnsReportingOff(body))
  {
    hide TurnsReportingOff;
    var s := [27, 91, kind] + body + [117];
    assert s[3..|s| - 1] == body;
  }

  /** `ESC [ < body u` is a reset exactly for digits, or nothing, in between. */
  lemma {:induction false} PopExactly(body: seq<byte>)
    ensures IsResetSequence([27, 91, 60] + body + [117]) <==> forall i | 0 <= i < |body| :: 48 <= body[i] <= 57
  {
    SequenceWithBody(60, body);
  }

  /** Every reset sequence is one of the two kinds. */
  lemma {:induction false} ResetHasForm(s: seq<byte>)
    requires IsResetSequence(s)
    ensures exists kind, body :: (kind == 60 || kind == 61) && s == [27, 91, kind] + body + [117]
  {
    assert s == [27, 91, s[2]] + s[3..|s| - 1] + [117];
  }

  /** `ESC [ = field u`: the mode is 1, so a reset needs both bits clear. */
  lemma {:induction false} DirectWithoutMode(field: seq<byte>, flags: nat)
    requires 59 !in field && ReadsAs(field, flags, 0)
    ensures IsResetSequence([27, 91, 61] + field + [117]) <==> DigitsAndSemicolons(field) && NoKeyBits(flags)
  {
    SequenceWithBody(61, field);
    hide ParseU32, Split;
    SplitAt(field, 59, []);
    ParsesAs(field, flags, 0);
  }

  /** `ESC [ = field ; modeField rest u`, where a third field and further ones are ignored. */
  lemma {:induction false} DirectWithMode(field: seq<byte>, flags: nat, modeField: seq<byte>, mode: nat,
                                          rest: seq<byte>)
    requires 59 !in field && 59 !in modeField && (rest == [] || rest[0] == 59)
    requires ReadsAs(field, flags, 0) && ReadsAs(modeField, mode, 1)
    ensures var body := field + [59] + (modeField + rest);
            IsResetSequence([27, 91, 61] + body + [117]) <==>
            DigitsAndSemicolons(body) && ((mode == 1 && NoKeyBits(flags)) || (mode == 3 && !NoKeyBits(flags)))
  {
    var body := field + [59] + (modeField + rest);
    SequenceWithBody(61, body);
    TwoFields(field, modeField, rest);
    ParsesAs(field, flags, 0);
    ParsesAs(modeField, mode, 1);
    hide ParseU32, Split, ReadsAs, IsResetSequence;
  }

  lemma {:induction false} TwoFields(field: seq<byte>, modeField: seq<byte>, rest: seq<byte>)
    requires 59 !in field && 59 !in modeField && (rest == [] || rest[0] == 59)
    ensures var params := Split(field + [59] + (modeField + rest), 59);
            |params| >= 2 && params[0] == field && params[1] == modeField
  {
    hide Split;
    SplitAt(field, 59, modeField + rest);
    if rest == [] {
      SplitAt(modeField, 59, []);
      assert modeField + rest == modeField;
    } else {
      SplitAt(modeField, 59, rest[1..]);
      assert modeField + rest == modeField + [59] + rest[1..];
    }
  }

  lemma {:induction false} DecimalReadsAs(n: nat, default: nat)
    requires n < 4_294_967_296
    ensures ReadsAs(Decimal(n), n, default) && 59 !in Decimal(n) && DigitsAndSemicolons(Decimal(n))
  {
    assert ZeroDigits(0) + Decimal(n) == Decimal(n);
    NumeralValue(0, n);
    assert IsNumeral(Decimal(n), n);
  }

  /** For all 32-bit flags and modes: mode 1 leaves exactly the flags on, mode 3 turns exactly them off. */
  lemma {:induction false} DirectNumbers(flags: nat, mode: nat)
    requires flags < 4_294_967_296 && mode < 4_294_967_296
    ensures IsResetSequence([27, 91, 61] + Decimal(flags) + [117]) <==> NoKeyBits(flags)
    ensures IsResetSequence([27, 91, 61] + (Decimal(flags) + [59] + Decimal(mode)) + [117]) <==>
            (mode == 1 && NoKeyBits(flags)) || (mode == 3 && !NoKeyBits(flags))
  {
    hide IsResetSequence, ReadsAs, Decimal;
    DecimalReadsAs(flags, 0);
    DecimalReadsAs(mode, 1);
    DirectWithoutMode(Decimal(flags), flags);
    DirectWithMode(Decimal(flags), flags, Decimal(mode), mode, []);
    assert Decimal(mode) + [] == Decimal(mode);
  }

  // -------------------------------------------------------------- chunked streams

  function Concat(chunks: seq<seq<byte>>): seq<byte> {
    if chunks == [] then [] else Concat(chunks[..|chunks| - 1]) + chunks[|chunks| - 1]
  }

  /** `output_pending` after observing the chunks one by one. */
  function PendingAfter(chunks: seq<seq<byte>>): seq<byte> {
    if chunks == [] then []
    else ResetTail(PendingAfter(chunks[..|chunks| - 1]) + chunks[|chunks| - 1])
  }

  /** A suffix of at most 64 bytes that is a reset prefix is the tail. */
  lemma {:induction false} PrefixIsTail(t: seq<byte>, tail: seq<byte>, bytes: seq<byte>)
    requires t != [] && IsSuffix(t, bytes) && |t| <= MAX_OUTPUT_RESET_PREFIX && IsResetPrefix(t)
    requires IsTail(tail, bytes)
    ensures t == tail
  {
    TailUnique(t, tail, bytes);
  }

  lemma {:induction false} TailsNest(past: seq<byte>, chunk: seq<byte>, kept: seq<byte>, u: seq<byte>, t: seq<byte>)
    requires IsTail(kept, past) && IsTail(u, kept + chunk) && IsTail(t, past + chunk)
    ensures u == t
  {
    var s, w := past + chunk, kept + chunk;
    SuffixAppend(kept, past, chunk);
    if u != [] {
      SuffixTransitive(u, w, s);
      PrefixIsTail(u, t, s);
    } else if t != [] {
      TailFits(past, chunk, kept, t);
      SuffixesNest(t, w, s);
      PrefixIsTail(t, u, w);
    }
  }

  /** The tail of the longer stream never reaches behind the kept tail. */
  lemma {:induction false} TailFits(past: seq<byte>, chunk: seq<byte>, kept: seq<byte>, t: seq<byte>)
    requires IsTail(kept, past) && IsTail(t, past + chunk) && t != []
    ensures |t| <= |kept + chunk|
  {
    var i := |past + chunk| - |t|;
    if i < |past| {
      CutOfPrefix(t, |past| - i);
      assert t[..|past| - i] == past[i..];
      PrefixIsTail(past[i..], kept, past);
    }
  }

  /** Remembering only the tail of the past loses nothing the next tail needs. */
  lemma {:induction false} TailOfTail(past: seq<byte>, chunk: seq<byte>)
    ensures ResetTail(ResetTail(past) + chunk) == ResetTail(past + chunk)
  {
    ResetTailIsTail(past);
    ResetTailIsTail(past + chunk);
    ResetTailIsTail(ResetTail(past) + chunk);
    TailsNest(past, chunk, ResetTail(past), ResetTail(ResetTail(past) + chunk), ResetTail(past + chunk));
  }

  /** However the stream was cut, the pending bytes are its reset-prefix suffix. */
  lemma {:induction false} PendingIsResetTail(chunks: seq<seq<byte>>)
    ensures PendingAfter(chunks) == ResetTail(Concat(chunks))
  {
    if chunks != [] {
      var front := chunks[..|chunks| - 1];
      PendingIsResetTail(front);
      TailOfTail(Concat(front), chunks[|chunks| - 1]);
    }
  }

  /** A reset that ends in `chunk`, with at most 64 of its bytes in `past`. */
  ghost predicate ResetEndsInChunk(past: seq<byte>, chunk: seq<byte>) {
    exists i, j :: ResetAt(past + chunk, i, j) && |past| < j && |past| - i <= 64
  }

  lemma {:induction false} ArmedOnlyByEnding(past: seq<byte>, chunk: seq<byte>, kept: seq<byte>, i: nat, j: nat)
    requires IsTail(kept, past) && ResetAt(kept + chunk, i, j)
    ensures ResetEndsInChunk(past, chunk)
  {
    var s, w := past + chunk, kept + chunk;
    SuffixAppend(kept, past, chunk);
    SliceOfSuffix(w, s, i, j);
    var d := |past| - |kept|;
    assert w[j - 1] == w[i..j][j - i - 1] == LETTER_U;
    if j <= |kept| {
      PrefixHasOneEscape(kept, j - 1);
    }
    assert ResetAt(s, d + i, d + j);
  }

  /** The part of a reset sequence that lies in `past` is kept. */
  lemma {:induction false} StartIsKept(past: seq<byte>, chunk: seq<byte>, kept: seq<byte>, i: nat, j: nat)
    requires IsTail(kept, past)
    requires ResetAt(past + chunk, i, j) && i < |past| < j && |past| - i <= MAX_OUTPUT_RESET_PREFIX
    ensures kept == past[i..]
  {
    var q := (past + chunk)[i..j];
    CutOfSequence(q, |past| - i);
    assert q[..|past| - i] == past[i..];
    PrefixIsTail(past[i..], kept, past);
  }

  lemma {:induction false} EndingArms(past: seq<byte>, chunk: seq<byte>, kept: seq<byte>, i: nat, j: nat)
    requires IsTail(kept, past)
    requires ResetAt(past + chunk, i, j) && |past| < j && |past| - i <= MAX_OUTPUT_RESET_PREFIX
    ensures ContainsReset(kept + chunk)
  {
    if i < |past| {
      StartIsKept(past, chunk, kept, i, j);
    }
    SuffixAppend(kept, past, chunk);
    ShiftReset(kept + chunk, past + chunk, i, j);
  }

  lemma {:induction false} ShiftReset(w: seq<byte>, s: seq<byte>, i: nat, j: nat)
    requires IsSuffix(w, s) && |s| - |w| <= i && ResetAt(s, i, j)
    ensures ContainsReset(w)
  {
    hide IsResetSequence;
    var d := |s| - |w|;
    SliceOfSuffix(w, s, i - d, j - d);
    assert ResetAt(w, i - d, j - d);
  }

  /** The exact condition under which observing `chunk` opens the suppression window. */
  lemma {:induction false} ArmsExactly(chunks: seq<seq<byte>>, chunk: seq<byte>)
    ensures ContainsReset(PendingAfter(chunks) + chunk) <==> ResetEndsInChunk(Concat(chunks), chunk)
  {
    var past := Concat(chunks);
    PendingIsResetTail(chunks);
    ResetTailIsTail(past);
    if ContainsReset(ResetTail(past) + chunk) {
      var i, j :| ResetAt(ResetTail(past) + chunk, i, j);
      ArmedOnlyByEnding(past, chunk, ResetTail(past), i, j);
    }
    if ResetEndsInChunk(past, chunk) {
      var i, j :| ResetAt(past + chunk, i, j) && |past| < j && |past| - i <= MAX_OUTPUT_RESET_PREFIX;
      EndingArms(past, chunk, ResetTail(past), i, j);
    }
  }
}
