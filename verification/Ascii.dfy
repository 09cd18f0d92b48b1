/** The byte-level helpers of src/bridge.rs: character classes, `split`, `parse`. */
module Ascii {
  import opened Bytes

  datatype Option<+T> = None | Some(value: T)

  const ESC: byte := 0x1b
  const BRACKET: byte := '[' as int as byte
  const LETTER_U: byte := 'u' as int as byte
  const SEMICOLON: byte := ';' as int as byte
  const COLON: byte := ':' as int as byte
  const LESS: byte := '<' as int as byte
  const EQUALS: byte := '=' as int as byte
  const THREE: byte := '3' as int as byte

  predicate IsDigit(b: byte) {
    48 <= b <= 57
  }

  predicate AllDigits(s: seq<byte>) {
    forall i | 0 <= i < |s| :: IsDigit(s[i])
  }

  /** Index of the first `b` in `s`, or |s|. */
  function Find(s: seq<byte>, b: byte): (i: nat)
    ensures i <= |s|
    ensures i < |s| ==> s[i] == b
    ensures forall k | 0 <= k < i :: s[k] != b
  {
    if s == [] || s[0] == b then 0 else 1 + Find(s[1..], b)
  }

  function Split(s: seq<byte>, sep: byte): (fields: seq<seq<byte>>)
    ensures |fields| >= 1
    decreases |s|
  {
    var i := Find(s, sep);
    if i == |s| then [s] else [s[..i]] + Split(s[i + 1..], sep)
  }

  lemma {:induction false} FindUnique(s: seq<byte>, b: byte, i: nat)
    requires i <= |s| && (forall k | 0 <= k < i :: s[k] != b) && (i < |s| ==> s[i] == b)
    ensures Find(s, b) == i
  {
  }

  lemma {:induction false} SplitAt(a: seq<byte>, sep: byte, b: seq<byte>)
    requires sep !in a
    ensures Split(a, sep) == [a]
    ensures Split(a + [sep] + b, sep) == [a] + Split(b, sep)
  {
    FindUnique(a, sep, |a|);
    var s := a + [sep] + b;
    assert forall k | 0 <= k < |a| :: s[k] == a[k];
    FindUnique(s, sep, |a|);
    assert s[..|a|] == a && s[|a| + 1..] == b;
  }

  function Value(digits: seq<byte>): nat
    requires AllDigits(digits)
  {
    if digits == [] then 0
    else Value(digits[..|digits| - 1]) * 10 + (digits[|digits| - 1] as int - 48)
  }

  /** `parse_ascii_u32`: no value for an empty, non-numeric or too large field. */
  function ParseU32(s: seq<byte>): Option<nat> {
    if s == [] || !AllDigits(s) then None
    else if Value(s) >= 0x1_0000_0000 then None
    else Some(Value(s))
  }

  // ------------------------------------------------------------ what parsing undoes

  /** Decimal rendering without leading zeros. */
  function Decimal(n: nat): (s: seq<byte>) {
    if n < 10 then [(48 + n) as byte] else Decimal(n / 10) + [(48 + n % 10) as byte]
  }

  function ZeroDigits(z: nat): seq<byte> {
    seq(z, _ => 48)
  }

  /** `s` writes the number `n`, possibly behind leading zeros. */
  ghost predicate IsNumeral(s: seq<byte>, n: nat) {
    exists z: nat :: s == ZeroDigits(z) + Decimal(n)
  }

  lemma {:induction false} NumeralValue(z: nat, n: nat)
    ensures var s := ZeroDigits(z) + Decimal(n); s != [] && AllDigits(s) && Value(s) == n
  {
    var s := ZeroDigits(z) + Decimal(n);
    if n < 10 {
      assert s[..|s| - 1] == ZeroDigits(z);
      ZeroValue(z);
    } else {
      NumeralValue(z, n / 10);
      assert s[..|s| - 1] == ZeroDigits(z) + Decimal(n / 10);
    }
  }

  lemma {:induction false} ZeroValue(z: nat)
    ensures AllDigits(ZeroDigits(z)) && Value(ZeroDigits(z)) == 0
  {
    if z > 0 {
      assert ZeroDigits(z)[..z - 1] == ZeroDigits(z - 1);
      ZeroValue(z - 1);
    }
  }

  /** One more digit behind a numeral. */
  lemma {:induction false} MoreDigits(front: seq<byte>, v: nat, d: nat)
    requires IsNumeral(front, v) && d < 10
    ensures IsNumeral(front + [(48 + d) as byte], 10 * v + d)
  {
    var z: nat :| front == ZeroDigits(z) + Decimal(v);
    var s := front + [(48 + d) as byte];
    if v == 0 {
      assert s == ZeroDigits(z + 1) + Decimal(d);
    } else {
      assert (10 * v + d) / 10 == v && (10 * v + d) % 10 == d;
      assert s == ZeroDigits(z) + (Decimal(v) + [(48 + d) as byte]);
    }
  }

  lemma {:induction false} ValueIsNumeral(s: seq<byte>)
    requires s != [] && AllDigits(s)
    ensures IsNumeral(s, Value(s))
    decreases |s|
  {
    hide IsNumeral;
    var front, d: nat := s[..|s| - 1], s[|s| - 1] as int - 48;
    assert s == front + [(48 + d) as byte];
    if front == [] {
      OneDigit(d);
      assert Value(front) == 0 && s == [(48 + d) as byte];
    } else {
      ValueIsNumeral(front);
      MoreDigits(front, Value(front), d);
    }
  }

  lemma {:induction false} OneDigit(d: nat)
    requires d < 10
    ensures IsNumeral([(48 + d) as byte], d)
  {
    assert [(48 + d) as byte] == ZeroDigits(0) + Decimal(d);
  }

  /** A field parses to `n` exactly if it is a numeral of `n`, and `n` fits 32 bits; no other field parses. */
  lemma {:induction false} ParseExactly(s: seq<byte>, n: nat)
    ensures ParseU32(s) == Some(n) <==> IsNumeral(s, n) && n < 4_294_967_296
  {
    if s != [] && AllDigits(s) {
      ValueIsNumeral(s);
    }
    forall z: nat | s == ZeroDigits(z) + Decimal(n)
      ensures s != [] && AllDigits(s) && Value(s) == n
    {
      NumeralValue(z, n);
    }
  }
}
