/** Byte strings and the suffix vocabulary shared by the replay buffers. */
module Bytes {

  newtype byte = x: int | 0 <= x < 256

  predicate IsSuffix<T(==)>(s: seq<T>, t: seq<T>) {
    |s| <= |t| && s == t[|t| - |s|..]
  }

  /** The last `n` elements of `s`, or all of `s` when it is shorter. */
  function LastN<T>(s: seq<T>, n: nat): seq<T> {
    if |s| <= n then s else s[|s| - n..]
  }

  lemma {:induction false} LastNOfLastN<T>(s: seq<T>, t: seq<T>, n: nat)
    ensures LastN(LastN(s, n) + t, n) == LastN(s + t, n)
  {
  }

  lemma {:induction false} SuffixTransitive<T>(a: seq<T>, b: seq<T>, c: seq<T>)
    requires IsSuffix(a, b) && IsSuffix(b, c)
    ensures IsSuffix(a, c)
  {
  }

  /** Two suffixes of the same sequence are ordered by length. */
  lemma {:induction false} SuffixesNest<T>(a: seq<T>, b: seq<T>, c: seq<T>)
    requires IsSuffix(a, c) && IsSuffix(b, c) && |a| <= |b|
    ensures IsSuffix(a, b)
  {
  }

  lemma {:induction false} SuffixAppend<T>(a: seq<T>, b: seq<T>, t: seq<T>)
    requires IsSuffix(a, b)
    ensures IsSuffix(a + t, b + t)
  {
  }

  lemma {:induction false} SliceOfSlice<T>(s: seq<T>, lo: nat, hi: nat, a: nat, b: nat)
    requires lo <= hi <= |s| && a <= b <= hi - lo
    ensures s[lo..hi][a..b] == s[lo + a..lo + b]
  {
    forall k | 0 <= k < b - a
      ensures s[lo..hi][a..b][k] == s[lo + a..lo + b][k]
    {
      assert s[lo..hi][a + k] == s[lo + a + k];
    }
  }

  /** The same window seen in a sequence and in one of its suffixes. */
  lemma {:induction false} SliceOfSuffix<T>(w: seq<T>, s: seq<T>, a: nat, b: nat)
    requires IsSuffix(w, s) && a <= b <= |w|
    ensures w[a..b] == s[|s| - |w| + a..|s| - |w| + b]
  {
  }

  lemma {:induction false} EndIsSuffix<T>(a: seq<T>, b: seq<T>)
    ensures IsSuffix(b, a + b)
  {
  }

  lemma {:induction false} LastNIsSuffix<T>(a: seq<T>, b: seq<T>, n: nat)
    ensures IsSuffix(LastN(b, n), a + b)
  {
  }
}
