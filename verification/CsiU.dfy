/** Recognising `CSI ... u` key reports at the start of a byte string. */
module CsiU {
  import opened Bytes
  import opened Ascii

  datatype Verdict = Release(len: nat) | Other(len: nat) | Incomplete | NotCsiU

  predicate IsParam(b: byte) {
    IsDigit(b) || b == SEMICOLON || b == COLON
  }

  predicate AllParams(s: seq<byte>) {
    forall i | 0 <= i < |s| :: IsParam(s[i])
  }

  /** Second `;` field, second `:` subfield is exactly "3". */
  predicate IsKittyReleaseEvent(params: seq<byte>) {
    var fields := Split(params, SEMICOLON);
    if |fields| < 2 then false
    else
      var subfields := Split(fields[1], COLON);
      |subfields| >= 2 && subfields[1] == [THREE]
  }

  // -------------------------------------------------------------- what is reported

  predicate IsSequence(s: seq<byte>) {
    |s| >= 3 && s[0] == ESC && s[1] == BRACKET && s[|s| - 1] == LETTER_U && AllParams(s[2..|s| - 1])
  }

  predicate IsReleaseSequence(s: seq<byte>) {
    IsSequence(s) && IsKittyReleaseEvent(s[2..|s| - 1])
  }

  /** A non-empty string that more bytes could still turn into a sequence. */
  predicate IsSequencePrefix(s: seq<byte>) {
    s == [ESC] || (|s| >= 2 && s[0] == ESC && s[1] == BRACKET && AllParams(s[2..]))
  }

  /** First index at or after `i` that holds no parameter byte. */
  function ParamEnd(bytes: seq<byte>, i: nat): (end: nat)
    requires i <= |bytes|
    ensures i <= end <= |bytes|
    ensures forall k | i <= k < end :: IsParam(bytes[k])
    ensures end < |bytes| ==> !IsParam(bytes[end])
    decreases |bytes| - i
  {
    if i < |bytes| && IsParam(bytes[i]) then ParamEnd(bytes, i + 1) else i
  }

  function Classify(bytes: seq<byte>): (verdict: Verdict)
    ensures verdict.Release? || verdict.Other? ==> 3 <= verdict.len <= |bytes|
    ensures !verdict.NotCsiU? ==> bytes != [] && bytes[0] == ESC
  {
    if bytes == [] || bytes[0] != ESC then NotCsiU
    else if |bytes| == 1 then Incomplete
    else if bytes[1] != BRACKET then NotCsiU
    else
      var end := ParamEnd(bytes, 2);
      if end == |bytes| then Incomplete
      else if bytes[end] != LETTER_U then NotCsiU
      else if IsKittyReleaseEvent(bytes[2..end]) then Release(end + 1)
      else Other(end + 1)
  }

  method ClassifyCsiU(bytes: seq<byte>) returns (verdict: Verdict)
    ensures verdict == Classify(bytes)
  {
    if bytes == [] || bytes[0] != ESC {
      return NotCsiU;
    }
    if |bytes| == 1 {
      return Incomplete;
    }
    if bytes[1] != BRACKET {
      return NotCsiU;
    }
    var i := 2;
    while i < |bytes|
      invariant 2 <= i <= |bytes|
      invariant ParamEnd(bytes, i) == ParamEnd(bytes, 2)
    {
      if bytes[i] == LETTER_U {
        var params := bytes[2..i];
        var len := i + 1;
        return if IsKittyReleaseEvent(params) then Release(len) else Other(len);
      } else if IsDigit(bytes[i]) || bytes[i] == SEMICOLON || bytes[i] == COLON {
        i := i + 1;
      } else {
        return NotCsiU;
      }
    }
    return Incomplete;
  }

  lemma {:induction false} ParamEndUnique(bytes: seq<byte>, i: nat, end: nat)
    requires i <= end <= |bytes|
    requires forall k | i <= k < end :: IsParam(bytes[k])
    requires end < |bytes| ==> !IsParam(bytes[end])
    ensures ParamEnd(bytes, i) == end
  {
  }

  /** A report at the front of `bytes` is found, with its own length. */
  lemma {:induction false} SequenceIsFound(bytes: seq<byte>, n: nat)
    requires n <= |bytes| && IsSequence(bytes[..n])
    ensures Classify(bytes) == if IsReleaseSequence(bytes[..n]) then Release(n) else Other(n)
  {
    SliceOfSlice(bytes, 0, n, 2, n - 1);
    assert bytes[0..n] == bytes[..n];
    assert bytes[..n][n - 1] == bytes[n - 1] && bytes[..n][0] == bytes[0] && bytes[..n][1] == bytes[1];
    assert forall k | 2 <= k < n - 1 :: bytes[k] == bytes[2..n - 1][k - 2];
    ParamEndUnique(bytes, 2, n - 1);
  }

  lemma {:induction false} PrefixIsIncomplete(bytes: seq<byte>)
    requires IsSequencePrefix(bytes)
    ensures Classify(bytes) == Incomplete
  {
    if |bytes| >= 2 {
      assert forall k | 2 <= k < |bytes| :: bytes[k] == bytes[2..][k - 2];
      ParamEndUnique(bytes, 2, |bytes|);
    }
  }

  /** The verdict says exactly what `bytes` starts with. */
  lemma {:induction false} ClassifyMeaning(bytes: seq<byte>)
    ensures match Classify(bytes)
            case Release(n) => n <= |bytes| && IsReleaseSequence(bytes[..n])
            case Other(n) => n <= |bytes| && IsSequence(bytes[..n]) && !IsReleaseSequence(bytes[..n])
            case Incomplete => IsSequencePrefix(bytes)
            case NotCsiU => !IsSequencePrefix(bytes) && forall n | 0 <= n <= |bytes| :: !IsSequence(bytes[..n])
  {
    match Classify(bytes)
    case Release(n) => FoundIsSequence(bytes, n);
    case Other(n) => FoundIsSequence(bytes, n);
    case Incomplete =>
    case NotCsiU =>
      if IsSequencePrefix(bytes) {
        PrefixIsIncomplete(bytes);
      }
      forall n | 0 <= n <= |bytes|
        ensures !IsSequence(bytes[..n])
      {
        if IsSequence(bytes[..n]) {
          SequenceIsFound(bytes, n);
        }
      }
  }

  lemma {:induction false} FoundIsSequence(bytes: seq<byte>, n: nat)
    requires Classify(bytes) == Release(n) || Classify(bytes) == Other(n)
    ensures 3 <= n <= |bytes| && IsSequence(bytes[..n])
    ensures IsReleaseSequence(bytes[..n]) <==> Classify(bytes) == Release(n)
  {
    var s := bytes[..n];
    assert s[0] == bytes[0] && s[1] == bytes[1] && s[n - 1] == bytes[n - 1];
    assert s[2..n - 1] == bytes[2..n - 1];
  }

  /** More bytes never change a verdict other than Incomplete. */
  lemma {:induction false} VerdictIsStable(bytes: seq<byte>, more: seq<byte>)
    requires Classify(bytes) != Incomplete && bytes != []
    ensures Classify(bytes + more) == Classify(bytes)
  {
    var all := bytes + more;
    if bytes[0] == ESC && |bytes| >= 2 && bytes[1] == BRACKET {
      var end := ParamEnd(bytes, 2);
      assert forall k | 0 <= k < |bytes| :: all[k] == bytes[k];
      ParamEndUnique(all, 2, end);
      assert all[2..end] == bytes[2..end];
    }
  }

  /** Inside a report or a prefix of one there is no second escape byte. */
  lemma {:induction false} NoInnerEscape(bytes: seq<byte>, k: nat)
    requires 0 < k < |bytes|
    requires match Classify(bytes)
             case Release(n) => k < n
             case Other(n) => k < n
             case Incomplete => true
             case NotCsiU => false
    ensures bytes[k] != ESC
  {
  }

  // ------------------------------------------------ the release test, without Split

  /** `params` is  key ; modifiers :3  and then nothing, or a further field or subfield. */
  ghost predicate HasReleaseShape(params: seq<byte>, key: seq<byte>, mods: seq<byte>, rest: seq<byte>) {
    && SEMICOLON !in key && SEMICOLON !in mods && COLON !in mods
    && params == key + [SEMICOLON] + mods + [COLON, THREE] + rest
    && (rest == [] || rest[0] == SEMICOLON || rest[0] == COLON)
  }

  /** The first field, and how the string goes on after it. */
  lemma {:induction false} FirstField(s: seq<byte>, sep: byte)
    ensures var f := Split(s, sep)[0];
            && sep !in f && |f| <= |s| && s[..|f|] == f
            && (|Split(s, sep)| == 1 <==> |f| == |s|)
            && (|f| < |s| ==> s[|f|] == sep && Split(s, sep)[1] == Split(s[|f| + 1..], sep)[0])
  {
    var i := Find(s, sep);
    assert s[..|s|] == s;
    assert sep !in s[..i];
  }

  lemma {:induction false} ReleaseHasShape(params: seq<byte>)
    requires IsKittyReleaseEvent(params)
    ensures exists key, mods, rest :: HasReleaseShape(params, key, mods, rest)
  {
    hide Split, Find, HasReleaseShape;
    FirstField(params, SEMICOLON);
    var key := Split(params, SEMICOLON)[0];
    var tail := params[|key| + 1..];
    FirstField(tail, SEMICOLON);
    var field := Split(tail, SEMICOLON)[0];
    assert Split(params, SEMICOLON)[1] == field;
    FirstField(field, COLON);
    var mods := Split(field, COLON)[0];
    var sub := field[|mods| + 1..];
    FirstField(sub, COLON);
    assert Split(field, COLON)[1] == [THREE];
    assert sub[..1] == [THREE] && sub[0] == sub[..1][0];
    var rest := tail[|mods| + 2..];
    ShapePieces(params, key, tail, field, mods, sub, rest);
  }

  lemma {:induction false} ShapePieces(params: seq<byte>, key: seq<byte>, tail: seq<byte>, field: seq<byte>,
                                       mods: seq<byte>, sub: seq<byte>, rest: seq<byte>)
    requires |key| < |params| && params[..|key|] == key && params[|key|] == SEMICOLON && tail == params[|key| + 1..]
    requires |field| <= |tail| && tail[..|field|] == field && (|field| < |tail| ==> tail[|field|] == SEMICOLON)
    requires |mods| < |field| && field[..|mods|] == mods && field[|mods|] == COLON && sub == field[|mods| + 1..]
    requires |sub| >= 1 && sub[0] == THREE && (|sub| > 1 ==> sub[1] == COLON)
    requires rest == tail[|mods| + 2..]
    requires SEMICOLON !in key && SEMICOLON !in field && COLON !in mods
    ensures HasReleaseShape(params, key, mods, rest)
  {
    TailPieces(tail, field, mods, rest);
    assert params == key + [SEMICOLON] + tail;
    assert params == key + [SEMICOLON] + mods + [COLON, THREE] + rest;
    assert forall b | b in mods :: b in field;
    if rest != [] {
      assert rest[0] == tail[|mods| + 2];
      if |sub| > 1 {
        assert tail[|mods| + 2] == field[|mods| + 2] == sub[1];
      }
    }
  }

  lemma {:induction false} TailPieces(tail: seq<byte>, field: seq<byte>, mods: seq<byte>, rest: seq<byte>)
    requires |mods| + 2 <= |field| <= |tail| && tail[..|field|] == field
    requires field[..|mods|] == mods && field[|mods|] == COLON && field[|mods| + 1] == THREE
    requires rest == tail[|mods| + 2..]
    ensures tail == mods + [COLON, THREE] + rest
  {
    var m := |mods|;
    assert tail[m] == field[m] && tail[m + 1] == field[m + 1];
    assert tail[..m] == field[..m];
    assert tail == tail[..m] + [tail[m], tail[m + 1]] + tail[m + 2..];
  }

  lemma {:induction false} FieldAfterLead(lead: seq<byte>, rest: seq<byte>, sep: byte)
    requires sep !in lead
    ensures Split(lead + rest, sep)[0] == lead + rest[..Find(rest, sep)]
  {
    var i := Find(rest, sep);
    var s := lead + rest;
    assert forall k | 0 <= k < |lead| + i :: s[k] == if k < |lead| then lead[k] else rest[k - |lead|];
    FindUnique(s, sep, |lead| + i);
    assert s[..|lead| + i] == lead + rest[..i];
  }

  lemma {:induction false} ThirdEvent(mods: seq<byte>, more: seq<byte>)
    requires COLON !in mods && (more == [] || more[0] == COLON)
    ensures |Split(mods + [COLON] + ([THREE] + more), COLON)| >= 2
    ensures Split(mods + [COLON] + ([THREE] + more), COLON)[1] == [THREE]
  {
    SplitAt(mods, COLON, [THREE] + more);
    SplitAt([THREE], COLON, if more == [] then [] else more[1..]);
    if more == [] {
      assert [THREE] + more == [THREE];
    } else {
      assert [THREE] + more == [THREE] + [COLON] + more[1..];
    }
  }

  lemma {:induction false} SecondField(key: seq<byte>, lead: seq<byte>, rest: seq<byte>)
    requires SEMICOLON !in key && SEMICOLON !in lead
    ensures var fields := Split(key + [SEMICOLON] + (lead + rest), SEMICOLON);
            |fields| >= 2 && fields[1] == lead + rest[..Find(rest, SEMICOLON)]
  {
    SplitAt(key, SEMICOLON, lead + rest);
    FieldAfterLead(lead, rest, SEMICOLON);
  }

  lemma {:induction false} ShapeIsRelease(params: seq<byte>, key: seq<byte>, mods: seq<byte>, rest: seq<byte>)
    requires HasReleaseShape(params, key, mods, rest)
    ensures IsKittyReleaseEvent(params)
  {
    hide Split, Find;
    var lead := mods + [COLON, THREE];
    var more := rest[..Find(rest, SEMICOLON)];
    SecondField(key, lead, rest);
    ThirdEvent(mods, more);
    assert lead + more == mods + [COLON] + ([THREE] + more);
    assert key + [SEMICOLON] + (lead + rest) == params;
  }

  /** The release test in terms of the report's text. */
  lemma {:induction false} ReleaseMeaning(params: seq<byte>)
    ensures IsKittyReleaseEvent(params) <==> exists key, mods, rest :: HasReleaseShape(params, key, mods, rest)
  {
    if IsKittyReleaseEvent(params) {
      ReleaseHasShape(params);
    }
    forall key, mods, rest | HasReleaseShape(params, key, mods, rest)
      ensures IsKittyReleaseEvent(params)
    {
      ShapeIsRelease(params, key, mods, rest);
    }
  }

  /** A release's parameters: no `;` before the second field, `:3` behind the modifiers, then a separator or nothing. */
  predicate IsReleaseText(params: seq<byte>, key: seq<byte>, mods: seq<byte>, rest: seq<byte>) {
    && params == key + [59] + mods + [58, 51] + rest
    && 59 !in key && 59 !in mods && 58 !in mods && (rest == [] || rest[0] == 59 || rest[0] == 58)
  }

  /**
   * The verdict on `ESC [` and what follows is decided by the first byte that is no digit, `;` or
   * `:`, and by the bytes up to it; nothing else but a lone `ESC` is ever a report or unfinished.
   */
  lemma {:induction false} VerdictByBytes(bytes: seq<byte>, end: nat)
    requires 2 <= end <= |bytes| && bytes[..2] == [27, 91]
    requires forall k | 2 <= k < end :: 48 <= bytes[k] <= 57 || bytes[k] == 58 || bytes[k] == 59
    requires end < |bytes| ==> !(48 <= bytes[end] <= 57) && bytes[end] != 58 && bytes[end] != 59
    ensures end == |bytes| <==> Classify(bytes) == Incomplete
    ensures end < |bytes| && bytes[end] != 117 <==> Classify(bytes) == NotCsiU
    ensures end < |bytes| && bytes[end] == 117 ==>
            (Classify(bytes) == Release(end + 1) || Classify(bytes) == Other(end + 1))
    ensures end < |bytes| && bytes[end] == 117 ==>
            (Classify(bytes).Release? <==> exists key, mods, rest :: IsReleaseText(bytes[2..end], key, mods, rest))
  {
    hide IsKittyReleaseEvent;
    assert bytes[..2] == [bytes[0], bytes[1]];
    ParamEndUnique(bytes, 2, end);
    ReleaseMeaning(bytes[2..end]);
    forall key, mods, rest
      ensures HasReleaseShape(bytes[2..end], key, mods, rest) <==> IsReleaseText(bytes[2..end], key, mods, rest)
    {
    }
  }

  lemma {:induction false} NoReportWithoutBracket(bytes: seq<byte>)
    requires |bytes| < 2 || bytes[..2] != [27, 91]
    ensures Classify(bytes) == if bytes == [27] then Incomplete else NotCsiU
  {
    if |bytes| >= 2 {
      assert bytes[..2] == [bytes[0], bytes[1]];
    }
  }
}
