/** Fixed-width, NUL-padded UTF-8 fields: validity (RFC 3629, section 4), trimming, padding and cutting.

    The program keeps a text field as a `String`, which is a valid UTF-8 byte sequence.  On the wire a field
    has a fixed width: a shorter text is padded with NUL bytes, a longer one is cut at the width, and the
    reader strips NULs from both ends. */
module Utf8 {
  type byte = x: int | 0 <= x < 0x100

  predicate IsContinuation(b: byte) {
    0x80 <= b <= 0xBF
  }

  /** The length of the well-formed character at the head of `s`, or 0 when there is none. */
  function CharLength(s: seq<byte>): (n: nat)
    ensures n <= |s| && n <= 4
  {
    if s == [] then 0
    else if s[0] <= 0x7F then 1
    else if 0xC2 <= s[0] <= 0xDF then
      if |s| >= 2 && IsContinuation(s[1]) then 2 else 0
    else if 0xE0 <= s[0] <= 0xEF then
      if |s| >= 3 && SecondByteOk(s[0], s[1]) && IsContinuation(s[2]) then 3 else 0
    else if 0xF0 <= s[0] <= 0xF4 then
      if |s| >= 4 && SecondByteOk(s[0], s[1]) && IsContinuation(s[2]) && IsContinuation(s[3]) then 4 else 0
    else 0
  }

  /** Overlong forms, surrogates and values above U+10FFFF are ruled out by the second byte. */
  predicate SecondByteOk(first: byte, second: byte) {
    if first == 0xE0 then 0xA0 <= second <= 0xBF
    else if first == 0xED then 0x80 <= second <= 0x9F
    else if first == 0xF0 then 0x90 <= second <= 0xBF
    else if first == 0xF4 then 0x80 <= second <= 0x8F
    else IsContinuation(second)
  }

  predicate Valid(s: seq<byte>) {
    s == [] || (CharLength(s) > 0 && Valid(s[CharLength(s)..]))
  }

  /** A text: the bytes of a `String`. */
  type Text = s: seq<byte> | Valid(s) witness []

  lemma {:induction false} ValidConcat(a: seq<byte>, b: seq<byte>)
    requires Valid(a)
    ensures Valid(a + b) <==> Valid(b)
    decreases |a|
  {
    if a == [] {
      assert a + b == b;
    } else {
      var n := CharLength(a);
      assert CharLength(a + b) == n;
      assert (a + b)[n..] == a[n..] + b;
      ValidConcat(a[n..], b);
    }
  }

  /** Cutting a valid text leaves a valid text exactly when the cut does not fall inside a character. */
  lemma {:induction false} ValidCut(s: seq<byte>, n: nat)
    requires Valid(s) && n < |s|
    ensures Valid(s[..n]) <==> !IsContinuation(s[n])
    decreases |s|
  {
    var c := CharLength(s);
    if n == 0 {
      assert s[..n] == [];
    } else if n < c {
      assert CharLength(s[..n]) == 0;
    } else {
      assert CharLength(s[..n]) == c;
      assert s[..n][c..] == s[c..][..n - c];
      if n == c {
        assert s[c..][0] == s[c];
      }
      ValidCut(s[c..], n - c);
    }
  }

  function Zeros(n: nat): (z: seq<byte>)
    ensures |z| == n && forall i :: 0 <= i < n ==> z[i] == 0
  {
    seq(n, _ => 0)
  }

  lemma {:induction false} ValidAscii(s: seq<byte>)
    requires forall i :: 0 <= i < |s| ==> s[i] < 0x80
    ensures Valid(s)
  {
    if s != [] {
      ValidAscii(s[1..]);
    }
  }

  lemma ValidPadded(s: seq<byte>, after: nat)
    ensures Valid(s + Zeros(after)) <==> Valid(s)
  {
    hide Valid;
    ValidAscii(Zeros(after));
    var padded := s + Zeros(after);
    if Valid(s) {
      ValidConcat(s, Zeros(after));
    }
    if after == 0 {
      assert padded == s;
    } else if Valid(padded) {
      ValidCut(padded, |s|);
      assert padded[..|s|] == s;
    }
  }

  /** NULs on either side do not change validity. */
  lemma ValidPadding(before: nat, s: seq<byte>, after: nat)
    ensures Valid(Zeros(before) + s + Zeros(after)) <==> Valid(s)
  {
    hide Valid;
    ValidAscii(Zeros(before));
    assert Zeros(before) + s + Zeros(after) == Zeros(before) + (s + Zeros(after));
    ValidConcat(Zeros(before), s + Zeros(after));
    ValidPadded(s, after);
  }

  // ---- stripping NULs ----

  predicate Trimmed(s: seq<byte>) {
    s == [] || (s[0] != 0 && s[|s| - 1] != 0)
  }

  function TrimStart(s: seq<byte>): seq<byte> {
    if s != [] && s[0] == 0 then TrimStart(s[1..]) else s
  }

  function TrimEnd(s: seq<byte>): seq<byte> {
    if s != [] && s[|s| - 1] == 0 then TrimEnd(s[..|s| - 1]) else s
  }

  /** `trim_matches` with the NUL character: strips from both ends. */
  function Trim(s: seq<byte>): seq<byte> {
    TrimEnd(TrimStart(s))
  }

  lemma {:induction false} TrimStartShape(s: seq<byte>) returns (k: nat)
    ensures s == Zeros(k) + TrimStart(s)
    ensures TrimStart(s) == [] || TrimStart(s)[0] != 0
  {
    if s != [] && s[0] == 0 {
      var j := TrimStartShape(s[1..]);
      k := j + 1;
      assert Zeros(k) == [0] + Zeros(j);
      assert s == [0] + s[1..];
    } else {
      k := 0;
    }
  }

  lemma {:induction false} TrimEndShape(s: seq<byte>) returns (k: nat)
    ensures s == TrimEnd(s) + Zeros(k)
    ensures TrimEnd(s) == [] || TrimEnd(s)[|TrimEnd(s)| - 1] != 0
  {
    if s != [] && s[|s| - 1] == 0 {
      var j := TrimEndShape(s[..|s| - 1]);
      k := j + 1;
      assert Zeros(k) == Zeros(j) + [0];
      assert s == s[..|s| - 1] + [0];
    } else {
      k := 0;
    }
  }

  /** Trimming removes NULs from the two ends and nothing else; what is left neither starts nor ends with one. */
  lemma TrimShape(s: seq<byte>) returns (before: nat, after: nat)
    ensures s == Zeros(before) + Trim(s) + Zeros(after)
    ensures Trimmed(Trim(s)) && |Trim(s)| <= |s|
    ensures Valid(Trim(s)) <==> Valid(s)
  {
    hide Valid, TrimStart, TrimEnd;
    before := TrimStartShape(s);
    after := TrimEndShape(TrimStart(s));
    assert s == Zeros(before) + Trim(s) + Zeros(after);
    var t := Trim(s);
    if t != [] {
      assert t[0] == TrimStart(s)[0];
    }
    ValidPadding(before, t, after);
  }

  lemma {:induction false} TrimEndPadded(s: seq<byte>, k: nat)
    ensures TrimEnd(s + Zeros(k)) == TrimEnd(s)
    decreases k
  {
    var p := s + Zeros(k);
    if k == 0 {
      assert p == s;
    } else {
      assert p[..|p| - 1] == s + Zeros(k - 1);
      TrimEndPadded(s, k - 1);
    }
  }

  lemma {:induction false} TrimStartPadded(s: seq<byte>, k: nat)
    ensures TrimStart(s + Zeros(k)) == if TrimStart(s) == [] then [] else TrimStart(s) + Zeros(k)
  {
    if s == [] {
      assert s + Zeros(k) == Zeros(k);
      TrimZeros(k);
    } else if s[0] == 0 {
      assert (s + Zeros(k))[1..] == s[1..] + Zeros(k);
      TrimStartPadded(s[1..], k);
    }
  }

  lemma TrimPadded(s: seq<byte>, k: nat)
    ensures Trim(s + Zeros(k)) == Trim(s)
  {
    hide TrimStart, TrimEnd;
    TrimStartPadded(s, k);
    TrimEndPadded(TrimStart(s), k);
  }

  lemma {:induction false} TrimZeros(k: nat)
    ensures TrimStart(Zeros(k)) == []
  {
    if k > 0 {
      assert Zeros(k)[1..] == Zeros(k - 1);
      TrimZeros(k - 1);
    }
  }

  // ---- fixed-width fields ----

  /** A text as it is written into a field of `width` bytes: cut or NUL-padded to the width. */
  function Fixed(s: seq<byte>, width: nat): (f: seq<byte>)
    ensures |f| == width
  {
    if |s| <= width then s + Zeros(width - |s|) else s[..width]
  }

  /** Reading a field back gives the text that was written exactly when it fits and has no NUL at its ends. */
  lemma TrimFixed(s: seq<byte>, width: nat)
    ensures Trim(Fixed(s, width)) == s <==> |s| <= width && Trimmed(s)
  {
    var f := Fixed(s, width);
    var _, _ := TrimShape(f);
    if |s| <= width && Trimmed(s) {
      if s == [] {
        assert f == Zeros(width);
        TrimZeros(width);
      } else {
        assert f[0] == s[0];
        TrimEndPadded(s, width - |s|);
        assert TrimEnd(s) == s;
      }
    }
  }

  /** A field holds valid UTF-8 exactly when its text fits or is cut at a character boundary. */
  lemma ValidFixed(s: seq<byte>, width: nat)
    requires Valid(s)
    ensures Valid(Fixed(s, width)) <==> |s| <= width || !IsContinuation(s[width])
  {
    hide Valid;
    if |s| <= width {
      ValidPadded(s, width - |s|);
    } else {
      ValidCut(s, width);
    }
  }

  // ---- what UTF-8 is ----

  /** A Unicode scalar value: any code point but the surrogates. */
  type Scalar = c: int | 0 <= c < 0xD800 || 0xE000 <= c < 0x11_0000

  /** The encoding of one scalar value (RFC 3629, section 3). */
  function PutScalar(c: Scalar): (b: seq<byte>)
    ensures 1 <= |b| <= 4
  {
    if c < 0x80 then [c]
    else if c < 0x800 then [0xC0 + c / 0x40, 0x80 + c % 0x40]
    else if c < 0x1_0000 then [0xE0 + c / 0x1000, 0x80 + c / 0x40 % 0x40, 0x80 + c % 0x40]
    else [0xF0 + c / 0x4_0000, 0x80 + c / 0x1000 % 0x40, 0x80 + c / 0x40 % 0x40, 0x80 + c % 0x40]
  }

  function PutScalars(cs: seq<Scalar>): seq<byte> {
    if cs == [] then [] else PutScalar(cs[0]) + PutScalars(cs[1..])
  }

  lemma ScalarIsChar(c: Scalar, t: seq<byte>)
    ensures CharLength(PutScalar(c) + t) == |PutScalar(c)|
  {
    var b := PutScalar(c) + t;
    assert forall i :: 0 <= i < |PutScalar(c)| ==> b[i] == PutScalar(c)[i];
    LeadBytes(c);
    if 0x800 <= c < 0x1_0000 {
      SecondOfThree(c);
    } else if c >= 0x1_0000 {
      SecondOfFour(c);
    }
  }

  lemma LeadBytes(c: Scalar)
    ensures 0x80 <= c < 0x800 ==> 0xC2 <= 0xC0 + c / 0x40 <= 0xDF
    ensures 0x800 <= c < 0x1_0000 ==> 0xE0 <= 0xE0 + c / 0x1000 <= 0xEF
    ensures c >= 0x1_0000 ==> 0xF0 <= 0xF0 + c / 0x4_0000 <= 0xF4
  {
  }

  lemma SecondOfThree(c: Scalar)
    requires 0x800 <= c < 0x1_0000
    ensures SecondByteOk(0xE0 + c / 0x1000, 0x80 + c / 0x40 % 0x40)
  {
    var q := c / 0x40;
    assert c / 0x1000 == q / 0x40;
  }

  lemma SecondOfFour(c: Scalar)
    requires c >= 0x1_0000
    ensures SecondByteOk(0xF0 + c / 0x4_0000, 0x80 + c / 0x1000 % 0x40)
  {
    var q := c / 0x1000;
    assert c / 0x4_0000 == q / 0x40;
  }

  /** The scalar value that a well-formed character encodes. */
  function GetScalar(s: seq<byte>): Scalar
    requires CharLength(s) > 0
  {
    match CharLength(s)
    case 1 => s[0]
    case 2 => Six(s[0] - 0xC0, s[1])
    case 3 => Six(Six(s[0] - 0xE0, s[1]), s[2])
    case _ => Six(Six(Six(s[0] - 0xF0, s[1]), s[2]), s[3])
  }

  /** Six more bits, from a continuation byte. */
  function Six(high: nat, low: byte): int {
    high * 0x40 + ((low as int) - 0x80)
  }

  lemma SixSplit(high: nat, low: byte)
    requires IsContinuation(low)
    ensures Six(high, low) / 0x40 == high && 0x80 + Six(high, low) % 0x40 == low
  {
  }

  lemma DivTwice(c: nat)
    ensures c / 0x1000 == c / 0x40 / 0x40 && c / 0x4_0000 == c / 0x40 / 0x40 / 0x40
  {
  }

  lemma CharIsScalar(s: seq<byte>)
    requires CharLength(s) > 0
    ensures PutScalar(GetScalar(s)) == s[..CharLength(s)]
  {
    hide Six;
    DivTwice(GetScalar(s));
    match CharLength(s)
    case 1 =>
    case 2 => SixSplit(s[0] - 0xC0, s[1]);
    case 3 =>
      SixSplit(s[0] - 0xE0, s[1]);
      SixSplit(Six(s[0] - 0xE0, s[1]), s[2]);
    case _ =>
      SixSplit(s[0] - 0xF0, s[1]);
      SixSplit(Six(s[0] - 0xF0, s[1]), s[2]);
      SixSplit(Six(Six(s[0] - 0xF0, s[1]), s[2]), s[3]);
  }

  lemma {:induction false} ScalarsAreValid(cs: seq<Scalar>)
    ensures Valid(PutScalars(cs))
  {
    if cs != [] {
      ScalarsAreValid(cs[1..]);
      ScalarIsChar(cs[0], PutScalars(cs[1..]));
      assert PutScalars(cs)[|PutScalar(cs[0])|..] == PutScalars(cs[1..]);
    }
  }

  lemma {:induction false} ValidIsScalarsOf(s: seq<byte>) returns (cs: seq<Scalar>)
    requires Valid(s)
    ensures PutScalars(cs) == s
  {
    hide CharLength, GetScalar, PutScalar;
    if s == [] {
      cs := [];
    } else {
      var n := CharLength(s);
      var rest := ValidIsScalarsOf(s[n..]);
      CharIsScalar(s);
      cs := [GetScalar(s)] + rest;
      assert s == s[..n] + s[n..];
    }
  }

  /** A byte sequence is a text exactly if it is the encoding of some scalar values. */
  lemma ValidExactly(s: seq<byte>)
    ensures Valid(s) <==> exists cs :: PutScalars(cs) == s
  {
    if Valid(s) {
      var cs := ValidIsScalarsOf(s);
    }
    forall cs | PutScalars(cs) == s ensures Valid(s) {
      ScalarsAreValid(cs);
    }
  }
}
