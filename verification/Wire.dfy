/** Reading and writing the primitive values of a packet: little-endian integers, float bit patterns, flags
    and fixed-width texts.

    A read takes bytes off the front of what is left.  The buffer primitives of the program panic when too few
    bytes are left, so a read has three outcomes: a value and the bytes after it, an error, or a panic. */
module Wire {
  import opened Utf8

  type u16 = x: int | 0 <= x < 0x1_0000
  type u32 = x: int | 0 <= x < 0x1_0000_0000
  type i8 = x: int | -0x80 <= x < 0x80
  type i32 = x: int | -0x8000_0000 <= x < 0x8000_0000

  datatype DecodeError = NotEnoughData | BadUtf8

  datatype Read<+T> = Got(value: T, rest: seq<byte>) | Bad(error: DecodeError) | Panicked {
    predicate IsFailure() {
      !Got?
    }

    function PropagateFailure<U>(): Read<U>
      requires IsFailure()
    {
      if Bad? then Bad(error) else Panicked
    }

    function Extract(): (T, seq<byte>)
      requires Got?
    {
      (value, rest)
    }

    /** The same outcome when `more` follows the bytes that were read from. */
    function Then(more: seq<byte>): Read<T> {
      if Got? then Got(value, rest + more) else this
    }
  }

  // ---- writing ----

  function PutU16(v: u16): (b: seq<byte>)
    ensures |b| == 2
  {
    [v % 0x100, v / 0x100]
  }

  function PutU32(v: u32): (b: seq<byte>)
    ensures |b| == 4
  {
    PutU16(v % 0x1_0000) + PutU16(v / 0x1_0000)
  }

  function PutI8(v: i8): (b: seq<byte>)
    ensures |b| == 1
  {
    [v % 0x100]
  }

  function PutI32(v: i32): (b: seq<byte>)
    ensures |b| == 4
  {
    PutU32(if v < 0 then v + 0x1_0000_0000 else v)
  }

  function PutBool(v: bool): (b: seq<byte>)
    ensures |b| == 1
  {
    [if v then 1 else 0]
  }

  // ---- reading ----

  function GetBytes(b: seq<byte>, n: nat): Read<seq<byte>> {
    if |b| < n then Panicked else Got(b[..n], b[n..])
  }

  function GetU8(b: seq<byte>): Read<byte> {
    if |b| < 1 then Panicked else Got(b[0], b[1..])
  }

  function GetU16(b: seq<byte>): Read<u16> {
    if |b| < 2 then Panicked else Got((b[0] as int) + 0x100 * (b[1] as int), b[2..])
  }

  function GetU32(b: seq<byte>): Read<u32> {
    if |b| < 4 then Panicked
    else
      var low, high := (b[0] as int) + 0x100 * (b[1] as int), (b[2] as int) + 0x100 * (b[3] as int);
      Got(low + 0x1_0000 * high, b[4..])
  }

  function GetI8(b: seq<byte>): Read<i8> {
    if |b| < 1 then Panicked else Got(if b[0] >= 0x80 then (b[0] as int) - 0x100 else b[0], b[1..])
  }

  function GetI32(b: seq<byte>): Read<i32> {
    var (v, r) :- GetU32(b);
    Got(if v >= 0x8000_0000 then v - 0x1_0000_0000 else v, r)
  }

  /** Any non-zero byte counts as true. */
  function GetBool(b: seq<byte>): Read<bool> {
    var (v, r) :- GetU8(b);
    Got(v != 0, r)
  }

  /** A text exactly as it stands in its field, NULs included. */
  function GetRawText(b: seq<byte>, width: nat): Read<Text> {
    var (f, r) :- GetBytes(b, width);
    if Valid(f) then Got(f, r) else Bad(BadUtf8)
  }


  // ---- each read undoes the matching write ----

  lemma GetPutU16(v: u16, t: seq<byte>)
    ensures GetU16(PutU16(v) + t) == Got(v, t)
  {
    assert (PutU16(v) + t)[2..] == t;
  }

  lemma GetPutU32(v: u32, t: seq<byte>)
    ensures GetU32(PutU32(v) + t) == Got(v, t)
  {
    var low, high := PutU16(v % 0x1_0000), PutU16(v / 0x1_0000);
    assert PutU32(v) + t == low + (high + t);
    GetPutU16(v % 0x1_0000, high + t);
    GetPutU16(v / 0x1_0000, t);
    assert (low + (high + t))[2..] == high + t;
    assert (high + t)[2..] == t;
  }

  lemma GetPutU8(v: byte, t: seq<byte>)
    ensures GetU8([v] + t) == Got(v, t)
  {
    assert ([v] + t)[1..] == t;
  }

  lemma GetPutI8(v: i8, t: seq<byte>)
    ensures GetI8(PutI8(v) + t) == Got(v, t)
  {
    assert (PutI8(v) + t)[1..] == t;
  }

  lemma GetPutI32(v: i32, t: seq<byte>)
    ensures GetI32(PutI32(v) + t) == Got(v, t)
  {
    GetPutU32(if v < 0 then v + 0x1_0000_0000 else v, t);
  }

  lemma GetPutBool(v: bool, t: seq<byte>)
    ensures GetBool(PutBool(v) + t) == Got(v, t)
  {
    GetPutU8(if v then 1 else 0, t);
  }

  lemma GetPutRawText(f: seq<byte>, t: seq<byte>)
    ensures GetRawText(f + t, |f|) == if Valid(f) then Got(f, t) else Bad(BadUtf8)
  {
    assert (f + t)[..|f|] == f && (f + t)[|f|..] == t;
  }
}
