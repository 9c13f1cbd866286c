/** The cursor and buffer code that reads and writes packets, proved against the functions of module Packets. */
module Codec {
  import opened Utf8
  import opened Wire
  import opened Packets

  /** The result of a call that may fail or panic. */
  datatype Outcome<+T> = Ok(value: T) | Err(error: DecodeError) | Panic {
    predicate IsFailure() {
      !Ok?
    }

    function PropagateFailure<U>(): Outcome<U>
      requires IsFailure()
    {
      if Err? then Err(error) else Panic
    }

    function Extract(): T
      requires Ok?
    {
      value
    }
  }

  lemma {:induction false} FloatsOutcome(b: seq<byte>, n: nat)
    ensures if |b| < 4 * n then GetFloats(b, n) == Panicked else GetFloats(b, n).Got?
  {
    if n > 0 && |b| >= 4 {
      FloatsOutcome(b[4..], n - 1);
    }
  }

  lemma {:induction false} GetFloatsSnoc(b: seq<byte>, n: nat)
    ensures var init := GetFloats(b, n);
            init.Got? && |init.rest| >= 4 ==>
              GetFloats(b, n + 1) == Got(init.value + [GetU32(init.rest).value], init.rest[4..])
  {
    if n == 0 {
      if |b| >= 4 {
        var w := GetU32(b);
        assert GetFloats(w.rest, 0) == Got([], w.rest);
        assert [w.value] + [] == [] + [w.value];
      }
    } else if |b| >= 4 {
      var w := GetU32(b);
      GetFloatsSnoc(w.rest, n - 1);
      var init := GetFloats(w.rest, n - 1);
      if init.Got? && |init.rest| >= 4 {
        var last := [GetU32(init.rest).value];
        assert [w.value] + (init.value + last) == [w.value] + init.value + last;
      }
    }
  }

  /** A reading position in a fixed run of bytes. */
  class Cursor {
    const data: seq<byte>
    var pos: nat

    ghost predicate Valid()
      reads this
    {
      pos <= |data|
    }

    constructor (data: seq<byte>)
      ensures Valid() && this.data == data && pos == 0 && Rest() == data
    {
      this.data := data;
      pos := 0;
    }

    function Rest(): seq<byte>
      requires Valid()
      reads this
    {
      data[pos..]
    }

    /** The call did what reading `spec` does. */
    ghost predicate Did<T>(spec: Read<T>, r: Outcome<T>)
      reads this
    {
      Valid() &&
      match spec
      case Got(v, rest) => r == Ok(v) && Rest() == rest
      case Bad(e) => r == Err(e)
      case Panicked => r == Panic
    }

    function Remaining(): (n: nat)
      requires Valid()
      reads this
      ensures n == |Rest()|
    {
      |data| - pos
    }

    method SetPosition(p: nat)
      requires p <= |data|
      modifies this
      ensures Valid() && pos == p
    {
      pos := p;
    }

    method CopyToBytes(n: nat) returns (r: Outcome<seq<byte>>)
      requires Valid()
      modifies this
      ensures Did(GetBytes(old(Rest()), n), r)
    {
      if Remaining() < n {
        return Panic;
      }
      var bytes := data[pos..pos + n];
      assert bytes == Rest()[..n];
      pos := pos + n;
      assert data[pos..] == old(Rest())[n..];
      return Ok(bytes);
    }

    method Advance(n: nat) returns (r: Outcome<()>)
      requires Valid()
      modifies this
      ensures Valid()
      ensures r == if n <= |old(Rest())| then Ok(()) else Panic
      ensures r.Ok? ==> pos == old(pos) + n && Rest() == old(Rest())[n..]
    {
      var _ :- CopyToBytes(n);
      return Ok(());
    }

    method GetU8Le() returns (r: Outcome<byte>)
      requires Valid()
      modifies this
      ensures Did(GetU8(old(Rest())), r)
    {
      var b :- CopyToBytes(1);
      return Ok(b[0]);
    }

    method GetU16Le() returns (r: Outcome<u16>)
      requires Valid()
      modifies this
      ensures Did(GetU16(old(Rest())), r)
    {
      var b :- CopyToBytes(2);
      return Ok((b[0] as int) + 0x100 * (b[1] as int));
    }

    method GetU32Le() returns (r: Outcome<u32>)
      requires Valid()
      modifies this
      ensures Did(GetU32(old(Rest())), r)
    {
      var b :- CopyToBytes(4);
      var low, high := (b[0] as int) + 0x100 * (b[1] as int), (b[2] as int) + 0x100 * (b[3] as int);
      return Ok(low + 0x1_0000 * high);
    }

    method GetI32Le() returns (r: Outcome<i32>)
      requires Valid()
      modifies this
      ensures Did(GetI32(old(Rest())), r)
    {
      var v :- GetU32Le();
      return Ok(if v >= 0x8000_0000 then (v as int) - 0x1_0000_0000 else v);
    }

    method GetI8Le() returns (r: Outcome<i8>)
      requires Valid()
      modifies this
      ensures Did(GetI8(old(Rest())), r)
    {
      var v :- GetU8Le();
      return Ok(if v >= 0x80 then (v as int) - 0x100 else v);
    }

    method GetFlag() returns (r: Outcome<bool>)
      requires Valid()
      modifies this
      ensures Did(GetBool(old(Rest())), r)
    {
      var v :- GetU8Le();
      return Ok(v != 0);
    }

    method ReadVector3() returns (r: Outcome<Vector3>)
      requires Valid()
      modifies this
      ensures Did(GetVector3(old(Rest())), r)
    {
      var x :- GetU32Le();
      var y :- GetU32Le();
      var z :- GetU32Le();
      return Ok(Vector3(x, y, z));
    }

    method ReadQuaternion() returns (r: Outcome<Quaternion>)
      requires Valid()
      modifies this
      ensures Did(GetQuaternion(old(Rest())), r)
    {
      var w :- GetU32Le();
      var i :- GetU32Le();
      var j :- GetU32Le();
      var k :- GetU32Le();
      return Ok(Quaternion(w, i, j, k));
    }

    /** A text as it stands; `from_utf8` rejects invalid bytes. */
    method ReadRawText(width: nat) returns (r: Outcome<Text>)
      requires Valid()
      modifies this
      ensures Did(GetRawText(old(Rest()), width), r)
    {
      var f :- CopyToBytes(width);
      if Utf8.Valid(f) {
        return Ok(f);
      }
      return Err(BadUtf8);
    }

    /** `buf_size_to_string` */
    method BufSizeToString(width: nat) returns (r: Outcome<Text>)
      requires Valid()
      modifies this
      ensures Did(GetStringField(old(Rest()), width), r)
    {
      var f :- ReadRawText(width);
      assert Utf8.Valid(Trim(f)) by {
        var _, _ := TrimShape(f);
      }
      return Ok(Trim(f));
    }

    /** The weights are read one by one into a zeroed array. */
    method ReadWeights() returns (r: Outcome<Weights>)
      requires Valid()
      modifies this
      ensures Valid()
      ensures match GetFloats(old(Rest()), 6)
              case Got(v, rest) => r.Ok? && r.value == v && Rest() == rest
              case Bad(e) => r == Err(e)
              case Panicked => r == Panic
    {
      var weights := new Float[6](_ => 0);
      ghost var start := Rest();
      FloatsOutcome(start, 6);
      for i := 0 to 6
        invariant Valid() && |Rest()| == |start| - 4 * i
        invariant GetFloats(start, i) == Got(weights[..i], Rest())
      {
        GetFloatsSnoc(start, i);
        ghost var done := weights[..i];
        var w :- GetU32Le();
        weights[i] := w;
        assert weights[..i + 1] == done + [w];
      }
      assert weights[..6] == weights[..];
      return Ok(weights[..]);
    }

    /** The `match` on the packet type in `decode`. */
    method ReadData(tag: u16, size: u16) returns (r: Outcome<PacketData>)
      requires Valid()
      modifies this
      ensures Did(DecodeData(tag, size, old(Rest())), r)
    {
      match tag {
        case 1 =>
          var maxPlayers :- GetU16Le();
          return Ok(Init(maxPlayers));
        case 2 =>
          r := ReadPlayer();
        case 3 =>
          r := ReadCap();
        case 4 =>
          var is2d :- GetFlag();
          var scenarioNum :- GetU8Le();
          var stage :- BufSizeToString(STAGE_GAME_NAME_SIZE);
          return Ok(Game(is2d, scenarioNum, stage));
        case 5 =>
          r := ReadTag();
        case 6 =>
          var c :- GetU32Le();
          var maxPlayer :- GetU16Le();
          var clientName :- BufSizeToString(CLIENT_NAME_SIZE);
          return Ok(Connect(if c == 0 then FirstConnection else Reconnecting, maxPlayer, clientName));
        case 7 =>
          return Ok(Disconnect);
        case 8 =>
          var bodyName :- BufSizeToString(COSTUME_NAME_SIZE);
          var capName :- BufSizeToString(COSTUME_NAME_SIZE);
          return Ok(CostumeData(Costume(bodyName, capName)));
        case 9 =>
          var shineId :- GetI32Le();
          var isGrand :- GetFlag();
          return Ok(Shine(shineId, isGrand));
        case 10 =>
          var model :- BufSizeToString(COSTUME_NAME_SIZE);
          return Ok(Capture(model));
        case 11 =>
          r := ReadChangeStage();
        case 12 =>
          return Ok(Command);
        case 13 =>
          var port :- GetU16Le();
          return Ok(UdpInit(port));
        case _ =>
          var data :- CopyToBytes(size);
          return Ok(Unhandled(tag, data));
      }
    }

    method ReadPlayer() returns (r: Outcome<PacketData>)
      requires Valid()
      modifies this
      ensures Did(DecodePlayer(old(Rest())), r)
    {
      var pos :- ReadVector3();
      var rot :- ReadQuaternion();
      var weights :- ReadWeights();
      var act :- GetU16Le();
      var subAct :- GetU16Le();
      return Ok(Player(pos, rot, weights, act, subAct));
    }

    method ReadCap() returns (r: Outcome<PacketData>)
      requires Valid()
      modifies this
      ensures Did(DecodeCap(old(Rest())), r)
    {
      var pos :- ReadVector3();
      var rot :- ReadQuaternion();
      var capOut :- GetFlag();
      var capAnim :- ReadRawText(COSTUME_NAME_SIZE);
      return Ok(Cap(pos, rot, capOut, capAnim));
    }

    method ReadTag() returns (r: Outcome<PacketData>)
      requires Valid()
      modifies this
      ensures Did(DecodeTag(old(Rest())), r)
    {
      var update :- GetU8Le();
      var isIt :- GetFlag();
      var seconds :- GetU8Le();
      var minutes :- GetU16Le();
      return Ok(Tag(if update == 1 then Time else State, isIt, seconds, minutes));
    }

    method ReadChangeStage() returns (r: Outcome<PacketData>)
      requires Valid()
      modifies this
      ensures Did(DecodeChangeStage(old(Rest())), r)
    {
      var stage :- BufSizeToString(STAGE_CHANGE_NAME_SIZE);
      var id :- BufSizeToString(STAGE_ID_SIZE);
      var scenario :- GetI8Le();
      var subScenario :- GetU8Le();
      return Ok(ChangeStage(stage, id, scenario, subScenario));
    }

    /** `Packet::decode` */
    method DecodePacket() returns (r: Outcome<Packet>)
      requires Valid()
      modifies this
      ensures Did(Decode(old(Rest())), r)
    {
      if Remaining() < 16 + 2 + 2 {
        return Err(NotEnoughData);
      }
      ghost var start := Rest();
      var id := CopyToBytes(16);
      var tagRead := GetU16Le();
      assert start[16..][2..] == start[18..];
      var sizeRead := GetU16Le();
      assert start[18..][2..] == start[HEADER_SIZE..];
      var tag, size := tagRead.value, sizeRead.value;
      if Remaining() < size {
        return Err(NotEnoughData);
      }
      var data :- ReadData(tag, size);
      ghost var fields := Rest();
      if size < GetSize(data) {
        return Panic;
      }
      var excess := size - GetSize(data);
      assert fields[0..] == fields;
      if excess > 0 {
        var _ :- Advance(excess);
      }
      return Ok(Packet(id.value, size, data));
    }

    /** `Packet::check`: on success the cursor is at the end of the first frame. */
    method CheckFrame() returns (r: Outcome<nat>)
      requires Valid()
      modifies this
      ensures Valid()
      ensures match Check(old(Rest()))
              case Some(n) => r == Ok(n) && pos == old(pos) + n
              case None => r == Err(NotEnoughData)
    {
      var start := pos;
      if Remaining() < 16 + 2 + 2 {
        return Err(NotEnoughData);
      }
      var _ := Advance(16 + 2);
      var sizeRead := GetU16Le();
      var size := sizeRead.value;
      if Remaining() < size {
        return Err(NotEnoughData);
      }
      var _ := Advance(size);
      return Ok(pos - start);
    }
  }

  /** A growing byte buffer. */
  class Buffer {
    var data: seq<byte>

    constructor ()
      ensures data == []
    {
      data := [];
    }

    method PutSlice(s: seq<byte>)
      modifies this
      ensures data == old(data) + s
    {
      data := data + s;
    }
  }

  /** `str_to_sized_array`: the bytes that fit are copied over a zeroed array. */
  method StrToSizedArray(s: seq<byte>, width: nat) returns (bytes: array<byte>)
    ensures fresh(bytes) && bytes[..] == Fixed(s, width)
  {
    bytes := new byte[width](_ => 0);
    var n := if |s| < width then |s| else width;
    for i := 0 to n
      invariant bytes[..i] == s[..i]
      invariant forall k :: i <= k < width ==> bytes[k] == 0
    {
      bytes[i] := s[i];
      assert bytes[..i + 1] == bytes[..i] + [s[i]];
    }
    assert bytes[..] == bytes[..n] + bytes[n..];
  }

  method PutField(s: seq<byte>, width: nat, buf: Buffer)
    modifies buf
    ensures buf.data == old(buf.data) + Fixed(s, width)
  {
    var a := StrToSizedArray(s, width);
    buf.PutSlice(a[..]);
  }

  method WriteVector3(v: Vector3, buf: Buffer)
    modifies buf
    ensures buf.data == old(buf.data) + PutVector3(v)
  {
    buf.PutSlice(PutU32(v.x));
    buf.PutSlice(PutU32(v.y));
    buf.PutSlice(PutU32(v.z));
  }

  method WriteQuaternion(q: Quaternion, buf: Buffer)
    modifies buf
    ensures buf.data == old(buf.data) + PutQuaternion(q)
  {
    buf.PutSlice(PutU32(q.w));
    buf.PutSlice(PutU32(q.i));
    buf.PutSlice(PutU32(q.j));
    buf.PutSlice(PutU32(q.k));
    assert buf.data == old(buf.data) + (PutU32(q.w) + (PutU32(q.i) + (PutU32(q.j) + PutU32(q.k))));
  }

  lemma {:induction false} PutFloatsSnoc(w: seq<Float>, x: Float)
    ensures PutFloats(w + [x]) == PutFloats(w) + PutU32(x)
  {
    if w == [] {
      assert w + [x] == [x];
      assert PutFloats([x]) == PutU32(x) + PutFloats([]);
      assert PutFloats(w) == [];
      assert PutU32(x) + [] == PutU32(x);
      assert [] + PutU32(x) == PutU32(x);
    } else {
      assert (w + [x])[1..] == w[1..] + [x];
      PutFloatsSnoc(w[1..], x);
      assert PutU32(w[0]) + (PutFloats(w[1..]) + PutU32(x)) == PutU32(w[0]) + PutFloats(w[1..]) + PutU32(x);
    }
  }

  method WriteWeights(w: Weights, buf: Buffer)
    modifies buf
    ensures buf.data == old(buf.data) + PutFloats(w)
  {
    for i := 0 to 6
      invariant buf.data == old(buf.data) + PutFloats(w[..i])
    {
      PutFloatsSnoc(w[..i], w[i]);
      assert w[..i + 1] == w[..i] + [w[i]];
      buf.PutSlice(PutU32(w[i]));
    }
    assert w[..6] == w;
  }

  method WriteData(d: PacketData, buf: Buffer)
    modifies buf
    ensures buf.data == old(buf.data) + EncodeData(d)
  {
    hide Fixed;
    match d {
      case Unhandled(_, data) =>
        buf.PutSlice(data);
      case Init(maxPlayers) =>
        buf.PutSlice(PutU16(maxPlayers));
      case Player(_, _, _, _, _) =>
        WritePlayer(d, buf);
      case Cap(_, _, _, _) =>
        WriteCap(d, buf);
      case Game(is2d, scenarioNum, stage) =>
        buf.PutSlice(PutBool(is2d));
        buf.PutSlice([scenarioNum]);
        PutField(stage, STAGE_GAME_NAME_SIZE, buf);
        assert buf.data == old(buf.data) + (PutBool(is2d) + ([scenarioNum] + Fixed(stage, STAGE_GAME_NAME_SIZE)));
      case Tag(_, _, _, _) =>
        WriteTag(d, buf);
      case Connect(cType, maxPlayer, clientName) =>
        var c: u32 := if cType == FirstConnection then 0 else 1;
        buf.PutSlice(PutU32(c));
        buf.PutSlice(PutU16(maxPlayer));
        PutField(clientName, CLIENT_NAME_SIZE, buf);
        assert buf.data == old(buf.data) + (PutU32(c) + (PutU16(maxPlayer) + Fixed(clientName, CLIENT_NAME_SIZE)));
      case Disconnect =>
      case CostumeData(costume) =>
        PutField(costume.bodyName, COSTUME_NAME_SIZE, buf);
        PutField(costume.capName, COSTUME_NAME_SIZE, buf);
        assert buf.data == old(buf.data)
                           + (Fixed(costume.bodyName, COSTUME_NAME_SIZE) + Fixed(costume.capName, COSTUME_NAME_SIZE));
      case Shine(shineId, isGrand) =>
        buf.PutSlice(PutI32(shineId));
        buf.PutSlice(PutBool(isGrand));
        assert buf.data == old(buf.data) + (PutI32(shineId) + PutBool(isGrand));
      case Capture(model) =>
        PutField(model, COSTUME_NAME_SIZE, buf);
      case ChangeStage(_, _, _, _) =>
        WriteChangeStage(d, buf);
      case Command =>
      case UdpInit(port) =>
        buf.PutSlice(PutU16(port));
      case HolePunch =>
    }
  }

  method WritePlayer(d: PacketData, buf: Buffer)
    requires d.Player?
    modifies buf
    ensures buf.data == old(buf.data) + EncodeData(d)
  {
    WriteVector3(d.pos, buf);
    WriteQuaternion(d.rot, buf);
    WriteWeights(d.weights, buf);
    buf.PutSlice(PutU16(d.act));
    buf.PutSlice(PutU16(d.subAct));
    assert buf.data == old(buf.data) + (PutVector3(d.pos) + (PutQuaternion(d.rot)
                       + (PutFloats(d.weights) + (PutU16(d.act) + PutU16(d.subAct)))));
  }

  method WriteCap(d: PacketData, buf: Buffer)
    requires d.Cap?
    modifies buf
    ensures buf.data == old(buf.data) + EncodeData(d)
  {
    WriteVector3(d.pos, buf);
    WriteQuaternion(d.rot, buf);
    buf.PutSlice(PutBool(d.capOut));
    PutField(d.capAnim, CAP_ANIM_SIZE, buf);
    assert buf.data == old(buf.data) + (PutVector3(d.pos) + (PutQuaternion(d.rot)
                       + (PutBool(d.capOut) + Fixed(d.capAnim, CAP_ANIM_SIZE))));
  }

  method WriteTag(d: PacketData, buf: Buffer)
    requires d.Tag?
    modifies buf
    ensures buf.data == old(buf.data) + EncodeData(d)
  {
    var t: byte := match d.updateType case Time => 1 case State => 2;
    buf.PutSlice([t]);
    buf.PutSlice(PutBool(d.isIt));
    buf.PutSlice([d.seconds]);
    buf.PutSlice(PutU16(d.minutes));
    assert buf.data == old(buf.data) + ([t] + (PutBool(d.isIt) + ([d.seconds] + PutU16(d.minutes))));
  }

  method WriteChangeStage(d: PacketData, buf: Buffer)
    requires d.ChangeStage?
    modifies buf
    ensures buf.data == old(buf.data) + EncodeData(d)
  {
    PutField(d.changeTo, STAGE_CHANGE_NAME_SIZE, buf);
    PutField(d.id, STAGE_ID_SIZE, buf);
    buf.PutSlice(PutI8(d.scenario));
    buf.PutSlice([d.subScenario]);
    assert buf.data == old(buf.data) + (Fixed(d.changeTo, STAGE_CHANGE_NAME_SIZE)
                       + (Fixed(d.id, STAGE_ID_SIZE) + (PutI8(d.scenario) + [d.subScenario])));
  }

  /** `Packet::encode` */
  method EncodePacket(p: Packet, buf: Buffer)
    modifies buf
    ensures buf.data == old(buf.data) + Encode(p)
  {
    buf.PutSlice(p.id);
    buf.PutSlice(PutU16(GetTypeId(p.data)));
    buf.PutSlice(PutU16(p.dataSize));
    WriteData(p.data, buf);
    assert buf.data == old(buf.data) + (Header(p.id, GetTypeId(p.data), p.dataSize) + EncodeData(p.data));
  }
}
