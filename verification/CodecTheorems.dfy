/** What the packet format guarantees: exact sizes, the round trip and exactly when it holds, normalisation of
    everything that is read, and independence of the bytes that follow a frame. */
module CodecTheorems {
  import opened Utf8
  import opened Wire
  import opened Packets

  /** A text that survives its field. */
  predicate Fits(s: seq<byte>, width: nat) {
    |s| <= width && Trimmed(s)
  }

  /** Data that comes back from the wire as it was sent. */
  predicate CanonicalData(d: PacketData) {
    match d
    case Unhandled(tag, data) => !(1 <= tag <= 13) && |data| < 0x1_0000
    case Cap(_, _, _, capAnim) => |capAnim| == COSTUME_NAME_SIZE
    case Game(_, _, stage) => Fits(stage, STAGE_GAME_NAME_SIZE)
    case Connect(_, _, clientName) => Fits(clientName, CLIENT_NAME_SIZE)
    case CostumeData(c) => Fits(c.bodyName, COSTUME_NAME_SIZE) && Fits(c.capName, COSTUME_NAME_SIZE)
    case Capture(model) => Fits(model, COSTUME_NAME_SIZE)
    case ChangeStage(stage, id, _, _) => Fits(stage, STAGE_CHANGE_NAME_SIZE) && Fits(id, STAGE_ID_SIZE)
    case HolePunch => false
    case _ => true
  }

  predicate Canonical(p: Packet) {
    CanonicalData(p.data) && p.dataSize == GetSize(p.data)
  }

  /** The bytes of a packet's own frame that decoding leaves unread: the end of a cap animation name. */
  function Slack(d: PacketData): seq<byte> {
    if d.Cap? then Zeros(CAP_ANIM_SIZE - COSTUME_NAME_SIZE) else []
  }

  // ---- sizes ----

  lemma EncodeLength(p: Packet)
    ensures |Encode(p)| == HEADER_SIZE + GetSize(p.data)
  {
  }

  // ---- reading back what was written ----

  /** Cutting the text at the width of its field splits a character. */
  predicate Splits(s: seq<byte>, width: nat) {
    |s| > width && IsContinuation(s[width])
  }

  /** What becomes of a text in a field: it is cut at the width and stripped of NULs, unless the cut makes it
      unreadable. */
  function TextRead(s: Text, width: nat): Option<Text> {
    if Splits(s, width) then None
    else
      var cut := if |s| <= width then s else s[..width];
      assert Valid(Trim(cut)) by {
        if |s| > width {
          ValidCut(s, width);
        }
        var _, _ := TrimShape(cut);
      }
      Some(Trim(cut))
  }

  /** What becomes of data on the wire. */
  function DataRead(d: PacketData): Option<PacketData> {
    match d
    case Cap(pos, rot, capOut, capAnim) =>
      if Splits(capAnim, COSTUME_NAME_SIZE) then None
      else
        ValidFixed(capAnim, COSTUME_NAME_SIZE);
        Some(Cap(pos, rot, capOut, Fixed(capAnim, COSTUME_NAME_SIZE)))
    case Game(is2d, scenarioNum, stage) =>
      var s := TextRead(stage, STAGE_GAME_NAME_SIZE);
      if s.None? then None else Some(Game(is2d, scenarioNum, s.value))
    case Connect(cType, maxPlayer, clientName) =>
      var s := TextRead(clientName, CLIENT_NAME_SIZE);
      if s.None? then None else Some(Connect(cType, maxPlayer, s.value))
    case CostumeData(c) =>
      var (s, u) := (TextRead(c.bodyName, COSTUME_NAME_SIZE), TextRead(c.capName, COSTUME_NAME_SIZE));
      if s.None? || u.None? then None else Some(CostumeData(Costume(s.value, u.value)))
    case Capture(model) =>
      var s := TextRead(model, COSTUME_NAME_SIZE);
      if s.None? then None else Some(Capture(s.value))
    case ChangeStage(stage, id, scenario, subScenario) =>
      var (s, u) := (TextRead(stage, STAGE_CHANGE_NAME_SIZE), TextRead(id, STAGE_ID_SIZE));
      if s.None? || u.None? then None else Some(ChangeStage(s.value, u.value, scenario, subScenario))
    case HolePunch => Some(Unhandled(14, []))
    case _ => Some(d)
  }

  /** The bytes of its own frame that decoding the data leaves unread. */
  function Unread(d: PacketData): seq<byte> {
    if d.Cap? then Fixed(d.capAnim, CAP_ANIM_SIZE)[COSTUME_NAME_SIZE..] else []
  }

  /** Unhandled data under the number of a known type would be read as data of that type. */
  predicate OwnType(d: PacketData) {
    d.Unhandled? ==> !(1 <= d.tag <= 13) && |d.data| < 0x1_0000
  }

  function OrBadUtf8<T>(r: Option<T>, rest: seq<byte>): Read<T> {
    if r.None? then Bad(BadUtf8) else Got(r.value, rest)
  }

  /** Exactly canonical data comes back unchanged. */
  lemma CanonicalRead(d: PacketData)
    requires OwnType(d)
    ensures DataRead(d) == Some(d) <==> CanonicalData(d)
    ensures CanonicalData(d) ==> Unread(d) == Slack(d)
  {
    hide Trim, Valid;
    match d
    case Cap(_, _, _, capAnim) =>
      if |capAnim| == COSTUME_NAME_SIZE {
        assert Zeros(0) == [];
        assert Fixed(capAnim, COSTUME_NAME_SIZE) == capAnim;
        assert Unread(d) == Slack(d);
      }
    case Game(_, _, stage) => TextReadFits(stage, STAGE_GAME_NAME_SIZE);
    case Connect(_, _, clientName) => TextReadFits(clientName, CLIENT_NAME_SIZE);
    case CostumeData(c) =>
      TextReadFits(c.bodyName, COSTUME_NAME_SIZE);
      TextReadFits(c.capName, COSTUME_NAME_SIZE);
    case Capture(model) => TextReadFits(model, COSTUME_NAME_SIZE);
    case ChangeStage(stage, id, _, _) =>
      TextReadFits(stage, STAGE_CHANGE_NAME_SIZE);
      TextReadFits(id, STAGE_ID_SIZE);
    case _ =>
  }

  lemma TextReadFits(s: Text, width: nat)
    ensures TextRead(s, width) == Some(s) <==> Fits(s, width)
  {
    hide Valid, Trim;
    TrimFixed(s, width);
    if |s| <= width {
      TrimPadded(s, width - |s|);
    } else {
      var _, _ := TrimShape(s[..width]);
    }
  }

  lemma GetPutText(s: Text, width: nat, t: seq<byte>)
    ensures GetStringField(Fixed(s, width) + t, width) == OrBadUtf8(TextRead(s, width), t)
  {
    hide Valid, Trim;
    ValidFixed(s, width);
    if |s| <= width {
      TrimPadded(s, width - |s|);
    }
    var f := Fixed(s, width);
    assert (f + t)[..width] == f && (f + t)[width..] == t;
  }

  lemma GetPutVector3(v: Vector3, t: seq<byte>)
    ensures GetVector3(PutVector3(v) + t) == Got(v, t)
  {
    hide PutU32;
    var yz := PutU32(v.y) + PutU32(v.z);
    assert PutVector3(v) + t == PutU32(v.x) + (PutU32(v.y) + (PutU32(v.z) + t));
    GetPutU32(v.x, PutU32(v.y) + (PutU32(v.z) + t));
    GetPutU32(v.y, PutU32(v.z) + t);
    GetPutU32(v.z, t);
  }

  lemma GetPutQuaternion(q: Quaternion, t: seq<byte>)
    ensures GetQuaternion(PutQuaternion(q) + t) == Got(q, t)
  {
    hide PutU32;
    var t1 := PutU32(q.k) + t;
    var t2 := PutU32(q.j) + t1;
    var t3 := PutU32(q.i) + t2;
    assert PutQuaternion(q) + t == PutU32(q.w) + t3;
    GetPutU32(q.w, t3);
    GetPutU32(q.i, t2);
    GetPutU32(q.j, t1);
    GetPutU32(q.k, t);
  }

  lemma {:induction false} GetPutFloats(w: seq<Float>, t: seq<byte>)
    ensures GetFloats(PutFloats(w) + t, |w|) == Got(w, t)
  {
    if w == [] {
      assert PutFloats(w) + t == t;
    } else {
      assert PutFloats(w) + t == PutU32(w[0]) + (PutFloats(w[1..]) + t);
      GetPutU32(w[0], PutFloats(w[1..]) + t);
      GetPutFloats(w[1..], t);
      assert [w[0]] + w[1..] == w;
    }
  }

  lemma DecodeEncodePlayer(d: PacketData, t: seq<byte>)
    requires d.Player?
    ensures DecodePlayer(EncodeData(d) + t) == Got(d, t)
  {
    hide GetVector3, GetQuaternion, GetFloats, GetBool, GetRawText, GetU16, PutVector3, PutQuaternion, PutFloats,
      PutBool, PutU16, Valid;
    var t1 := PutU16(d.subAct) + t;
    var t2 := PutU16(d.act) + t1;
    var t3 := PutFloats(d.weights) + t2;
    var t4 := PutQuaternion(d.rot) + t3;
    assert EncodeData(d) + t == PutVector3(d.pos) + t4;
    GetPutVector3(d.pos, t4);
    GetPutQuaternion(d.rot, t3);
    GetPutFloats(d.weights, t2);
    GetPutU16(d.act, t1);
    GetPutU16(d.subAct, t);
  }

  /** A cap animation name is read up to 32 bytes, and the rest of its field is left over. */
  lemma DecodeEncodeCap(d: PacketData, t: seq<byte>)
    requires d.Cap?
    ensures DecodeCap(EncodeData(d) + t) == OrBadUtf8(DataRead(d), Unread(d) + t)
  {
    hide GetVector3, GetQuaternion, GetFloats, GetBool, GetRawText, GetU16, PutVector3, PutQuaternion, PutFloats,
      PutBool, PutU16, Valid;
    var f, field := Fixed(d.capAnim, COSTUME_NAME_SIZE), Fixed(d.capAnim, CAP_ANIM_SIZE);
    assert field == f + Unread(d);
    var t1 := f + (Unread(d) + t);
    var t2 := PutBool(d.capOut) + t1;
    var t3 := PutQuaternion(d.rot) + t2;
    assert EncodeData(d) + t == PutVector3(d.pos) + t3;
    GetPutVector3(d.pos, t3);
    GetPutQuaternion(d.rot, t2);
    GetPutBool(d.capOut, t1);
    ValidFixed(d.capAnim, COSTUME_NAME_SIZE);
    GetPutRawText(f, Unread(d) + t);
  }

  lemma DecodeEncodeGame(d: PacketData, t: seq<byte>)
    requires d.Game?
    ensures DecodeGame(EncodeData(d) + t) == OrBadUtf8(DataRead(d), t)
  {
    hide GetBool, GetU8, GetStringField, PutBool, Valid, TextRead;
    var t1 := Fixed(d.stage, STAGE_GAME_NAME_SIZE) + t;
    var t2 := [d.scenarioNum] + t1;
    assert EncodeData(d) + t == PutBool(d.is2d) + t2;
    GetPutBool(d.is2d, t2);
    GetPutU8(d.scenarioNum, t1);
    GetPutText(d.stage, STAGE_GAME_NAME_SIZE, t);
  }

  lemma DecodeEncodeTag(d: PacketData, t: seq<byte>)
    requires d.Tag?
    ensures DecodeTag(EncodeData(d) + t) == Got(d, t)
  {
    hide GetU8, GetBool, GetU16, PutBool, PutU16;
    var t1 := PutU16(d.minutes) + t;
    var t2 := [d.seconds] + t1;
    var t3 := PutBool(d.isIt) + t2;
    var u: byte := if d.updateType == Time then 1 else 2;
    assert EncodeData(d) + t == [u] + t3;
    GetPutU8(u, t3);
    GetPutBool(d.isIt, t2);
    GetPutU8(d.seconds, t1);
    GetPutU16(d.minutes, t);
  }

  lemma DecodeEncodeConnect(d: PacketData, t: seq<byte>)
    requires d.Connect?
    ensures DecodeConnect(EncodeData(d) + t) == OrBadUtf8(DataRead(d), t)
  {
    hide GetU32, GetU16, GetStringField, PutU32, PutU16, Valid, TextRead;
    var t1 := Fixed(d.clientName, CLIENT_NAME_SIZE) + t;
    var t2 := PutU16(d.maxPlayer) + t1;
    var c: u32 := if d.cType == FirstConnection then 0 else 1;
    assert EncodeData(d) + t == PutU32(c) + t2;
    GetPutU32(c, t2);
    GetPutU16(d.maxPlayer, t1);
    GetPutText(d.clientName, CLIENT_NAME_SIZE, t);
  }

  lemma DecodeEncodeCostume(d: PacketData, t: seq<byte>)
    requires d.CostumeData?
    ensures DecodeCostume(EncodeData(d) + t) == OrBadUtf8(DataRead(d), t)
  {
    hide GetStringField, Valid, TextRead;
    var t1 := Fixed(d.costume.capName, COSTUME_NAME_SIZE) + t;
    assert EncodeData(d) + t == Fixed(d.costume.bodyName, COSTUME_NAME_SIZE) + t1;
    GetPutText(d.costume.bodyName, COSTUME_NAME_SIZE, t1);
    GetPutText(d.costume.capName, COSTUME_NAME_SIZE, t);
  }

  lemma DecodeEncodeShine(d: PacketData, t: seq<byte>)
    requires d.Shine?
    ensures DecodeShine(EncodeData(d) + t) == Got(d, t)
  {
    assert EncodeData(d) + t == PutI32(d.shineId) + (PutBool(d.isGrand) + t);
    GetPutI32(d.shineId, PutBool(d.isGrand) + t);
    GetPutBool(d.isGrand, t);
  }

  lemma DecodeEncodeChangeStage(d: PacketData, t: seq<byte>)
    requires d.ChangeStage?
    ensures DecodeChangeStage(EncodeData(d) + t) == OrBadUtf8(DataRead(d), t)
  {
    hide GetStringField, GetI8, GetU8, PutI8, Valid, TextRead;
    var t1 := [d.subScenario] + t;
    var t2 := PutI8(d.scenario) + t1;
    var t3 := Fixed(d.id, STAGE_ID_SIZE) + t2;
    assert EncodeData(d) + t == Fixed(d.changeTo, STAGE_CHANGE_NAME_SIZE) + t3;
    GetPutText(d.changeTo, STAGE_CHANGE_NAME_SIZE, t3);
    GetPutText(d.id, STAGE_ID_SIZE, t2);
    GetPutI8(d.scenario, t1);
    GetPutU8(d.subScenario, t);
  }

  lemma DecodeEncodeData(d: PacketData, t: seq<byte>)
    requires OwnType(d)
    ensures DecodeData(GetTypeId(d), GetSize(d), EncodeData(d) + t) == OrBadUtf8(DataRead(d), Unread(d) + t)
  {
    hide DecodePlayer, DecodeCap, DecodeGame, DecodeTag, DecodeConnect, DecodeCostume, DecodeShine, DecodeChangeStage,
      DecodeCapture, GetBytes, GetU16, EncodeData, DataRead, Unread;
    if d.Player? || d.Tag? || d.Shine? || d.Game? || d.Connect? || d.CostumeData? || d.ChangeStage? {
      UnreadIsNothing(d, t);
    }
    match d
    case Player(_, _, _, _, _) => DecodeEncodePlayer(d, t);
    case Cap(_, _, _, _) => DecodeEncodeCap(d, t);
    case Game(_, _, _) => DecodeEncodeGame(d, t);
    case Tag(_, _, _, _) => DecodeEncodeTag(d, t);
    case Connect(_, _, _) => DecodeEncodeConnect(d, t);
    case CostumeData(_) => DecodeEncodeCostume(d, t);
    case Shine(_, _) => DecodeEncodeShine(d, t);
    case ChangeStage(_, _, _, _) => DecodeEncodeChangeStage(d, t);
    case _ => DecodeEncodeSimple(d, t);
  }

  lemma UnreadIsNothing(d: PacketData, t: seq<byte>)
    requires !d.Cap?
    ensures Unread(d) + t == t && (d.Player? || d.Tag? || d.Shine? ==> DataRead(d) == Some(d))
  {
  }

  lemma DecodeEncodeSimple(d: PacketData, t: seq<byte>)
    requires OwnType(d)
    requires d.Unhandled? || d.Init? || d.Disconnect? || d.Capture? || d.Command? || d.UdpInit? || d.HolePunch?
    ensures DecodeData(GetTypeId(d), GetSize(d), EncodeData(d) + t) == OrBadUtf8(DataRead(d), Unread(d) + t)
  {
    hide GetStringField, Fixed, TextRead;
    UnreadIsNothing(d, t);
    match d
    case Unhandled(_, data) => assert (data + t)[..|data|] == data && (data + t)[|data|..] == t;
    case Init(maxPlayers) => GetPutU16(maxPlayers, t);
    case Disconnect => assert [] + t == t;
    case Capture(model) => GetPutText(model, COSTUME_NAME_SIZE, t);
    case Command => assert [] + t == t;
    case UdpInit(port) => GetPutU16(port, t);
    case HolePunch => assert ([] + t)[..0] == [] && ([] + t)[0..] == t;
  }

  lemma HeaderFields(id: Guid, tag: u16, size: u16, t: seq<byte>)
    ensures var b := Header(id, tag, size) + t;
            b[..16] == id && TagOf(b) == tag && SizeOf(b) == size && b[HEADER_SIZE..] == t
  {
    var b := Header(id, tag, size) + t;
    assert b[..16] == id;
    assert b[16..] == PutU16(tag) + (PutU16(size) + t);
    assert b[18..] == PutU16(size) + t;
    GetPutU16(tag, PutU16(size) + t);
    GetPutU16(size, t);
    assert b[HEADER_SIZE..] == t;
  }

  /** What becomes of any packet on the wire, if its declared size is the real one: each text is cut at the width of
      its field and stripped of NULs, or the frame is bad UTF-8 if a cut splits a character; of a cap animation 32
      bytes are read; a hole punch arrives as an unhandled packet. */
  lemma AnyPacketRead(p: Packet, t: seq<byte>)
    requires OwnType(p.data) && p.dataSize == GetSize(p.data)
    ensures Decode(Encode(p) + t)
         == match DataRead(p.data)
            case None => Bad(BadUtf8)
            case Some(d) => Got(p.(data := d), Unread(p.data) + t)
  {
    hide EncodeData, DecodeData, DataRead;
    var b := Encode(p) + t;
    var tag := GetTypeId(p.data);
    assert b == Header(p.id, tag, p.dataSize) + (EncodeData(p.data) + t);
    HeaderFields(p.id, tag, p.dataSize, EncodeData(p.data) + t);
    EncodeLength(p);
    DecodeEncodeData(p.data, t);
    SameSizeRead(p.data);
    var r := Unread(p.data) + t;
    assert r[0..] == r;
  }

  /** With a declared size below the real one, a packet of a known type is read up to the end of its fields, and then
      the subtraction of the sizes underflows. */
  lemma UndersizedPanics(p: Packet, t: seq<byte>)
    requires !p.data.Unhandled? && p.dataSize < GetSize(p.data)
    ensures Decode(Encode(p) + t) == if DataRead(p.data).None? then Bad(BadUtf8) else Panicked
  {
    hide EncodeData, DecodeData, DataRead;
    var b := Encode(p) + t;
    var tag := GetTypeId(p.data);
    assert b == Header(p.id, tag, p.dataSize) + (EncodeData(p.data) + t);
    HeaderFields(p.id, tag, p.dataSize, EncodeData(p.data) + t);
    EncodeLength(p);
    DecodeEncodeData(p.data, t);
    DataIgnoresSize(tag, p.dataSize, GetSize(p.data), EncodeData(p.data) + t);
    SameSizeRead(p.data);
  }

  lemma SameSizeRead(d: PacketData)
    ensures DataRead(d).Some? ==> GetSize(DataRead(d).value) == GetSize(d)
  {
    hide TextRead, Fixed, Splits;
  }

  /** A canonical packet followed by anything decodes to itself, leaving what follows it (and, for a cap
      packet, the unread end of its own frame). */
  lemma DecodeEncode(p: Packet, t: seq<byte>)
    requires Canonical(p)
    ensures Decode(Encode(p) + t) == Got(p, Slack(p.data) + t)
  {
    hide Encode, Decode, DataRead;
    CanonicalRead(p.data);
    AnyPacketRead(p, t);
  }

  /** Only data of an unhandled type depends on the declared size. */
  lemma DataIgnoresSize(tag: u16, size: u16, other: u16, b: seq<byte>)
    requires 1 <= tag <= 13
    ensures DecodeData(tag, size, b) == DecodeData(tag, other, b)
  {
  }

  /** With a declared size above the real one, what follows the packet is skipped as its padding. */
  lemma DecodeEncodePadded(p: Packet, t: seq<byte>)
    requires CanonicalData(p.data) && !p.data.Unhandled?
    requires GetSize(p.data) <= p.dataSize <= GetSize(p.data) + |t|
    ensures Decode(Encode(p) + t) == Got(p, (Slack(p.data) + t)[p.dataSize - GetSize(p.data)..])
  {
    hide EncodeData, DecodeData;
    EncodeLength(p);
    var b, tag := Encode(p) + t, GetTypeId(p.data);
    assert b == Header(p.id, tag, p.dataSize) + (EncodeData(p.data) + t);
    HeaderFields(p.id, tag, p.dataSize, EncodeData(p.data) + t);
    DecodeEncodeData(p.data, t);
    CanonicalRead(p.data);
    DataIgnoresSize(tag, p.dataSize, GetSize(p.data), EncodeData(p.data) + t);
  }

  // ---- what a successful read tells ----

  /** How many bytes the fields of decoded data were read from. */
  function Consumed(d: PacketData): int {
    GetSize(d) - |Slack(d)|
  }

  predicate TookBytes<T>(b: seq<byte>, n: int, r: Read<T>) {
    r.Got? ==> 0 <= n <= |b| && r.rest == b[n..]
  }

  lemma {:induction false} FloatsTook(b: seq<byte>, n: nat)
    ensures TookBytes(b, 4 * n, GetFloats(b, n))
  {
    if n > 0 && |b| >= 4 {
      FloatsTook(b[4..], n - 1);
    }
  }

  lemma VectorsTook(b: seq<byte>)
    ensures TookBytes(b, 12, GetVector3(b)) && TookBytes(b, 16, GetQuaternion(b))
    ensures (|b| >= 12 ==> GetVector3(b).Got?) && (|b| >= 16 ==> GetQuaternion(b).Got?)
  {
  }

  lemma DecodedPlayer(b: seq<byte>)
    ensures var r := DecodePlayer(b); r.Got? ==> r.value.Player? && TookBytes(b, 0x38, r)
  {
    hide GetVector3, GetQuaternion;
    VectorsTook(b);
    if |b| >= 12 {
      VectorsTook(b[12..]);
    }
    if |b| >= 28 {
      FloatsTook(b[28..], 6);
    }
  }

  lemma DecodedCap(b: seq<byte>)
    ensures var r := DecodeCap(b);
            r.Got? ==> r.value.Cap? && |r.value.capAnim| == COSTUME_NAME_SIZE && TookBytes(b, 61, r)
  {
    hide Valid, GetVector3, GetQuaternion;
    VectorsTook(b);
    if |b| >= 12 {
      VectorsTook(b[12..]);
    }
  }

  lemma DecodedGame(b: seq<byte>)
    ensures var r := DecodeGame(b); r.Got? ==> r.value.Game? && CanonicalData(r.value) && TookBytes(b, 66, r)
  {
  }

  lemma DecodedTag(b: seq<byte>)
    ensures var r := DecodeTag(b); r.Got? ==> r.value.Tag? && TookBytes(b, 5, r)
  {
  }

  lemma DecodedConnect(b: seq<byte>)
    ensures var r := DecodeConnect(b); r.Got? ==> r.value.Connect? && CanonicalData(r.value) && TookBytes(b, 38, r)
  {
  }

  lemma DecodedCostume(b: seq<byte>)
    ensures var r := DecodeCostume(b); r.Got? ==> r.value.CostumeData? && CanonicalData(r.value) && TookBytes(b, 64, r)
  {
  }

  lemma DecodedShine(b: seq<byte>)
    ensures var r := DecodeShine(b); r.Got? ==> r.value.Shine? && TookBytes(b, 5, r)
  {
  }

  lemma DecodedCapture(b: seq<byte>)
    ensures var r := DecodeCapture(b); r.Got? ==> r.value.Capture? && CanonicalData(r.value) && TookBytes(b, 32, r)
  {
  }

  lemma DecodedChangeStage(b: seq<byte>)
    ensures var r := DecodeChangeStage(b); r.Got? ==> r.value.ChangeStage? && CanonicalData(r.value) && TookBytes(b, 66, r)
  {
  }

  /** Everything that is read is canonical data of the declared type, and its fields were taken off the front. */
  lemma DecodedData(tag: u16, size: u16, b: seq<byte>)
    ensures var r := DecodeData(tag, size, b);
            r.Got? ==>
              && CanonicalData(r.value) && GetTypeId(r.value) == tag
              && (r.value.Unhandled? ==> |r.value.data| == size)
              && (!r.value.Unhandled? ==> GetSize(r.value) == MinSize(tag))
              && TookBytes(b, Consumed(r.value), r)
  {
    hide DecodePlayer, DecodeCap, DecodeGame, DecodeTag, DecodeConnect, DecodeCostume, DecodeShine, DecodeCapture,
      DecodeChangeStage;
    match tag
    case 2 => DecodedPlayer(b);
    case 3 => DecodedCap(b);
    case 4 => DecodedGame(b);
    case 5 => DecodedTag(b);
    case 6 => DecodedConnect(b);
    case 8 => DecodedCostume(b);
    case 9 => DecodedShine(b);
    case 10 => DecodedCapture(b);
    case 11 => DecodedChangeStage(b);
    case _ =>
  }

  /** A packet that was read is canonical but for its declared size, which may include padding. */
  lemma Decoded(b: seq<byte>)
    ensures var r := Decode(b);
            r.Got? ==>
              && CanonicalData(r.value.data) && GetSize(r.value.data) <= r.value.dataSize
              && |b| >= HEADER_SIZE && GetTypeId(r.value.data) == TagOf(b) && r.value.dataSize == SizeOf(b)
              && MinSize(TagOf(b)) <= SizeOf(b)
              && Check(b).Some?
              && TookBytes(b, Check(b).value - |Slack(r.value.data)|, r)
  {
    hide DecodeData;
    var r := Decode(b);
    if r.Got? {
      DecodedData(TagOf(b), SizeOf(b), b[HEADER_SIZE..]);
    }
  }

  /** The round trip holds exactly for canonical packets: any other declared size, text that overflows its field
      or has NULs at its ends, cap animation name not of 32 bytes, unhandled tag of a known type, or hole punch
      does not come back. */
  lemma RoundTrip(p: Packet)
    ensures Decode(Encode(p)) == Got(p, Slack(p.data)) <==> Canonical(p)
  {
    hide Decode, EncodeData;
    EncodeLength(p);
    if Canonical(p) {
      DecodeEncode(p, []);
      assert Encode(p) + [] == Encode(p);
      assert Slack(p.data) + [] == Slack(p.data);
    } else {
      Decoded(Encode(p));
    }
  }

  lemma ResizeCanonical(p: Packet)
    requires GetSize(p.data) < 0x1_0000
    ensures Canonical(Resize(p)) <==> CanonicalData(p.data)
    ensures Resize(Resize(p)) == Resize(p)
    ensures Canonical(p) ==> Resize(p) == p
  {
  }

  /** Reading normalises: whatever was read, once resized, survives any number of further hops unchanged. */
  lemma DecodingNormalises(b: seq<byte>)
    requires Decode(b).Got?
    ensures var p := Resize(Decode(b).value);
            Canonical(p) && Decode(Encode(p)) == Got(p, Slack(p.data)) && Resize(p) == p
  {
    hide Decode;
    Decoded(b);
    ResizeCanonical(Decode(b).value);
    RoundTrip(Resize(Decode(b).value));
  }

  ghost predicate ReadsAs(b: seq<byte>, p: Packet) {
    Decode(b).Got? && Resize(Decode(b).value) == p
  }

  lemma ReadsAsCanonical(b: seq<byte>, p: Packet)
    ensures ReadsAs(b, p) ==> Canonical(p)
  {
    hide Decode;
    if ReadsAs(b, p) {
      DecodingNormalises(b);
    }
  }

  /** Canonical packets are exactly the packets that reading and resizing can produce. */
  lemma CanonicalIsReadable(p: Packet)
    ensures Canonical(p) <==> exists b :: ReadsAs(b, p)
  {
    hide Decode;
    if Canonical(p) {
      RoundTrip(p);
      ResizeCanonical(p);
      assert ReadsAs(Encode(p), p);
    }
    forall b | ReadsAs(b, p) ensures Canonical(p) {
      ReadsAsCanonical(b, p);
    }
  }

  // ---- the bytes after a frame do not matter ----

  /** A read that neither panics nor runs out of data gives the same outcome when more bytes follow. */
  predicate Extends<T(==)>(short: Read<T>, long: Read<T>, more: seq<byte>) {
    short.Panicked? || long == short.Then(more)
  }

  lemma BytesExtend(b: seq<byte>, x: seq<byte>, n: nat)
    ensures Extends(GetBytes(b, n), GetBytes(b + x, n), x)
    ensures Extends(GetRawText(b, n), GetRawText(b + x, n), x)
    ensures Extends(GetStringField(b, n), GetStringField(b + x, n), x)
  {
    if n <= |b| {
      assert (b + x)[..n] == b[..n];
      assert (b + x)[n..] == b[n..] + x;
    }
  }

  lemma U8Extends(b: seq<byte>, x: seq<byte>)
    ensures Extends(GetU8(b), GetU8(b + x), x)
    ensures Extends(GetI8(b), GetI8(b + x), x)
    ensures Extends(GetBool(b), GetBool(b + x), x)
  {
    if |b| >= 1 { assert (b + x)[1..] == b[1..] + x; }
  }

  lemma U16Extends(b: seq<byte>, x: seq<byte>)
    ensures Extends(GetU16(b), GetU16(b + x), x)
  {
    if |b| >= 2 { assert (b + x)[2..] == b[2..] + x; }
  }

  lemma U32Extends(b: seq<byte>, x: seq<byte>)
    ensures Extends(GetU32(b), GetU32(b + x), x)
    ensures Extends(GetI32(b), GetI32(b + x), x)
  {
    if |b| >= 4 { assert (b + x)[4..] == b[4..] + x; }
  }

  lemma Vector3Extends(b: seq<byte>, x: seq<byte>)
    ensures Extends(GetVector3(b), GetVector3(b + x), x)
  {
    U32Extends(b, x);
    if |b| >= 4 { U32Extends(b[4..], x); }
    if |b| >= 8 { U32Extends(b[4..][4..], x); }
  }

  lemma QuaternionExtends(b: seq<byte>, x: seq<byte>)
    ensures Extends(GetQuaternion(b), GetQuaternion(b + x), x)
  {
    U32Extends(b, x);
    if |b| >= 4 { U32Extends(b[4..], x); }
    if |b| >= 8 { U32Extends(b[4..][4..], x); }
    if |b| >= 12 { U32Extends(b[4..][4..][4..], x); }
  }

  lemma {:induction false} FloatsExtend(b: seq<byte>, x: seq<byte>, n: nat)
    ensures Extends(GetFloats(b, n), GetFloats(b + x, n), x)
  {
    U32Extends(b, x);
    if n > 0 && |b| >= 4 {
      FloatsExtend(b[4..], x, n - 1);
    }
  }

  lemma PlayerExtends(b: seq<byte>, x: seq<byte>)
    ensures Extends(DecodePlayer(b), DecodePlayer(b + x), x)
  {
    hide GetVector3, GetQuaternion, GetFloats, GetU16;
    Vector3Extends(b, x);
    var pos := GetVector3(b);
    if pos.Got? {
      QuaternionExtends(pos.rest, x);
      var rot := GetQuaternion(pos.rest);
      if rot.Got? {
        FloatsExtend(rot.rest, x, 6);
        var weights := GetFloats(rot.rest, 6);
        if weights.Got? {
          U16Extends(weights.rest, x);
          var act := GetU16(weights.rest);
          if act.Got? { U16Extends(act.rest, x); }
        }
      }
    }
  }

  lemma CapExtends(b: seq<byte>, x: seq<byte>)
    ensures Extends(DecodeCap(b), DecodeCap(b + x), x)
  {
    hide GetVector3, GetQuaternion, GetBool, GetRawText, Valid;
    Vector3Extends(b, x);
    var pos := GetVector3(b);
    if pos.Got? {
      QuaternionExtends(pos.rest, x);
      var rot := GetQuaternion(pos.rest);
      if rot.Got? {
        U8Extends(rot.rest, x);
        var capOut := GetBool(rot.rest);
        if capOut.Got? {
          BytesExtend(capOut.rest, x, COSTUME_NAME_SIZE);
        }
      }
    }
  }

  lemma GameExtends(b: seq<byte>, x: seq<byte>)
    ensures Extends(DecodeGame(b), DecodeGame(b + x), x)
  {
    hide GetBool, GetU8, GetStringField;
    U8Extends(b, x);
    var is2d := GetBool(b);
    if is2d.Got? {
      U8Extends(is2d.rest, x);
      var scenarioNum := GetU8(is2d.rest);
      if scenarioNum.Got? { BytesExtend(scenarioNum.rest, x, STAGE_GAME_NAME_SIZE); }
    }
  }

  lemma TagExtends(b: seq<byte>, x: seq<byte>)
    ensures Extends(DecodeTag(b), DecodeTag(b + x), x)
  {
    hide GetBool, GetU8, GetU16;
    U8Extends(b, x);
    var update := GetU8(b);
    if update.Got? {
      U8Extends(update.rest, x);
      var isIt := GetBool(update.rest);
      if isIt.Got? {
        U8Extends(isIt.rest, x);
        var seconds := GetU8(isIt.rest);
        if seconds.Got? { U16Extends(seconds.rest, x); }
      }
    }
  }

  lemma ConnectExtends(b: seq<byte>, x: seq<byte>)
    ensures Extends(DecodeConnect(b), DecodeConnect(b + x), x)
  {
    hide GetU32, GetU16, GetStringField;
    U32Extends(b, x);
    var c := GetU32(b);
    if c.Got? {
      U16Extends(c.rest, x);
      var maxPlayer := GetU16(c.rest);
      if maxPlayer.Got? { BytesExtend(maxPlayer.rest, x, CLIENT_NAME_SIZE); }
    }
  }

  lemma CostumeExtends(b: seq<byte>, x: seq<byte>)
    ensures Extends(DecodeCostume(b), DecodeCostume(b + x), x)
  {
    hide GetStringField;
    BytesExtend(b, x, COSTUME_NAME_SIZE);
    var bodyName := GetStringField(b, COSTUME_NAME_SIZE);
    if bodyName.Got? { BytesExtend(bodyName.rest, x, COSTUME_NAME_SIZE); }
  }

  lemma ShineExtends(b: seq<byte>, x: seq<byte>)
    ensures Extends(DecodeShine(b), DecodeShine(b + x), x)
  {
    U32Extends(b, x);
    if |b| >= 4 { U8Extends(b[4..], x); }
  }

  lemma ChangeStageExtends(b: seq<byte>, x: seq<byte>)
    ensures Extends(DecodeChangeStage(b), DecodeChangeStage(b + x), x)
  {
    hide GetStringField;
    BytesExtend(b, x, STAGE_CHANGE_NAME_SIZE);
    var stage := GetStringField(b, STAGE_CHANGE_NAME_SIZE);
    if stage.Got? {
      BytesExtend(stage.rest, x, STAGE_ID_SIZE);
      var id := GetStringField(stage.rest, STAGE_ID_SIZE);
      if id.Got? {
        U8Extends(id.rest, x);
        if |id.rest| >= 1 { U8Extends(id.rest[1..], x); }
      }
    }
  }

  lemma DataExtends(tag: u16, size: u16, b: seq<byte>, x: seq<byte>)
    ensures Extends(DecodeData(tag, size, b), DecodeData(tag, size, b + x), x)
  {
    hide DecodePlayer, DecodeCap, DecodeGame, DecodeTag, DecodeConnect, DecodeCostume, DecodeShine, DecodeChangeStage;
    match tag
    case 1 => U16Extends(b, x);
    case 2 => PlayerExtends(b, x);
    case 3 => CapExtends(b, x);
    case 4 => GameExtends(b, x);
    case 5 => TagExtends(b, x);
    case 6 => ConnectExtends(b, x);
    case 7 =>
    case 8 => CostumeExtends(b, x);
    case 9 => ShineExtends(b, x);
    case 10 => BytesExtend(b, x, COSTUME_NAME_SIZE);
    case 11 => ChangeStageExtends(b, x);
    case 12 =>
    case 13 => U16Extends(b, x);
    case _ => BytesExtend(b, x, size);
  }

  lemma {:induction false} FloatsNoPanic(b: seq<byte>, n: nat)
    requires |b| >= 4 * n
    ensures GetFloats(b, n).Got?
  {
    if n > 0 {
      FloatsNoPanic(b[4..], n - 1);
    }
  }

  lemma PlayerNoPanic(b: seq<byte>)
    requires |b| >= 0x38
    ensures DecodePlayer(b).Got?
  {
    hide GetVector3, GetQuaternion, GetFloats;
    VectorsTook(b);
    VectorsTook(b[12..]);
    var rot := GetQuaternion(GetVector3(b).rest);
    FloatsNoPanic(rot.rest, 6);
    FloatsTook(rot.rest, 6);
  }

  lemma CapNoPanic(b: seq<byte>)
    requires |b| >= 61
    ensures DecodeCap(b).Got? || DecodeCap(b) == Bad(BadUtf8)
  {
    hide GetVector3, GetQuaternion, Valid;
    VectorsTook(b);
    VectorsTook(b[12..]);
  }

  /** With as many bytes as the type needs, reading its fields can only fail on invalid UTF-8. */
  lemma DataNoPanic(tag: u16, size: u16, b: seq<byte>)
    requires |b| >= size >= MinSize(tag)
    ensures DecodeData(tag, size, b).Got? || DecodeData(tag, size, b) == Bad(BadUtf8)
  {
    hide DecodePlayer, DecodeCap;
    match tag
    case 2 => PlayerNoPanic(b);
    case 3 => CapNoPanic(b);
    case _ =>
  }

  /** A frame that is all there and declares enough room for its fields. */
  predicate WellSized(b: seq<byte>) {
    Check(b).Some? && MinSize(TagOf(b)) <= SizeOf(b)
  }

  /** `check` and `decode` agree: an accepted frame never reads past its end, never runs out of data and never
      panics, provided it declares enough room; without that it is never decoded. */
  lemma CheckAndDecodeAgree(b: seq<byte>)
    requires Check(b).Some?
    ensures WellSized(b) ==> Decode(b).Got? || Decode(b) == Bad(BadUtf8)
    ensures Decode(b).Got? ==> WellSized(b) && TookBytes(b, Check(b).value - |Slack(Decode(b).value.data)|, Decode(b))
  {
    hide DecodeData;
    Decoded(b);
    if WellSized(b) {
      DataNoPanic(TagOf(b), SizeOf(b), b[HEADER_SIZE..]);
      DecodedData(TagOf(b), SizeOf(b), b[HEADER_SIZE..]);
    }
  }

  lemma HeaderExtends(b: seq<byte>, x: seq<byte>)
    requires |b| >= HEADER_SIZE
    ensures TagOf(b + x) == TagOf(b) && SizeOf(b + x) == SizeOf(b) && (b + x)[..16] == b[..16]
    ensures (b + x)[HEADER_SIZE..] == b[HEADER_SIZE..] + x
  {
    U16Extends(b[16..], x);
    U16Extends(b[18..], x);
    assert (b + x)[16..] == b[16..] + x;
    assert (b + x)[18..] == b[18..] + x;
  }

  /** Bytes that follow an accepted frame change neither its length nor what it decodes to. */
  lemma FollowedBy(b: seq<byte>, x: seq<byte>)
    requires WellSized(b)
    ensures Check(b + x) == Check(b) && WellSized(b + x)
    ensures Decode(b + x) == Decode(b).Then(x)
  {
    hide DecodeData;
    HeaderExtends(b, x);
    var tag, size, body := TagOf(b), SizeOf(b), b[HEADER_SIZE..];
    DataExtends(tag, size, body, x);
    DataNoPanic(tag, size, body);
    DecodedData(tag, size, body);
    var d := DecodeData(tag, size, body);
    if d.Got? {
      BytesExtend(d.rest, x, size - GetSize(d.value));
    }
  }

  /** No strict prefix of a frame is taken for a whole frame. */
  lemma PrefixNotAccepted(b: seq<byte>, k: nat)
    requires Check(b).Some? && k < Check(b).value
    ensures Check(b[..k]) == None
  {
    if k >= HEADER_SIZE {
      HeaderExtends(b[..k], b[k..]);
      assert b[..k] + b[k..] == b;
    }
  }

  /** Every packet of a known type fits the 100-byte buffer a datagram is received into. */
  lemma DatagramFits(p: Packet)
    requires !p.data.Unhandled?
    ensures |Encode(p)| <= 97 < 100
  {
    EncodeLength(p);
  }
}
