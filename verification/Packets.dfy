/** The packet format: what a packet is, the bytes it is written as, and what a run of bytes is read as.
    The functions here are the specification of the cursor and buffer code in module Codec. */
module Packets {
  import opened Utf8
  import opened Wire

  const COSTUME_NAME_SIZE: nat := 0x20
  const CAP_ANIM_SIZE: nat := 0x30
  const STAGE_GAME_NAME_SIZE: nat := 0x40
  const STAGE_CHANGE_NAME_SIZE: nat := 0x30
  const STAGE_ID_SIZE: nat := 0x10
  const CLIENT_NAME_SIZE: nat := COSTUME_NAME_SIZE
  const HEADER_SIZE: nat := 20

  type Guid = s: seq<byte> | |s| == 16 witness [0, 0, 0, 0, 0, 0, 0, 0, 0, 0, 0, 0, 0, 0, 0, 0]

  const DEFAULT_GUID: Guid := [0, 0, 0, 0, 0, 0, 0, 0, 0, 0, 0, 0, 0, 0, 0, 0]

  /** An IP address. */
  type Ip = nat

  /** A 32-bit float, as its bit pattern. */
  type Float = u32

  datatype Vector3 = Vector3(x: Float, y: Float, z: Float)
  datatype Quaternion = Quaternion(w: Float, i: Float, j: Float, k: Float)

  type Weights = s: seq<Float> | |s| == 6 witness [0, 0, 0, 0, 0, 0]

  datatype ConnectionType = FirstConnection | Reconnecting
  datatype TagUpdate = Time | State
  datatype Costume = Costume(bodyName: Text, capName: Text)

  datatype PacketData =
    | Unhandled(tag: u16, data: seq<byte>)
    | Init(maxPlayers: u16)
    | Player(pos: Vector3, rot: Quaternion, weights: Weights, act: u16, subAct: u16)
    | Cap(pos: Vector3, rot: Quaternion, capOut: bool, capAnim: Text)
    | Game(is2d: bool, scenarioNum: byte, stage: Text)
    | Tag(updateType: TagUpdate, isIt: bool, seconds: byte, minutes: u16)
    | Connect(cType: ConnectionType, maxPlayer: u16, clientName: Text)
    | Disconnect
    | CostumeData(costume: Costume)
    | Shine(shineId: i32, isGrand: bool)
    | Capture(model: Text)
    | ChangeStage(changeTo: Text, id: Text, scenario: i8, subScenario: byte)
    | Command
    | UdpInit(port: u16)
    | HolePunch

  datatype Packet = Packet(id: Guid, dataSize: u16, data: PacketData)

  /** The size the fields of a packet occupy when written. */
  function GetSize(d: PacketData): nat {
    match d
    case Unhandled(_, data) => |data|
    case Init(_) => 2
    case Player(_, _, _, _, _) => 0x38
    case Cap(_, _, _, _) => 29 + CAP_ANIM_SIZE
    case Game(_, _, _) => 2 + STAGE_GAME_NAME_SIZE
    case Tag(_, _, _, _) => 5
    case Connect(_, _, _) => 6 + CLIENT_NAME_SIZE
    case Disconnect => 0
    case CostumeData(_) => COSTUME_NAME_SIZE * 2
    case Shine(_, _) => 5
    case Capture(_) => COSTUME_NAME_SIZE
    case ChangeStage(_, _, _, _) => STAGE_ID_SIZE + STAGE_CHANGE_NAME_SIZE + 2
    case Command => 0
    case UdpInit(_) => 2
    case HolePunch => 0
  }

  function GetTypeId(d: PacketData): u16 {
    match d
    case Unhandled(tag, _) => tag
    case Init(_) => 1
    case Player(_, _, _, _, _) => 2
    case Cap(_, _, _, _) => 3
    case Game(_, _, _) => 4
    case Tag(_, _, _, _) => 5
    case Connect(_, _, _) => 6
    case Disconnect => 7
    case CostumeData(_) => 8
    case Shine(_, _) => 9
    case Capture(_) => 10
    case ChangeStage(_, _, _, _) => 11
    case Command => 12
    case UdpInit(_) => 13
    case HolePunch => 14
  }

  /** The size a frame of a known type must declare for its fields to fit. */
  function MinSize(tag: u16): nat {
    match tag
    case 1 => 2
    case 2 => 0x38
    case 3 => 29 + CAP_ANIM_SIZE
    case 4 => 2 + STAGE_GAME_NAME_SIZE
    case 5 => 5
    case 6 => 6 + CLIENT_NAME_SIZE
    case 8 => COSTUME_NAME_SIZE * 2
    case 9 => 5
    case 10 => COSTUME_NAME_SIZE
    case 11 => STAGE_ID_SIZE + STAGE_CHANGE_NAME_SIZE + 2
    case 13 => 2
    case _ => 0
  }

  /** `new`: the declared size is the real one.  The program panics on data of more than 65535 bytes. */
  function NewPacket(id: Guid, d: PacketData): Packet
    requires GetSize(d) < 0x1_0000
  {
    Packet(id, GetSize(d), d)
  }

  /** `resize`: sets the declared size to the real one, truncated to 16 bits. */
  function Resize(p: Packet): Packet {
    p.(dataSize := GetSize(p.data) % 0x1_0000)
  }

  // ---- writing ----

  lemma ResizeKeeps(p: Packet)
    ensures Resize(p).id == p.id && Resize(p).data == p.data
  {
  }

  function PutVector3(v: Vector3): (b: seq<byte>)
    ensures |b| == 12
  {
    PutU32(v.x) + (PutU32(v.y) + PutU32(v.z))
  }

  function PutQuaternion(q: Quaternion): (b: seq<byte>)
    ensures |b| == 16
  {
    PutU32(q.w) + (PutU32(q.i) + (PutU32(q.j) + PutU32(q.k)))
  }

  function PutFloats(w: seq<Float>): (b: seq<byte>)
    ensures |b| == 4 * |w|
  {
    if w == [] then [] else PutU32(w[0]) + PutFloats(w[1..])
  }

  function EncodeData(d: PacketData): seq<byte> {
    match d
    case Unhandled(_, data) => data
    case Init(maxPlayers) => PutU16(maxPlayers)
    case Player(pos, rot, weights, act, subAct) =>
      PutVector3(pos) + (PutQuaternion(rot) + (PutFloats(weights) + (PutU16(act) + PutU16(subAct))))
    case Cap(pos, rot, capOut, capAnim) =>
      PutVector3(pos) + (PutQuaternion(rot) + (PutBool(capOut) + Fixed(capAnim, CAP_ANIM_SIZE)))
    case Game(is2d, scenarioNum, stage) =>
      PutBool(is2d) + ([scenarioNum] + Fixed(stage, STAGE_GAME_NAME_SIZE))
    case Tag(updateType, isIt, seconds, minutes) =>
      [if updateType == Time then 1 else 2] + (PutBool(isIt) + ([seconds] + PutU16(minutes)))
    case Connect(cType, maxPlayer, clientName) =>
      PutU32(if cType == FirstConnection then 0 else 1) + (PutU16(maxPlayer) + Fixed(clientName, CLIENT_NAME_SIZE))
    case Disconnect => []
    case CostumeData(costume) =>
      Fixed(costume.bodyName, COSTUME_NAME_SIZE) + Fixed(costume.capName, COSTUME_NAME_SIZE)
    case Shine(shineId, isGrand) => PutI32(shineId) + PutBool(isGrand)
    case Capture(model) => Fixed(model, COSTUME_NAME_SIZE)
    case ChangeStage(stage, id, scenario, subScenario) =>
      Fixed(stage, STAGE_CHANGE_NAME_SIZE) + (Fixed(id, STAGE_ID_SIZE) + (PutI8(scenario) + [subScenario]))
    case Command => []
    case UdpInit(port) => PutU16(port)
    case HolePunch => []
  }

  function Header(id: Guid, tag: u16, size: u16): (b: seq<byte>)
    ensures |b| == HEADER_SIZE
  {
    id + PutU16(tag) + PutU16(size)
  }

  /** The declared size is written as stored, whether or not it is the real one. */
  function Encode(p: Packet): seq<byte> {
    Header(p.id, GetTypeId(p.data), p.dataSize) + EncodeData(p.data)
  }

  function EncodeAll(ps: seq<Packet>): seq<byte> {
    if ps == [] then [] else Encode(ps[0]) + EncodeAll(ps[1..])
  }

  // ---- reading ----

  function GetVector3(b: seq<byte>): Read<Vector3> {
    var (x, r) :- GetU32(b);
    var (y, r) :- GetU32(r);
    var (z, r) :- GetU32(r);
    Got(Vector3(x, y, z), r)
  }

  function GetQuaternion(b: seq<byte>): Read<Quaternion> {
    var (w, r) :- GetU32(b);
    var (i, r) :- GetU32(r);
    var (j, r) :- GetU32(r);
    var (k, r) :- GetU32(r);
    Got(Quaternion(w, i, j, k), r)
  }

  function GetFloats(b: seq<byte>, n: nat): (r: Read<seq<Float>>)
    ensures r.Got? ==> |r.value| == n
  {
    if n == 0 then Got([], b)
    else
      var (w, r) :- GetU32(b);
      var (ws, r) :- GetFloats(r, n - 1);
      Got([w] + ws, r)
  }

  function DecodePlayer(b: seq<byte>): Read<PacketData> {
    var (pos, r) :- GetVector3(b);
    var (rot, r) :- GetQuaternion(r);
    var (weights, r) :- GetFloats(r, 6);
    var (act, r) :- GetU16(r);
    var (subAct, r) :- GetU16(r);
    Got(Player(pos, rot, weights, act, subAct), r)
  }

  /** The animation name is written 48 bytes wide but read 32 bytes wide, and is not trimmed. */
  function DecodeCap(b: seq<byte>): Read<PacketData> {
    var (pos, r) :- GetVector3(b);
    var (rot, r) :- GetQuaternion(r);
    var (capOut, r) :- GetBool(r);
    var (capAnim, r) :- GetRawText(r, COSTUME_NAME_SIZE);
    Got(Cap(pos, rot, capOut, capAnim), r)
  }

  function DecodeGame(b: seq<byte>): Read<PacketData> {
    var (is2d, r) :- GetBool(b);
    var (scenarioNum, r) :- GetU8(r);
    var (stage, r) :- GetStringField(r, STAGE_GAME_NAME_SIZE);
    Got(Game(is2d, scenarioNum, stage), r)
  }

  function DecodeTag(b: seq<byte>): Read<PacketData> {
    var (update, r) :- GetU8(b);
    var (isIt, r) :- GetBool(r);
    var (seconds, r) :- GetU8(r);
    var (minutes, r) :- GetU16(r);
    Got(Tag(if update == 1 then Time else State, isIt, seconds, minutes), r)
  }

  function DecodeConnect(b: seq<byte>): Read<PacketData> {
    var (c, r) :- GetU32(b);
    var (maxPlayer, r) :- GetU16(r);
    var (clientName, r) :- GetStringField(r, CLIENT_NAME_SIZE);
    Got(Connect(if c == 0 then FirstConnection else Reconnecting, maxPlayer, clientName), r)
  }

  function DecodeCostume(b: seq<byte>): Read<PacketData> {
    var (bodyName, r) :- GetStringField(b, COSTUME_NAME_SIZE);
    var (capName, r) :- GetStringField(r, COSTUME_NAME_SIZE);
    Got(CostumeData(Costume(bodyName, capName)), r)
  }

  function DecodeShine(b: seq<byte>): Read<PacketData> {
    var (shineId, r) :- GetI32(b);
    var (isGrand, r) :- GetBool(r);
    Got(Shine(shineId, isGrand), r)
  }

  function DecodeCapture(b: seq<byte>): Read<PacketData> {
    var (model, r) :- GetStringField(b, COSTUME_NAME_SIZE);
    Got(Capture(model), r)
  }

  function DecodeChangeStage(b: seq<byte>): Read<PacketData> {
    var (stage, r) :- GetStringField(b, STAGE_CHANGE_NAME_SIZE);
    var (id, r) :- GetStringField(r, STAGE_ID_SIZE);
    var (scenario, r) :- GetI8(r);
    var (subScenario, r) :- GetU8(r);
    Got(ChangeStage(stage, id, scenario, subScenario), r)
  }

  /** A trimmed field; trimming keeps it valid. */
  function GetStringField(b: seq<byte>, width: nat): (r: Read<Text>)
    ensures r.Got? ==> Trimmed(r.value) && |r.value| <= width
  {
    var (f, r) :- GetRawText(b, width);
    assert Valid(Trim(f)) && Trimmed(Trim(f)) && |Trim(f)| <= |f| by {
      var _, _ := TrimShape(f);
    }
    Got(Trim(f), r)
  }

  /** The fields after a header with the given type and declared size, read from all the bytes that follow. */
  function DecodeData(tag: u16, size: u16, b: seq<byte>): Read<PacketData> {
    match tag
    case 1 => var (maxPlayers, r) :- GetU16(b); Got(Init(maxPlayers), r)
    case 2 => DecodePlayer(b)
    case 3 => DecodeCap(b)
    case 4 => DecodeGame(b)
    case 5 => DecodeTag(b)
    case 6 => DecodeConnect(b)
    case 7 => Got(Disconnect, b)
    case 8 => DecodeCostume(b)
    case 9 => DecodeShine(b)
    case 10 => DecodeCapture(b)
    case 11 => DecodeChangeStage(b)
    case 12 => Got(Command, b)
    case 13 => var (port, r) :- GetU16(b); Got(UdpInit(port), r)
    case _ => var (data, r) :- GetBytes(b, size); Got(Unhandled(tag, data), r)
  }

  /** Skips the padding between the fields and the declared size; a declared size below the size of the
      fields makes the subtraction underflow, which panics. */
  function SkipPadding(id: Guid, size: u16, d: PacketData, b: seq<byte>): Read<Packet> {
    if size < GetSize(d) then Panicked
    else
      var (_, r) :- GetBytes(b, size - GetSize(d));
      Got(Packet(id, size, d), r)
  }

  function Decode(b: seq<byte>): Read<Packet> {
    if |b| < HEADER_SIZE then Bad(NotEnoughData)
    else
      var tag, size := TagOf(b), SizeOf(b);
      if |b| - HEADER_SIZE < size then Bad(NotEnoughData)
      else
        var (d, r) :- DecodeData(tag, size, b[HEADER_SIZE..]);
        SkipPadding(b[..16], size, d, r)
  }

  function TagOf(b: seq<byte>): u16
    requires |b| >= HEADER_SIZE
  {
    GetU16(b[16..]).value
  }

  function SizeOf(b: seq<byte>): u16
    requires |b| >= HEADER_SIZE
  {
    GetU16(b[18..]).value
  }

  datatype Option<+T> = None | Some(value: T)

  /** `check`: the length of the first frame, when all of it is there. */
  function Check(b: seq<byte>): (r: Option<nat>)
    ensures r.Some? ==> HEADER_SIZE <= r.value <= |b|
  {
    if |b| < HEADER_SIZE || |b| - HEADER_SIZE < SizeOf(b) then None
    else Some(HEADER_SIZE + SizeOf(b))
  }
}
