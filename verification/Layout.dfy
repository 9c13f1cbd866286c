/** The wire format byte by byte: which byte of a frame holds what, with every offset and number written out, for what
    is written and for what is read; and exactly which frames decode. */
module Layout {
  import opened Utf8
  import opened Wire
  import opened Packets
  import opened CodecTheorems

  // ---- values at an offset ----

  function U16At(b: seq<byte>, at: nat): u16
    requires at + 2 <= |b|
  {
    (b[at] as int) + 0x100 * (b[at + 1] as int)
  }

  function U32At(b: seq<byte>, at: nat): u32
    requires at + 4 <= |b|
  {
    (b[at] as int) + 0x100 * (b[at + 1] as int) + 0x1_0000 * (b[at + 2] as int) + 0x100_0000 * (b[at + 3] as int)
  }

  function I32At(b: seq<byte>, at: nat): i32
    requires at + 4 <= |b|
  {
    U32At(b, at) - if b[at + 3] >= 0x80 then 0x1_0000_0000 else 0
  }

  predicate VectorAt(b: seq<byte>, at: nat, v: Vector3)
    requires at + 12 <= |b|
  {
    U32At(b, at) == v.x && U32At(b, at + 4) == v.y && U32At(b, at + 8) == v.z
  }

  predicate QuaternionAt(b: seq<byte>, at: nat, q: Quaternion)
    requires at + 16 <= |b|
  {
    U32At(b, at) == q.w && U32At(b, at + 4) == q.i && U32At(b, at + 8) == q.j && U32At(b, at + 12) == q.k
  }

  /** A text starts at its offset and is cut at the end of its field; NULs fill what is left of the field. */
  predicate TextAt(b: seq<byte>, at: nat, end: nat, s: seq<byte>)
    requires at <= end <= |b|
  {
    forall i :: at <= i < end ==> b[i] == if i - at < |s| then s[i - at] else 0
  }

  // ---- what is written ----

  /** The fields of a frame, as they are written. */
  predicate Written(b: seq<byte>, d: PacketData)
    requires |b| >= 20
  {
    var tag := U16At(b, 16);
    match d
    case Unhandled(t, data) => tag == t && b[20..] == data
    case Init(maxPlayers) => tag == 1 && |b| == 22 && U16At(b, 20) == maxPlayers
    case Player(pos, rot, weights, act, subAct) =>
      && tag == 2 && |b| == 76
      && VectorAt(b, 20, pos) && QuaternionAt(b, 32, rot)
      && (forall i :: 0 <= i < 6 ==> U32At(b, 48 + 4 * i) == weights[i])
      && U16At(b, 72) == act && U16At(b, 74) == subAct
    case Cap(pos, rot, capOut, capAnim) =>
      && tag == 3 && |b| == 97
      && VectorAt(b, 20, pos) && QuaternionAt(b, 32, rot)
      && b[48] == (if capOut then 1 else 0) && TextAt(b, 49, 97, capAnim)
    case Game(is2d, scenarioNum, stage) =>
      && tag == 4 && |b| == 86
      && b[20] == (if is2d then 1 else 0) && b[21] == scenarioNum && TextAt(b, 22, 86, stage)
    case Tag(updateType, isIt, seconds, minutes) =>
      && tag == 5 && |b| == 25
      && b[20] == (match updateType case Time => 1 case State => 2)
      && b[21] == (if isIt then 1 else 0) && b[22] == seconds && U16At(b, 23) == minutes
    case Connect(cType, maxPlayer, clientName) =>
      && tag == 6 && |b| == 58
      && b[20..24] == (match cType case FirstConnection => [0, 0, 0, 0] case Reconnecting => [1, 0, 0, 0])
      && U16At(b, 24) == maxPlayer && TextAt(b, 26, 58, clientName)
    case Disconnect => tag == 7 && |b| == 20
    case CostumeData(c) => tag == 8 && |b| == 84 && TextAt(b, 20, 52, c.bodyName) && TextAt(b, 52, 84, c.capName)
    case Shine(shineId, isGrand) =>
      tag == 9 && |b| == 25 && I32At(b, 20) == shineId && b[24] == (if isGrand then 1 else 0)
    case Capture(model) => tag == 10 && |b| == 52 && TextAt(b, 20, 52, model)
    case ChangeStage(stage, id, scenario, subScenario) =>
      && tag == 11 && |b| == 86
      && TextAt(b, 20, 68, stage) && TextAt(b, 68, 84, id)
      && b[84] == (if scenario < 0 then scenario + 0x100 else scenario) && b[85] == subScenario
    case Command => tag == 12 && |b| == 20
    case UdpInit(port) => tag == 13 && |b| == 22 && U16At(b, 20) == port
    case HolePunch => tag == 14 && |b| == 20
  }

  /** Some bytes stand at an offset. */
  predicate Part(b: seq<byte>, at: nat, part: seq<byte>) {
    at + |part| <= |b| && b[at..at + |part|] == part
  }

  lemma Parts(b: seq<byte>, at: nat, x: seq<byte>, y: seq<byte>)
    requires Part(b, at, x + y)
    ensures Part(b, at, x) && Part(b, at + |x|, y)
  {
    var n := at + |x| + |y|;
    assert b[at..n][..|x|] == b[at..at + |x|] && b[at..n][|x|..] == b[at + |x|..n];
  }

  lemma PartAt(b: seq<byte>, at: nat, part: seq<byte>)
    requires Part(b, at, part)
    ensures forall i :: 0 <= i < |part| ==> b[at + i] == part[i]
  {
    forall i | 0 <= i < |part| ensures b[at + i] == part[i] {
      assert b[at..at + |part|][i] == b[at + i];
    }
  }

  lemma U16Part(b: seq<byte>, at: nat, v: u16)
    requires Part(b, at, PutU16(v))
    ensures U16At(b, at) == v
  {
    PartAt(b, at, PutU16(v));
    assert b[at] == PutU16(v)[0] && b[at + 1] == PutU16(v)[1];
  }

  lemma U32Part(b: seq<byte>, at: nat, v: u32)
    requires Part(b, at, PutU32(v))
    ensures U32At(b, at) == v
  {
    Parts(b, at, PutU16(v % 0x1_0000), PutU16(v / 0x1_0000));
    U16Part(b, at, v % 0x1_0000);
    U16Part(b, at + 2, v / 0x1_0000);
  }

  lemma BytePart(b: seq<byte>, at: nat, v: byte)
    requires Part(b, at, [v])
    ensures b[at] == v
  {
    PartAt(b, at, [v]);
    assert b[at + 0] == v;
  }

  lemma VectorPart(b: seq<byte>, at: nat, v: Vector3)
    requires Part(b, at, PutVector3(v))
    ensures VectorAt(b, at, v)
  {
    hide PutU32, U32At;
    Parts(b, at, PutU32(v.x), PutU32(v.y) + PutU32(v.z));
    Parts(b, at + 4, PutU32(v.y), PutU32(v.z));
    U32Part(b, at, v.x);
    U32Part(b, at + 4, v.y);
    U32Part(b, at + 8, v.z);
  }

  lemma QuaternionPart(b: seq<byte>, at: nat, q: Quaternion)
    requires Part(b, at, PutQuaternion(q))
    ensures QuaternionAt(b, at, q)
  {
    hide PutU32, U32At;
    Parts(b, at, PutU32(q.w), PutU32(q.i) + (PutU32(q.j) + PutU32(q.k)));
    Parts(b, at + 4, PutU32(q.i), PutU32(q.j) + PutU32(q.k));
    Parts(b, at + 8, PutU32(q.j), PutU32(q.k));
    U32Part(b, at, q.w);
    U32Part(b, at + 4, q.i);
    U32Part(b, at + 8, q.j);
    U32Part(b, at + 12, q.k);
  }

  lemma {:induction false} FloatsPart(b: seq<byte>, at: nat, w: seq<Float>)
    requires Part(b, at, PutFloats(w))
    ensures forall i :: 0 <= i < |w| ==> U32At(b, at + 4 * i) == w[i]
    decreases |w|
  {
    hide PutU32, U32At;
    if w != [] {
      Parts(b, at, PutU32(w[0]), PutFloats(w[1..]));
      U32Part(b, at, w[0]);
      FloatsPart(b, at + 4, w[1..]);
      forall i | 0 <= i < |w| ensures U32At(b, at + 4 * i) == w[i] {
        if i > 0 {
          assert U32At(b, at + 4 + 4 * (i - 1)) == w[1..][i - 1];
          assert at + 4 + 4 * (i - 1) == at + 4 * i;
        }
      }
    }
  }

  lemma TextPart(b: seq<byte>, at: nat, s: seq<byte>, width: nat)
    requires Part(b, at, Fixed(s, width))
    ensures TextAt(b, at, at + width, s)
  {
    PartAt(b, at, Fixed(s, width));
    forall i | at <= i < at + width ensures b[i] == if i - at < |s| then s[i - at] else 0 {
      assert b[at + (i - at)] == Fixed(s, width)[i - at];
    }
  }

  lemma PlayerWritten(b: seq<byte>, d: PacketData)
    requires d.Player? && |b| == 76 && U16At(b, 16) == 2 && Part(b, 20, EncodeData(d))
    ensures Written(b, d)
  {
    hide PutVector3, PutQuaternion, PutFloats, PutU16, U16At, U32At, VectorAt, QuaternionAt;
    var t1 := PutU16(d.act) + PutU16(d.subAct);
    Parts(b, 20, PutVector3(d.pos), PutQuaternion(d.rot) + (PutFloats(d.weights) + t1));
    Parts(b, 32, PutQuaternion(d.rot), PutFloats(d.weights) + t1);
    Parts(b, 48, PutFloats(d.weights), t1);
    Parts(b, 72, PutU16(d.act), PutU16(d.subAct));
    VectorPart(b, 20, d.pos);
    QuaternionPart(b, 32, d.rot);
    FloatsPart(b, 48, d.weights);
    U16Part(b, 72, d.act);
    U16Part(b, 74, d.subAct);
  }

  lemma CapWritten(b: seq<byte>, d: PacketData)
    requires d.Cap? && |b| == 97 && U16At(b, 16) == 3 && Part(b, 20, EncodeData(d))
    ensures Written(b, d)
  {
    hide PutVector3, PutQuaternion, Fixed, U16At, U32At, VectorAt, QuaternionAt, TextAt;
    var t1 := PutBool(d.capOut) + Fixed(d.capAnim, CAP_ANIM_SIZE);
    Parts(b, 20, PutVector3(d.pos), PutQuaternion(d.rot) + t1);
    Parts(b, 32, PutQuaternion(d.rot), t1);
    Parts(b, 48, PutBool(d.capOut), Fixed(d.capAnim, CAP_ANIM_SIZE));
    VectorPart(b, 20, d.pos);
    QuaternionPart(b, 32, d.rot);
    BytePart(b, 48, if d.capOut then 1 else 0);
    TextPart(b, 49, d.capAnim, 48);
  }

  lemma GameWritten(b: seq<byte>, d: PacketData)
    requires d.Game? && |b| == 86 && U16At(b, 16) == 4 && Part(b, 20, EncodeData(d))
    ensures Written(b, d)
  {
    hide Fixed, U16At, TextAt;
    Parts(b, 20, PutBool(d.is2d), [d.scenarioNum] + Fixed(d.stage, STAGE_GAME_NAME_SIZE));
    Parts(b, 21, [d.scenarioNum], Fixed(d.stage, STAGE_GAME_NAME_SIZE));
    BytePart(b, 20, if d.is2d then 1 else 0);
    BytePart(b, 21, d.scenarioNum);
    TextPart(b, 22, d.stage, 64);
  }

  lemma TagWritten(b: seq<byte>, d: PacketData)
    requires d.Tag? && |b| == 25 && U16At(b, 16) == 5 && Part(b, 20, EncodeData(d))
    ensures Written(b, d)
  {
    hide PutU16, U16At;
    var u: byte := if d.updateType == Time then 1 else 2;
    Parts(b, 20, [u], PutBool(d.isIt) + ([d.seconds] + PutU16(d.minutes)));
    Parts(b, 21, PutBool(d.isIt), [d.seconds] + PutU16(d.minutes));
    Parts(b, 22, [d.seconds], PutU16(d.minutes));
    BytePart(b, 20, u);
    BytePart(b, 21, if d.isIt then 1 else 0);
    BytePart(b, 22, d.seconds);
    U16Part(b, 23, d.minutes);
  }

  lemma ConnectWritten(b: seq<byte>, d: PacketData)
    requires d.Connect? && |b| == 58 && U16At(b, 16) == 6 && Part(b, 20, EncodeData(d))
    ensures Written(b, d)
  {
    hide Fixed, U16At, TextAt;
    var c: u32 := if d.cType == FirstConnection then 0 else 1;
    Parts(b, 20, PutU32(c), PutU16(d.maxPlayer) + Fixed(d.clientName, CLIENT_NAME_SIZE));
    Parts(b, 24, PutU16(d.maxPlayer), Fixed(d.clientName, CLIENT_NAME_SIZE));
    assert PutU32(c) == [if d.cType == FirstConnection then 0 else 1, 0, 0, 0];
    assert b[20..24] == PutU32(c);
    U16Part(b, 24, d.maxPlayer);
    TextPart(b, 26, d.clientName, 32);
  }

  lemma ShineWritten(b: seq<byte>, d: PacketData)
    requires d.Shine? && |b| == 25 && U16At(b, 16) == 9 && Part(b, 20, EncodeData(d))
    ensures Written(b, d)
  {
    hide PutU32, U16At;
    var v: u32 := if d.shineId < 0 then d.shineId + 0x1_0000_0000 else d.shineId;
    Parts(b, 20, PutU32(v), PutBool(d.isGrand));
    U32Part(b, 20, v);
    BytePart(b, 24, if d.isGrand then 1 else 0);
  }

  lemma TextsWritten(b: seq<byte>, d: PacketData)
    requires |b| == 20 + GetSize(d) && U16At(b, 16) == GetTypeId(d) && Part(b, 20, EncodeData(d))
    requires d.CostumeData? || d.Capture? || d.ChangeStage?
    ensures Written(b, d)
  {
    hide Fixed, U16At, TextAt;
    match d
    case CostumeData(c) =>
      Parts(b, 20, Fixed(c.bodyName, COSTUME_NAME_SIZE), Fixed(c.capName, COSTUME_NAME_SIZE));
      TextPart(b, 20, c.bodyName, 32);
      TextPart(b, 52, c.capName, 32);
    case Capture(model) => TextPart(b, 20, model, 32);
    case ChangeStage(stage, id, scenario, subScenario) =>
      var t := PutI8(scenario) + [subScenario];
      Parts(b, 20, Fixed(stage, STAGE_CHANGE_NAME_SIZE), Fixed(id, STAGE_ID_SIZE) + t);
      Parts(b, 68, Fixed(id, STAGE_ID_SIZE), t);
      Parts(b, 84, PutI8(scenario), [subScenario]);
      TextPart(b, 20, stage, 48);
      TextPart(b, 68, id, 16);
      BytePart(b, 84, scenario % 0x100);
      BytePart(b, 85, subScenario);
  }

  /** Every byte of a frame that is written. */
  lemma WrittenLayout(p: Packet)
    ensures var b := Encode(p);
            |b| >= 20 && b[..16] == p.id && U16At(b, 18) == p.dataSize && Written(b, p.data)
  {
    EncodeLength(p);
    HeaderWritten(p);
    hide Encode, EncodeData, U16At, VectorAt, QuaternionAt, TextAt, Written;
    var b, d := Encode(p), p.data;
    match d
    case Player(_, _, _, _, _) => PlayerWritten(b, d);
    case Cap(_, _, _, _) => CapWritten(b, d);
    case Game(_, _, _) => GameWritten(b, d);
    case Tag(_, _, _, _) => TagWritten(b, d);
    case Connect(_, _, _) => ConnectWritten(b, d);
    case Shine(_, _) => ShineWritten(b, d);
    case CostumeData(_) => TextsWritten(b, d);
    case Capture(_) => TextsWritten(b, d);
    case ChangeStage(_, _, _, _) => TextsWritten(b, d);
    case _ => OthersWritten(b, d);
  }

  lemma OthersWritten(b: seq<byte>, d: PacketData)
    requires |b| == 20 + GetSize(d) && U16At(b, 16) == GetTypeId(d) && Part(b, 20, EncodeData(d))
    requires d.Unhandled? || d.Init? || d.Disconnect? || d.Command? || d.UdpInit? || d.HolePunch?
    ensures Written(b, d)
  {
    hide PutU16, U16At;
    match d
    case Unhandled(_, data) => assert b[20..] == b[20..20 + |data|];
    case Init(maxPlayers) => U16Part(b, 20, maxPlayers);
    case UdpInit(port) => U16Part(b, 20, port);
    case _ =>
  }

  lemma HeaderWritten(p: Packet)
    ensures var b := Encode(p);
            && |b| >= 20 && b[..16] == p.id && U16At(b, 16) == GetTypeId(p.data) && U16At(b, 18) == p.dataSize
            && Part(b, 20, EncodeData(p.data))
  {
    hide EncodeData, PutU16;
    var tag, b := GetTypeId(p.data), Encode(p);
    var t := PutU16(p.dataSize) + EncodeData(p.data);
    assert b == p.id + (PutU16(tag) + t);
    assert Part(b, 0, p.id + (PutU16(tag) + t));
    Parts(b, 0, p.id, PutU16(tag) + t);
    Parts(b, 16, PutU16(tag), t);
    Parts(b, 18, PutU16(p.dataSize), EncodeData(p.data));
    U16Part(b, 16, tag);
    U16Part(b, 18, p.dataSize);
  }

  // ---- what is read ----

  /** The room the fields of each type need. */
  function Room(tag: int): int {
    match tag
    case 1 => 2
    case 2 => 56
    case 3 => 77
    case 4 => 66
    case 5 => 5
    case 6 => 38
    case 8 => 64
    case 9 => 5
    case 10 => 32
    case 11 => 66
    case 13 => 2
    case _ => 0
  }

  /** The text fields hold UTF-8. */
  predicate TextsValid(b: seq<byte>)
    requires |b| >= 20 && |b| >= 20 + Room(U16At(b, 16))
  {
    match U16At(b, 16)
    case 3 => Valid(b[49..81])
    case 4 => Valid(b[22..86])
    case 6 => Valid(b[26..58])
    case 8 => Valid(b[20..52]) && Valid(b[52..84])
    case 10 => Valid(b[20..52])
    case 11 => Valid(b[20..68]) && Valid(b[68..84])
    case _ => true
  }

  /** The fields of a frame, as they are read: every byte but 0 is true, every number but 1 is a state update, every
      number but 0 is a reconnection, and texts are stripped of NULs. */
  predicate FieldsRead(b: seq<byte>, d: PacketData)
    requires |b| >= 20 && |b| >= 20 + Room(U16At(b, 16)) && |b| >= 20 + U16At(b, 18)
  {
    match U16At(b, 16)
    case 1 => d == Init(U16At(b, 20))
    case 2 =>
      && d.Player? && VectorAt(b, 20, d.pos) && QuaternionAt(b, 32, d.rot)
      && (forall i :: 0 <= i < 6 ==> U32At(b, 48 + 4 * i) == d.weights[i])
      && U16At(b, 72) == d.act && U16At(b, 74) == d.subAct
    case 3 =>
      && d.Cap? && VectorAt(b, 20, d.pos) && QuaternionAt(b, 32, d.rot)
      && d.capOut == (b[48] != 0) && d.capAnim == b[49..81]
    case 4 => d.Game? && d.is2d == (b[20] != 0) && d.scenarioNum == b[21] && d.stage == Trim(b[22..86])
    case 5 => d == Tag(if b[20] == 1 then Time else State, b[21] != 0, b[22], U16At(b, 23))
    case 6 =>
      && d.Connect? && d.cType == (if b[20..24] == [0, 0, 0, 0] then FirstConnection else Reconnecting)
      && d.maxPlayer == U16At(b, 24) && d.clientName == Trim(b[26..58])
    case 7 => d == Disconnect
    case 8 => d.CostumeData? && d.costume.bodyName == Trim(b[20..52]) && d.costume.capName == Trim(b[52..84])
    case 9 => d == Shine(I32At(b, 20), b[24] != 0)
    case 10 => d.Capture? && d.model == Trim(b[20..52])
    case 11 =>
      && d.ChangeStage? && d.changeTo == Trim(b[20..68]) && d.id == Trim(b[68..84])
      && d.scenario == (b[84] as int) - (if b[84] >= 0x80 then 0x100 else 0) && d.subScenario == b[85]
    case 12 => d == Command
    case 13 => d == UdpInit(U16At(b, 20))
    case tag => d == Unhandled(tag, b[20..20 + U16At(b, 18)])
  }

  lemma ByteRead(b: seq<byte>, at: nat)
    requires at < |b|
    ensures GetU8(b[at..]) == Got(b[at], b[at + 1..]) && GetBool(b[at..]) == Got(b[at] != 0, b[at + 1..])
    ensures GetI8(b[at..]) == Got((b[at] as int) - (if b[at] >= 0x80 then 0x100 else 0), b[at + 1..])
  {
    assert b[at..][1..] == b[at + 1..];
  }

  lemma U16Read(b: seq<byte>, at: nat)
    requires at + 2 <= |b|
    ensures GetU16(b[at..]) == Got(U16At(b, at), b[at + 2..])
  {
    assert b[at..][2..] == b[at + 2..];
  }

  lemma U32Read(b: seq<byte>, at: nat)
    requires at + 4 <= |b|
    ensures GetU32(b[at..]) == Got(U32At(b, at), b[at + 4..])
    ensures GetI32(b[at..]) == Got(I32At(b, at), b[at + 4..])
    ensures U32At(b, at) == 0 <==> b[at..at + 4] == [0, 0, 0, 0]
  {
    assert b[at..][4..] == b[at + 4..];
  }

  lemma VectorRead(b: seq<byte>, at: nat)
    requires at + 12 <= |b|
    ensures var r := GetVector3(b[at..]); r.Got? && VectorAt(b, at, r.value) && r.rest == b[at + 12..]
  {
    hide U32At, GetU32;
    U32Read(b, at);
    U32Read(b, at + 4);
    U32Read(b, at + 8);
  }

  lemma QuaternionRead(b: seq<byte>, at: nat)
    requires at + 16 <= |b|
    ensures var r := GetQuaternion(b[at..]); r.Got? && QuaternionAt(b, at, r.value) && r.rest == b[at + 16..]
  {
    hide U32At, GetU32;
    U32Read(b, at);
    U32Read(b, at + 4);
    U32Read(b, at + 8);
    U32Read(b, at + 12);
  }

  lemma {:induction false} FloatsRead(b: seq<byte>, at: nat, n: nat)
    requires at + 4 * n <= |b|
    ensures var r := GetFloats(b[at..], n);
            && r.Got? && r.rest == b[at + 4 * n..] && |r.value| == n
            && forall i :: 0 <= i < n ==> U32At(b, at + 4 * i) == r.value[i]
    decreases n
  {
    hide U32At, GetU32;
    if n > 0 {
      U32Read(b, at);
      FloatsRead(b, at + 4, n - 1);
      var ws := GetFloats(b[at + 4..], n - 1).value;
      forall i | 0 <= i < n ensures U32At(b, at + 4 * i) == ([U32At(b, at)] + ws)[i] {
        if i > 0 {
          assert at + 4 + 4 * (i - 1) == at + 4 * i;
        }
      }
    }
  }

  lemma TextFieldRead(b: seq<byte>, at: nat, width: nat)
    requires at + width <= |b|
    ensures var f := b[at..at + width];
            && GetRawText(b[at..], width) == (if Valid(f) then Got(f, b[at + width..]) else Bad(BadUtf8))
            && GetStringField(b[at..], width)
               == (if Valid(f) then TrimmedRead(f, b[at + width..]) else Bad(BadUtf8))
  {
    hide Valid, Trim;
    assert b[at..][..width] == b[at..at + width] && b[at..][width..] == b[at + width..];
  }

  function TrimmedRead(f: seq<byte>, rest: seq<byte>): Read<Text>
    requires Valid(f)
  {
    assert Valid(Trim(f)) by { var _, _ := TrimShape(f); }
    Got(Trim(f), rest)
  }

  lemma PlayerRead(b: seq<byte>)
    requires |b| >= 76 && U16At(b, 16) == 2 && |b| >= 20 + U16At(b, 18)
    ensures var r := DecodePlayer(b[20..]); r.Got? && FieldsRead(b, r.value)
  {
    hide U16At, U32At, VectorAt, QuaternionAt, GetVector3, GetQuaternion, GetFloats, GetU16;
    VectorRead(b, 20);
    QuaternionRead(b, 32);
    FloatsRead(b, 48, 6);
    U16Read(b, 72);
    U16Read(b, 74);
  }

  lemma CapRead(b: seq<byte>)
    requires |b| >= 97 && U16At(b, 16) == 3 && |b| >= 20 + U16At(b, 18)
    ensures var r := DecodeCap(b[20..]);
            (r.Got? <==> Valid(b[49..81])) && (r.Got? ==> FieldsRead(b, r.value))
  {
    hide U16At, U32At, VectorAt, QuaternionAt, GetVector3, GetQuaternion, GetRawText, GetBool, Valid;
    VectorRead(b, 20);
    QuaternionRead(b, 32);
    ByteRead(b, 48);
    TextFieldRead(b, 49, 32);
  }

  lemma GameRead(b: seq<byte>)
    requires |b| >= 86 && U16At(b, 16) == 4 && |b| >= 20 + U16At(b, 18)
    ensures var r := DecodeGame(b[20..]);
            (r.Got? <==> Valid(b[22..86])) && (r.Got? ==> FieldsRead(b, r.value))
  {
    hide U16At, GetStringField, GetBool, GetU8, Valid, Trim;
    ByteRead(b, 20);
    ByteRead(b, 21);
    TextFieldRead(b, 22, 64);
  }

  lemma TagRead(b: seq<byte>)
    requires |b| >= 25 && U16At(b, 16) == 5 && |b| >= 20 + U16At(b, 18)
    ensures var r := DecodeTag(b[20..]); r.Got? && FieldsRead(b, r.value)
  {
    hide U16At, GetBool, GetU8, GetU16;
    ByteRead(b, 20);
    ByteRead(b, 21);
    ByteRead(b, 22);
    U16Read(b, 23);
  }

  lemma ConnectRead(b: seq<byte>)
    requires |b| >= 58 && U16At(b, 16) == 6 && |b| >= 20 + U16At(b, 18)
    ensures var r := DecodeConnect(b[20..]);
            (r.Got? <==> Valid(b[26..58])) && (r.Got? ==> FieldsRead(b, r.value))
  {
    hide U16At, U32At, GetStringField, GetU32, GetU16, Valid, Trim;
    U32Read(b, 20);
    U16Read(b, 24);
    TextFieldRead(b, 26, 32);
  }

  lemma CostumeRead(b: seq<byte>)
    requires |b| >= 84 && U16At(b, 16) == 8 && |b| >= 20 + U16At(b, 18)
    ensures var r := DecodeCostume(b[20..]);
            (r.Got? <==> Valid(b[20..52]) && Valid(b[52..84])) && (r.Got? ==> FieldsRead(b, r.value))
  {
    hide U16At, GetStringField, Valid, Trim;
    TextFieldRead(b, 20, 32);
    TextFieldRead(b, 52, 32);
  }

  lemma ChangeStageRead(b: seq<byte>)
    requires |b| >= 86 && U16At(b, 16) == 11 && |b| >= 20 + U16At(b, 18)
    ensures var r := DecodeChangeStage(b[20..]);
            (r.Got? <==> Valid(b[20..68]) && Valid(b[68..84])) && (r.Got? ==> FieldsRead(b, r.value))
  {
    hide U16At, GetStringField, GetI8, GetU8, Valid, Trim;
    TextFieldRead(b, 20, 48);
    TextFieldRead(b, 68, 16);
    ByteRead(b, 84);
    ByteRead(b, 85);
  }

  lemma DataIsRead(b: seq<byte>)
    requires |b| >= 20 && |b| >= 20 + Room(U16At(b, 16)) && |b| >= 20 + U16At(b, 18)
    ensures var r := DecodeData(U16At(b, 16), U16At(b, 18), b[20..]);
            (r.Got? <==> TextsValid(b)) && (r.Got? ==> FieldsRead(b, r.value))
  {
    hide U16At, U32At, VectorAt, QuaternionAt, DecodePlayer, DecodeCap, DecodeGame, DecodeTag, DecodeConnect, DecodeCostume,
      DecodeChangeStage, GetStringField, GetU16, GetI32, GetBool, Valid, Trim;
    match U16At(b, 16)
    case 1 => U16Read(b, 20);
    case 2 => PlayerRead(b);
    case 3 => CapRead(b);
    case 4 => GameRead(b);
    case 5 => TagRead(b);
    case 6 => ConnectRead(b);
    case 7 =>
    case 8 => CostumeRead(b);
    case 9 =>
      U32Read(b, 20);
      ByteRead(b, 24);
    case 10 => TextFieldRead(b, 20, 32);
    case 11 => ChangeStageRead(b);
    case 12 =>
    case 13 => U16Read(b, 20);
    case _ =>
      var size := U16At(b, 18);
      assert b[20..][..size] == b[20..20 + size];
  }

  lemma HeaderRead(b: seq<byte>)
    requires |b| >= 20
    ensures TagOf(b) == U16At(b, 16) && SizeOf(b) == U16At(b, 18)
  {
    U16Read(b, 16);
    U16Read(b, 18);
  }

  /** A frame that is all there decodes exactly if it declares room for its fields and its texts are valid; and then to
      the values that stand at these offsets, whatever the padding. */
  lemma DecodesExactly(b: seq<byte>)
    requires |b| >= 20 && |b| >= 20 + U16At(b, 18)
    ensures Decode(b).Got? <==> U16At(b, 18) >= Room(U16At(b, 16)) && TextsValid(b)
    ensures Decode(b).Got? ==>
              var p := Decode(b).value; p.id == b[..16] && p.dataSize == U16At(b, 18) && FieldsRead(b, p.data)
  {
    HeaderRead(b);
    hide U16At, TextsValid, FieldsRead, DecodeData, Valid;
    CheckAndDecodeAgree(b);
    RoomIsMinSize(TagOf(b));
    if U16At(b, 18) >= Room(U16At(b, 16)) {
      DataIsRead(b);
    }
  }

  lemma RoomIsMinSize(tag: u16)
    ensures Room(tag) == MinSize(tag)
  {
  }

  /** A frame is all there once 20 bytes are, and as many more as bytes 18 and 19 declare. */
  lemma CheckedExactly(b: seq<byte>)
    ensures Check(b) == if |b| < 20 || |b| < 20 + U16At(b, 18) then None else Some(20 + U16At(b, 18) as int)
  {
    if |b| >= 20 {
      HeaderRead(b);
    }
  }
}
