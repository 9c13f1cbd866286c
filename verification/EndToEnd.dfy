/** What sessions write comes back from the wire as it was, and whose packets they are. */
module EndToEnd {
  import opened Utf8
  import opened Wire
  import opened Packets
  import opened CodecTheorems
  import opened Framing
  import opened Protocol
  import opened ClientTask
  import opened Sequences
  import opened System
  import opened Structure
  import opened TotalOrder
  import opened Messages
  import opened Fifo

  // ---- exactly when a stream of packets survives the wire ----

  /** A packet that some bytes decode to. */
  predicate Readable(p: Packet) {
    && CanonicalData(p.data) && GetSize(p.data) <= p.dataSize
    && (p.data.Unhandled? ==> GetSize(p.data) == p.dataSize)
  }

  ghost predicate DecodesTo(b: seq<byte>, p: Packet) {
    Decode(b).Got? && Decode(b).value == p
  }

  lemma DecodedReadable(b: seq<byte>)
    ensures Decode(b).Got? ==> Readable(Decode(b).value)
  {
    hide DecodeData;
    Decoded(b);
    if Decode(b).Got? {
      DecodedData(TagOf(b), SizeOf(b), b[HEADER_SIZE..]);
    }
  }

  /** The packets that can come out of the decoder are exactly these: canonical data, perhaps with padding. */
  lemma ReadableExactly(p: Packet)
    ensures Readable(p) <==> exists b :: DecodesTo(b, p)
  {
    hide Decode, Encode, Readable, CanonicalData;
    if Readable(p) {
      ReadableDecodes(p);
    }
    forall b | DecodesTo(b, p) ensures Readable(p) {
      DecodedReadable(b);
    }
  }

  lemma ReadableDecodes(p: Packet)
    requires Readable(p)
    ensures exists b :: DecodesTo(b, p)
  {
    hide Decode, Encode, CanonicalData;
    var t := Zeros(p.dataSize - GetSize(p.data));
    if p.data.Unhandled? {
      DecodeEncode(p, t);
    } else {
      DecodeEncodePadded(p, t);
    }
    assert DecodesTo(Encode(p) + t, p);
  }

  /** How many bytes the frames of some packets take up, going by their declared sizes. */
  function Declared(ps: seq<Packet>): nat {
    if ps == [] then 0 else HEADER_SIZE + ps[0].dataSize + Declared(ps[1..])
  }

  lemma ParsedFrame(b: seq<byte>)
    requires ParseOne(b).Frame?
    ensures Readable(ParseOne(b).packet)
    ensures |b| == HEADER_SIZE + ParseOne(b).packet.dataSize + |ParseOne(b).rest|
  {
    hide Decode, Readable;
    DecodedReadable(b);
    Decoded(b);
  }

  /** Parsing accounts for every byte. */
  lemma {:induction false} ParsedDeclared(b: seq<byte>)
    ensures var s := ParseAll(b);
            |b| == Declared(s.packets) + |s.leftover| && forall i :: 0 <= i < |s.packets| ==> Readable(s.packets[i])
    decreases |b|
  {
    hide ParseOne, ParseAll, Readable;
    ParseAllStep(b);
    var one := ParseOne(b);
    if one.Frame? {
      ParsedFrame(b);
      ParsedDeclared(one.rest);
      var ps := ParseAll(one.rest).packets;
      assert ([one.packet] + ps)[1..] == ps;
    }
  }

  /** If no declared size is below the real one, and together they come to the same, each is the same. */
  lemma {:induction false} NoPadding(ps: seq<Packet>)
    requires forall i :: 0 <= i < |ps| ==> Readable(ps[i])
    ensures |EncodeAll(ps)| <= Declared(ps)
    ensures |EncodeAll(ps)| == Declared(ps) ==> AllCanonical(ps)
  {
    hide Encode, CanonicalData;
    if ps != [] {
      EncodeLength(ps[0]);
      NoPadding(ps[1..]);
      if |EncodeAll(ps)| == Declared(ps) {
        assert AllCanonical(ps[1..]);
        forall i | 0 <= i < |ps| ensures Canonical(ps[i]) {
          if i > 0 {
            assert ps[i] == ps[1..][i - 1];
          }
        }
      }
    }
  }

  /** Any packets at all, written one after the other, come back from the stream exactly if all are canonical. */
  lemma WireRoundTripExactly(ps: seq<Packet>)
    ensures ParseAll(EncodeAll(ps)) == Stream(ps, []) <==> AllCanonical(ps)
  {
    hide ParseAll, EncodeAll, Readable;
    if AllCanonical(ps) {
      WireRoundTrip(ps);
    } else if ParseAll(EncodeAll(ps)) == Stream(ps, []) {
      ParsedDeclared(EncodeAll(ps));
      NoPadding(ps);
    }
  }

  // ---- what is sent ----

  /** What a session may be sent: readable data, with the exact size unless it is the replay of a game packet; and
      only certain data for each reason to send. */
  predicate Sendable(m: Msg, unpadded: bool) {
    && Readable(m.packet)
    && (Canonical(m.packet) || (!unpadded && m.kind == Intro && m.packet.data.Game?))
    && match m.kind
       case Intro => m.packet.data.Connect? || m.packet.data.CostumeData? || m.packet.data.Game?
       case Notice => m.packet.data.Connect? || m.packet.data.Disconnect?
       case Sync => m.packet.data.Shine?
       case Relayed(_) => !m.packet.data.Shine? && !m.packet.data.UdpInit?
  }

  function IsSendable(unpadded: bool): Msg -> bool {
    m => Sendable(m, unpadded)
  }

  predicate ProfileOk(d: Profile, unpadded: bool) {
    && Fits(d.name, CLIENT_NAME_SIZE)
    && Fits(d.costume.bodyName, COSTUME_NAME_SIZE) && Fits(d.costume.capName, COSTUME_NAME_SIZE)
    && (d.lastGame.Some? ==>
          Readable(d.lastGame.value) && d.lastGame.value.data.Game? && (unpadded ==> Canonical(d.lastGame.value)))
  }

  ghost predicate HeapOk(heap: map<Sid, Profile>, unpadded: bool) {
    forall r :: r in heap ==> ProfileOk(heap[r], unpadded)
  }

  predicate CommandOk(cmd: Command<Sid>) {
    match cmd
    case PacketCommand(_, p) => Readable(p) && !p.data.UdpInit?
    case NewPlayer(_, connect) => Readable(connect) && connect.data.Connect?
    case _ => true
  }

  ghost predicate QueueOk(queue: seq<Command<Sid>>) {
    forall i :: 0 <= i < |queue| ==> CommandOk(queue[i])
  }

  ghost predicate HandsOk(sessions: map<Sid, Session>) {
    forall x :: x in sessions && sessions[x].hand.Some? ==> CommandOk(PacketCommand(x, sessions[x].hand.value))
  }

  /** Packets come from the wire; with `unpadded`, game packets come without padding. */
  predicate FromWire(l: Label, unpadded: bool) {
    && (l.Arrive? ==> Readable(l.connect))
    && (l.Take? ==> Readable(l.packet) && (unpadded && l.packet.data.Game? ==> Canonical(l.packet)))
  }

  ghost predicate SendableInv(s: Sys, unpadded: bool) {
    && HeapOk(s.core.heap, unpadded) && QueueOk(s.core.queue) && HandsOk(s.sessions)
    && AllMsgs(s.core, IsSendable(unpadded))
  }

  lemma ReadableResized(p: Packet)
    requires Readable(p)
    ensures Canonical(Resize(p))
  {
    hide CanonicalData;
    ResizeCanonical(p);
  }

  lemma CanonicalReadable(p: Packet)
    ensures Canonical(p) ==> Readable(p)
  {
    hide CanonicalData;
  }

  lemma NewCanonical(g: Guid, d: PacketData)
    requires CanonicalData(d) && GetSize(d) < 0x1_0000
    ensures Canonical(NewPacket(g, d)) && Readable(NewPacket(g, d))
  {
    hide CanonicalData;
  }

  lemma IntroSendable(g: Guid, d: Profile, n: u16, unpadded: bool)
    requires ProfileOk(d, unpadded)
    ensures AllIn(IntroOf(g, d, n), IsSendable(unpadded))
  {
    hide Fits;
    NewCanonical(g, Connect(FirstConnection, n, d.name));
    NewCanonical(g, CostumeData(d.costume));
  }

  lemma OwnSendable(heap: map<Sid, Profile>, unpadded: bool)
    requires HeapOk(heap, unpadded)
    ensures AllowsOwn(heap, IsSendable(unpadded))
  {
    hide ProfileOk, IntroOf, AllIn;
    forall r, g: Guid, n: u16 | r in heap ensures AllIn(IntroOf(g, heap[r], n), IsSendable(unpadded)) {
      IntroSendable(g, heap[r], n, unpadded);
    }
  }

  lemma CommandSendable(cmd: Command<Sid>, unpadded: bool)
    requires CommandOk(cmd)
    ensures AllowsCommand(cmd, IsSendable(unpadded))
  {
    hide Canonical, Readable;
    match cmd
    case PacketCommand(_, p) =>
      ReadableResized(p);
      CanonicalReadable(Resize(p));
    case NewPlayer(_, connect) =>
      ReadableResized(connect);
      CanonicalReadable(Resize(connect));
    case _ =>
  }

  // ---- the shared data ----

  /** The coordinator touches only the shines and the speedrun flag of shared data. */
  ghost predicate SameFace(heap: map<Sid, Profile>, heap': map<Sid, Profile>) {
    heap'.Keys == heap.Keys && forall r :: r in heap ==>
      heap'[r].name == heap[r].name && heap'[r].costume == heap[r].costume && heap'[r].lastGame == heap[r].lastGame
  }

  lemma PacketFace(c: Core<Sid>, from: Sid, p: Packet, ch: Choice)
    requires LegalPacket(c, p, ch)
    ensures SameFace(c.heap, HandlePacket(c, from, p, ch).core.heap)
  {
    hide LegalShines, Synced, SyncAll, Broadcast, BeforeBroadcast, IsReset, IsWaterfall;
    if p.data.Shine? {
      SyncFrame(Collect(c, p.data.shineId), ch.shines);
    } else if p.data.CostumeData? && !Synced(c, ch.shines) {
      SyncFrame(c, ch.shines);
    } else if !((IsReset(p.data) || IsWaterfall(p.data)) && p.id !in c.clients) {
      BeforeFace(c, p, ch);
      BroadcastFrame(BeforeBroadcast(c, p, ch), p, Relayed(from), ch.reached);
    }
  }

  lemma BeforeFace(c: Core<Sid>, p: Packet, ch: Choice)
    requires HandlesLive(c) && Coherent(c)
    requires IsReset(p.data) || IsWaterfall(p.data) ==> p.id in c.clients
    ensures SameFace(c.heap, BeforeBroadcast(c, p, ch).heap)
  {
    hide SyncAll, IsReset, IsWaterfall, SameFace;
    SyncFrame(c, ch.shines);
    SameFaceSelf(c.heap);
    if p.id in c.clients {
      var r := c.clients[p.id];
      UpdateFace(c.heap, r, StartSpeedrun(c.heap[r]));
      UpdateFace(c.heap, r, c.heap[r].(speedrunStart := false));
    }
  }

  lemma SameFaceSelf(heap: map<Sid, Profile>)
    ensures SameFace(heap, heap)
  {
  }

  lemma UpdateFace(heap: map<Sid, Profile>, r: Sid, d: Profile)
    requires r in heap && d.name == heap[r].name && d.costume == heap[r].costume && d.lastGame == heap[r].lastGame
    ensures SameFace(heap, heap[r := d])
  {
  }

  lemma ServedFace(s: Sys, ch: Choice)
    requires CanServe(s, ch)
    ensures SameFace(s.core.heap, ServedHead(s, ch).core.heap)
  {
    hide HandlePacket, Join, Leave, LegalPacket, LegalJoin, Admission, SameFace, DataFor;
    var c := WithoutHead(s.core);
    SameFaceSelf(c.heap);
    match s.core.queue[0]
    case PacketCommand(from, p) => PacketFace(c, from, p, ch);
    case NewPlayer(cli, connect) =>
      if Admission(c, s.settings, cli).Some? {
        JoinRefused(c, s.settings, cli, connect, ch);
      } else {
        JoinFrame(c, s.settings, cli, connect, ch);
      }
    case DisconnectPlayer(g) => LeaveFrame(c, g, ch.undone, ch.bye);
    case Shutdown =>
  }

  lemma FaceKeepsOk(heap: map<Sid, Profile>, heap': map<Sid, Profile>, unpadded: bool)
    requires HeapOk(heap, unpadded) && SameFace(heap, heap')
    ensures HeapOk(heap', unpadded)
  {
    hide Fits, Readable, Canonical;
    forall r | r in heap' ensures ProfileOk(heap'[r], unpadded) {
      assert ProfileOk(heap[r], unpadded);
    }
  }

  lemma OnPacketOk(d: Profile, p: Packet, unpadded: bool)
    requires ProfileOk(d, unpadded) && Readable(p) && (unpadded && p.data.Game? ==> Canonical(p))
    ensures ProfileOk(OnPacket(d, p), unpadded)
  {
    OnPacketFace(d, p);
    hide Fits, OnPacket, Canonical;
  }

  lemma OnPacketFace(d: Profile, p: Packet)
    ensures var d' := OnPacket(d, p);
            && d'.name == d.name
            && d'.costume == (if p.data.CostumeData? then p.data.costume else d.costume)
            && d'.lastGame == if p.data.Game? then Some(p) else d.lastGame
  {
    hide IsReset;
  }

  lemma NewProfileOk(name: Text, unpadded: bool)
    requires Fits(name, CLIENT_NAME_SIZE)
    ensures ProfileOk(NewProfile(name), unpadded)
  {
  }

  lemma StepHeap(s: Sys, l: Label, unpadded: bool)
    requires Enabled(s, l) && FromWire(l, unpadded) && HeapOk(s.core.heap, unpadded)
    ensures HeapOk(Step(s, l).core.heap, unpadded)
  {
    hide ProfileOk, CanServe, ServedHead, Leave, OnPacket, NewProfile, Fits, Readable, Canonical, LegalShines, Append;
    match l
    case Arrive(sid, ip, connect) => ArrivedName(connect, unpadded);
    case Take(sid, p) => OnPacketOk(s.core.heap[s.sessions[sid].data], p, unpadded);
    case Serve(ch) =>
      ServedFace(s, ch);
      FaceKeepsOk(s.core.heap, ServedHead(s, ch).core.heap, unpadded);
    case Drain(g, undone, bye) => LeaveFrame(s.core, g, undone, bye);
    case _ =>
  }

  lemma ArrivedName(connect: Packet, unpadded: bool)
    requires Readable(connect) && connect.data.Connect?
    ensures ProfileOk(NewProfile(connect.data.clientName), unpadded)
  {
    hide Fits;
    NewProfileOk(connect.data.clientName, unpadded);
  }

  // ---- the queue ----

  /** Serving only takes a command off the queue, and perhaps adds the disconnection of a refused player. */
  lemma ServedQueue(s: Sys, ch: Choice)
    requires CanServe(s, ch)
    ensures var queue := ServedHead(s, ch).core.queue;
            queue == s.core.queue[1..]
            || (s.core.queue[0].NewPlayer? && queue == s.core.queue[1..] + [DisconnectPlayer(s.core.queue[0].cli.guid)])
  {
    hide HandlePacket, Join, Leave, LegalPacket, LegalJoin, Admission;
    var c := WithoutHead(s.core);
    match s.core.queue[0]
    case PacketCommand(from, p) => PacketFrame(c, from, p, ch);
    case NewPlayer(cli, connect) =>
      if Admission(c, s.settings, cli).Some? {
        JoinRefused(c, s.settings, cli, connect, ch);
      } else {
        JoinFrame(c, s.settings, cli, connect, ch);
      }
    case DisconnectPlayer(g) => LeaveFrame(c, g, ch.undone, ch.bye);
    case Shutdown =>
  }

  lemma ServesHead(s: Sys, ch: Choice)
    requires CanServe(s, ch)
    ensures s.core.queue != []
  {
  }

  lemma QueueTail(queue: seq<Command<Sid>>, cmd: Command<Sid>)
    requires QueueOk(queue) && queue != []
    ensures QueueOk(queue[1..])
    ensures cmd.NewPlayer? ==> QueueOk(queue[1..] + [DisconnectPlayer(cmd.cli.guid)])
  {
    hide Readable;
  }

  lemma SameHandsOk(sessions: map<Sid, Session>, x: Sid, session: Session)
    requires HandsOk(sessions)
    requires session.hand.Some? ==> CommandOk(PacketCommand(x, session.hand.value))
    ensures HandsOk(sessions[x := session])
  {
    hide Readable;
  }

  lemma ServedHands(s: Sys, ch: Choice)
    requires CanServe(s, ch)
    ensures forall x :: x in s.sessions ==> x in ServedHead(s, ch).sessions && ServedHead(s, ch).sessions[x].hand == s.sessions[x].hand
    ensures ServedHead(s, ch).sessions.Keys == s.sessions.Keys
  {
    hide HandlePacket, Join, Leave, LegalPacket, LegalJoin, Protocol.Admission, DataFor;
  }

  lemma StepHands(s: Sys, l: Label, unpadded: bool)
    requires Enabled(s, l) && FromWire(l, unpadded) && HandsOk(s.sessions)
    ensures HandsOk(Step(s, l).sessions)
  {
    hide CanServe, ServedHead, Leave, OnPacket, NewProfile, Readable, Canonical, LegalShines, Append, Writes,
      EndsSession;
    var s' := Step(s, l);
    match l
    case Arrive(x, _, _) => SameHandsOk(s.sessions, x, s'.sessions[x]);
    case Take(x, _) => SameHandsOk(s.sessions, x, s'.sessions[x]);
    case Forward(x) => SameHandsOk(s.sessions, x, s'.sessions[x]);
    case Deliver(x, _) => SameHandsOk(s.sessions, x, s'.sessions[x]);
    case End(x) => SameHandsOk(s.sessions, x, s'.sessions[x]);
    case Serve(ch) => ServedHands(s, ch);
    case _ =>
  }

  lemma StepQueue(s: Sys, l: Label, unpadded: bool)
    requires Enabled(s, l) && FromWire(l, unpadded) && QueueOk(s.core.queue) && HandsOk(s.sessions)
    ensures QueueOk(Step(s, l).core.queue)
  {
    hide Leave, CanServe, ServedHead, OnPacket, NewProfile, Readable, Canonical, LegalShines, Append;
    match l
    case Serve(ch) =>
      ServedQueue(s, ch);
      assert s.core.queue != [] by { ServesHead(s, ch); }
      QueueTail(s.core.queue, s.core.queue[0]);
    case Drain(g, undone, bye) => LeaveFrame(s.core, g, undone, bye);
    case _ =>
  }

  lemma StepSendable(s: Sys, l: Label, unpadded: bool)
    requires Enabled(s, l) && FromWire(l, unpadded) && SendableInv(s, unpadded)
    ensures SendableInv(Step(s, l), unpadded)
  {
    hide HeapOk, AllMsgs, Step, Enabled, FromWire, AllowsOwn, AllowsCommand, CommandOk, HandsOk;
    StepHeap(s, l, unpadded);
    StepHands(s, l, unpadded);
    StepQueue(s, l, unpadded);
    OwnSendable(s.core.heap, unpadded);
    if s.core.queue != [] {
      CommandSendable(s.core.queue[0], unpadded);
    }
    StepAll(s, l, IsSendable(unpadded));
  }

  ghost predicate AllFromWire(labels: seq<Label>, unpadded: bool) {
    forall i :: 0 <= i < |labels| ==> FromWire(labels[i], unpadded)
  }

  /** In every run on packets from the wire, everything ever sent to a session is canonical, except that the last
      game packet of a player may be replayed with the padding it came with; and if game packets come without
      padding, without exception. */
  lemma {:induction false} RunSendable(run: seq<Sys>, labels: seq<Label>, n: nat, unpadded: bool)
    requires IsRun(run, labels) && n < |run| && AllFromWire(labels, unpadded)
    ensures SendableInv(run[n], unpadded)
  {
    if n > 0 {
      hide Step, Enabled, FromWire, SendableInv;
      RunSendable(run, labels, n - 1, unpadded);
      StepSendable(run[n - 1], labels[n - 1], unpadded);
    }
  }

  // ---- what sessions write ----

  lemma {:induction false} FilterElements<T>(keep: T -> bool, s: seq<T>, p: T -> bool)
    requires forall i :: 0 <= i < |s| ==> p(s[i])
    ensures forall i :: 0 <= i < |Filter(keep, s)| ==> p(Filter(keep, s)[i])
  {
    if s != [] {
      FilterElements(keep, s[..|s| - 1], p);
    }
  }

  function IsSendablePacket(unpadded: bool): Packet -> bool {
    p => Readable(p) && (Canonical(p) || (!unpadded && p.data.Game?))
  }

  lemma ForeignSendable(guid: Guid, ms: seq<Msg>, unpadded: bool)
    requires AllIn(ms, IsSendable(unpadded))
    ensures forall i :: 0 <= i < |Foreign(guid, ms)| ==> IsSendablePacket(unpadded)(Foreign(guid, ms)[i])
  {
    hide Filter, Readable, Canonical;
    FilterElements(IsForeign(guid), Map(PacketOf(), ms), IsSendablePacket(unpadded));
  }

  lemma WrittenSendable(s: Sys, x: Sid, sent: seq<Packet>, unpadded: bool)
    requires SendableInv(s, unpadded) && WrittenInv(s) && x in s.sessions && Subseq(sent, s.sessions[x].written)
    ensures forall i :: 0 <= i < |sent| ==> IsSendablePacket(unpadded)(sent[i])
  {
    hide Subseq, Foreign, Readable, Canonical, HeapOk, QueueOk;
    var y, log := s.sessions[x], s.core.log[x];
    assert WrittenAt(y, log) && AllIn(log, IsSendable(unpadded));
    var handled := Foreign(y.guid, log[..y.taken]);
    ForeignSendable(y.guid, log[..y.taken], unpadded);
    SubseqTrans(sent, y.written, handled);
    SubseqElements(IsSendablePacket(unpadded), sent, handled);
  }

  /** If game packets come in without padding, whatever a session writes, all of it or the part that goes over one
      of its connections, comes back from the stream packet by packet. */
  lemma OutputParses(run: seq<Sys>, labels: seq<Label>, n: nat, x: Sid, sent: seq<Packet>)
    requires IsRun(run, labels) && n < |run| && AllFromWire(labels, true)
    requires x in run[n].sessions && Subseq(sent, run[n].sessions[x].written)
    ensures ParseAll(EncodeAll(sent)) == Stream(sent, [])
  {
    hide IsRun, AllFromWire, SendableInv, WrittenInv, Subseq, ParseAll, EncodeAll, Readable, Canonical;
    RunSendable(run, labels, n, true);
    RunFifo(run, labels, n);
    WrittenSendable(run[n], x, sent, true);
    WireRoundTripExactly(sent);
  }

  /** Without that, it comes back exactly if no packet among it is the replay of a padded game packet. */
  lemma OutputParsesExactly(run: seq<Sys>, labels: seq<Label>, n: nat, x: Sid, sent: seq<Packet>)
    requires IsRun(run, labels) && n < |run| && AllFromWire(labels, false)
    requires x in run[n].sessions && Subseq(sent, run[n].sessions[x].written)
    ensures ParseAll(EncodeAll(sent)) == Stream(sent, [])
       <==> forall i :: 0 <= i < |sent| && sent[i].data.Game? ==> sent[i].dataSize == GetSize(sent[i].data)
  {
    hide IsRun, AllFromWire, SendableInv, WrittenInv, Subseq, ParseAll, EncodeAll, CanonicalData;
    RunSendable(run, labels, n, false);
    RunFifo(run, labels, n);
    WrittenSendable(run[n], x, sent, false);
    WireRoundTripExactly(sent);
  }

  /** The introduction of a player comes back exactly if its last game packet came without padding: the replay is not
      resized. */
  lemma IntroParsesExactly(g: Guid, d: Profile, maxPlayers: u16)
    requires ProfileOk(d, false)
    ensures var ps := Map(PacketOf(), IntroOf(g, d, maxPlayers));
            ParseAll(EncodeAll(ps)) == Stream(ps, [])
            <==> (d.lastGame.Some? ==> d.lastGame.value.dataSize == GetSize(d.lastGame.value.data))
  {
    hide ParseAll, EncodeAll, Fits;
    NewCanonical(g, Connect(FirstConnection, maxPlayers, d.name));
    NewCanonical(g, CostumeData(d.costume));
    hide CanonicalData;
    var ps := Map(PacketOf(), IntroOf(g, d, maxPlayers));
    WireRoundTripExactly(ps);
    assert |ps| == if d.lastGame.Some? then 3 else 2;
    assert Canonical(ps[0]) && Canonical(ps[1]);
    if d.lastGame.Some? {
      assert ps[2] == d.lastGame.value;
    }
  }

  // ---- whose packets they are ----

  function GuidsOf(sessions: map<Sid, Session>): map<Sid, Guid> {
    map x | x in sessions :: sessions[x].guid
  }

  /** A relayed packet bears the guid of the session that forwarded it. */
  function IsStamped(who: map<Sid, Guid>): Msg -> bool {
    (m: Msg) => m.kind.Relayed? ==> m.kind.from in who && who[m.kind.from] == m.packet.id
  }

  ghost predicate QueueStamped(queue: seq<Command<Sid>>, who: map<Sid, Guid>) {
    forall i :: 0 <= i < |queue| && queue[i].PacketCommand? ==>
      queue[i].from in who && who[queue[i].from] == queue[i].packet.id
  }

  ghost predicate HandsStamped(sessions: map<Sid, Session>) {
    forall x :: x in sessions && sessions[x].hand.Some? ==> sessions[x].hand.value.id == sessions[x].guid
  }

  ghost predicate StampedInv(s: Sys) {
    && AllMsgs(s.core, IsStamped(GuidsOf(s.sessions))) && QueueStamped(s.core.queue, GuidsOf(s.sessions))
    && HandsStamped(s.sessions)
  }

  /** A game stamps its packets with its own guid. */
  ghost predicate OwnGuid(s: Sys, l: Label) {
    l.Take? && l.sid in s.sessions ==> l.packet.id == s.sessions[l.sid].guid
  }

  ghost predicate OwnGuids(run: seq<Sys>, labels: seq<Label>)
    requires |run| == |labels| + 1
  {
    forall i :: 0 <= i < |labels| ==> OwnGuid(run[i], labels[i])
  }

  lemma ServedGuids(s: Sys, ch: Choice)
    requires CanServe(s, ch)
    ensures GuidsOf(ServedHead(s, ch).sessions) == GuidsOf(s.sessions)
  {
    hide HandlePacket, Join, Leave, LegalPacket, LegalJoin, Admission, DataFor;
  }

  lemma StepGuids(s: Sys, l: Label)
    requires Enabled(s, l)
    ensures KnowsMore(GuidsOf(s.sessions), GuidsOf(Step(s, l).sessions))
  {
    hide CanServe, ServedHead, Leave, OnPacket, NewProfile, LegalShines, Fire;
    if l.Serve? {
      ServedGuids(s, l.choice);
    }
  }

  lemma AllMsgsMore(c: Core<Sid>, ok: Msg -> bool, ok': Msg -> bool)
    requires AllMsgs(c, ok) && forall m :: ok(m) ==> ok'(m)
    ensures AllMsgs(c, ok')
  {
  }

  lemma OwnStamped(heap: map<Sid, Profile>, who: map<Sid, Guid>)
    ensures AllowsOwn(heap, IsStamped(who))
  {
  }

  lemma StampedTail(queue: seq<Command<Sid>>, who: map<Sid, Guid>, g: Guid)
    requires QueueStamped(queue, who) && queue != []
    ensures QueueStamped(queue[1..], who) && QueueStamped(queue[1..] + [DisconnectPlayer(g)], who)
  {
  }

  lemma ServedQueueStamped(s: Sys, ch: Choice, who: map<Sid, Guid>)
    requires CanServe(s, ch) && QueueStamped(s.core.queue, who)
    ensures QueueStamped(ServedHead(s, ch).core.queue, who)
  {
    ServesHead(s, ch);
    hide CanServe, ServedHead, QueueStamped;
    ServedQueue(s, ch);
    var head := s.core.queue[0];
    StampedTail(s.core.queue, who, if head.NewPlayer? then head.cli.guid else DEFAULT_GUID);
  }

  lemma StepQueueStamped(s: Sys, l: Label)
    requires Enabled(s, l) && OwnGuid(s, l) && QueueStamped(s.core.queue, GuidsOf(s.sessions))
    requires HandsStamped(s.sessions)
    ensures QueueStamped(Step(s, l).core.queue, GuidsOf(s.sessions))
  {
    hide Leave, CanServe, ServedHead, OnPacket, NewProfile, LegalShines, Append;
    match l
    case Serve(ch) => ServedQueueStamped(s, ch, GuidsOf(s.sessions));
    case Drain(g, undone, bye) => LeaveFrame(s.core, g, undone, bye);
    case _ =>
  }

  lemma SameHandsStamped(sessions: map<Sid, Session>, x: Sid, session: Session)
    requires HandsStamped(sessions) && (session.hand.Some? ==> session.hand.value.id == session.guid)
    ensures HandsStamped(sessions[x := session])
  {
  }

  lemma StepHandsStamped(s: Sys, l: Label)
    requires Enabled(s, l) && OwnGuid(s, l) && HandsStamped(s.sessions)
    ensures HandsStamped(Step(s, l).sessions)
  {
    hide CanServe, ServedHead, Leave, OnPacket, NewProfile, LegalShines, Append, Writes, EndsSession;
    var s' := Step(s, l);
    match l
    case Arrive(x, _, _) => SameHandsStamped(s.sessions, x, s'.sessions[x]);
    case Take(x, _) => SameHandsStamped(s.sessions, x, s'.sessions[x]);
    case Forward(x) => SameHandsStamped(s.sessions, x, s'.sessions[x]);
    case Deliver(x, _) => SameHandsStamped(s.sessions, x, s'.sessions[x]);
    case End(x) => SameHandsStamped(s.sessions, x, s'.sessions[x]);
    case Serve(ch) =>
      ServedHands(s, ch);
      ServedGuids(s, ch);
      SameStamps(s.sessions, s'.sessions);
    case _ =>
  }

  lemma SameStamps(a: map<Sid, Session>, b: map<Sid, Session>)
    requires HandsStamped(a) && GuidsOf(b) == GuidsOf(a) && b.Keys == a.Keys
    requires forall x :: x in a ==> b[x].hand == a[x].hand
    ensures HandsStamped(b)
  {
    forall x | x in b ensures b[x].guid == a[x].guid {
      assert GuidsOf(b)[x] == GuidsOf(a)[x];
    }
  }

  lemma StepStamped(s: Sys, l: Label)
    requires Enabled(s, l) && OwnGuid(s, l) && StampedInv(s)
    ensures StampedInv(Step(s, l))
  {
    hide Step, Enabled, OwnGuid, AllowsOwn, AllMsgs, GuidsOf, HandsStamped;
    var who, who' := GuidsOf(s.sessions), GuidsOf(Step(s, l).sessions);
    OwnStamped(s.core.heap, who);
    StepGuids(s, l);
    StepQueueStamped(s, l);
    StepHandsStamped(s, l);
    StepAll(s, l, IsStamped(who));
    AllMsgsMore(Step(s, l).core, IsStamped(who), IsStamped(who'));
  }

  lemma {:induction false} RunStamped(run: seq<Sys>, labels: seq<Label>, n: nat)
    requires IsRun(run, labels) && n < |run| && OwnGuids(run, labels)
    ensures StampedInv(run[n])
  {
    if n > 0 {
      hide Step, Enabled, OwnGuid, StampedInv;
      RunStamped(run, labels, n - 1);
      StepStamped(run[n - 1], labels[n - 1]);
    }
  }
}
