/** Properties of all messages: what holds of everything a step may send holds of everything that was ever sent. */
module Messages {
  import opened Utf8
  import opened Wire
  import opened Packets
  import opened Protocol
  import opened ClientTask
  import opened System
  import opened Structure
  import opened TotalOrder

  ghost predicate AllIn(ms: seq<Msg>, ok: Msg -> bool) {
    forall i :: 0 <= i < |ms| ==> ok(ms[i])
  }

  ghost predicate AllLogs(log: map<Sid, seq<Msg>>, ok: Msg -> bool) {
    forall x :: x in log ==> AllIn(log[x], ok)
  }

  ghost predicate AllMsgs(c: Core<Sid>, ok: Msg -> bool) {
    AllLogs(c.log, ok) && AllIn(c.broadcasts, ok)
  }

  /** Everything the coordinator sends on its own account: shines, departures and introductions. */
  ghost predicate AllowsOwn(heap: map<Sid, Profile>, ok: Msg -> bool) {
    && (forall g: Guid, k: i32 :: ok(Msg(ShinePacket(g, k), Sync)))
    && (forall g: Guid :: ok(Msg(DisconnectPacket(g), Notice)))
    && (forall r, g: Guid, n: u16 :: r in heap ==> AllIn(IntroOf(g, heap[r], n), ok))
  }

  /** What a command adds to that: the packet it passes on. */
  ghost predicate AllowsCommand(cmd: Command<Sid>, ok: Msg -> bool) {
    match cmd
    case PacketCommand(from, p) => !p.data.Shine? ==> ok(Msg(Resize(p), Relayed(from)))
    case NewPlayer(cli, connect) => ok(Msg(Resize(connect), Notice))
    case _ => true
  }

  lemma AllInConcat(a: seq<Msg>, b: seq<Msg>, ok: Msg -> bool)
    requires AllIn(a, ok) && AllIn(b, ok)
    ensures AllIn(a + b, ok)
  {
  }

  lemma AppendAll(log: map<Sid, seq<Msg>>, add: map<Sid, seq<Msg>>, ok: Msg -> bool)
    requires AllLogs(log, ok) && forall x :: x in add ==> AllIn(add[x], ok)
    ensures AllLogs(Append(log, add), ok)
  {
    hide AllIn;
    forall x | x in log ensures AllIn(Append(log, add)[x], ok) {
      if x in add {
        AllInConcat(log[x], add[x], ok);
      }
    }
  }

  lemma BroadcastAll(c: Core<Sid>, p: Packet, kind: Kind, reached: set<Sid>, ok: Msg -> bool)
    requires AllMsgs(c, ok) && ok(Msg(Resize(p), kind))
    ensures AllMsgs(Broadcast(c, p, kind, reached), ok)
  {
    hide AllLogs, Append, Resize;
    var m := Msg(Resize(p), kind);
    AppendAll(c.log, To(reached, [m]), ok);
  }

  lemma LeaveAll(c: Core<Sid>, g: Guid, undone: set<Sid>, bye: bool, ok: Msg -> bool)
    requires AllMsgs(c, ok) && ok(Msg(DisconnectPacket(g), Notice))
    ensures AllMsgs(Leave(c, g, undone, bye).core, ok)
  {
    hide AllLogs, Append, Resize, Broadcast;
    NoticeIsResized(g);
    var c1 := Unregister(c, g);
    BroadcastAll(c1, DisconnectPacket(g), Notice, undone, ok);
    if g in c.toClients {
      AppendAll(Broadcast(c1, DisconnectPacket(g), Notice, undone).log,
                To({c.toClients[g]}, [Msg(DisconnectPacket(g), Notice)]), ok);
    }
  }

  lemma {:induction false} IntrosAll(c: Core<Sid>, order: seq<Guid>, maxPlayers: u16, ok: Msg -> bool)
    requires HandlesLive(c) && forall i :: 0 <= i < |order| ==> order[i] in c.clients
    requires AllowsOwn(c.heap, ok)
    ensures AllIn(IntroAll(c, order, maxPlayers), ok)
  {
    hide IntroOf;
    if order != [] {
      var n := |order| - 1;
      IntrosAll(c, order[..n], maxPlayers, ok);
      AllInConcat(IntroAll(c, order[..n], maxPlayers), IntroOf(order[n], c.heap[c.clients[order[n]]], maxPlayers), ok);
    }
  }

  lemma SetupAll(c: Core<Sid>, sid: Sid, connect: Packet, maxPlayers: u16, ch: Choice, ok: Msg -> bool)
    requires HandlesLive(c) && LegalOrder(c, ch.order) && ch.cut <= |IntroAll(c, ch.order, maxPlayers)|
    requires AllMsgs(c, ok) && AllowsOwn(c.heap, ok) && ok(Msg(Resize(connect), Notice))
    ensures AllMsgs(Setup(c, sid, connect, maxPlayers, ch).core, ok)
  {
    hide AllLogs, AllowsOwn, Append, Resize, Broadcast, IntroAll;
    var intro, c1 := IntroAll(c, ch.order, maxPlayers)[..ch.cut], Introduce(c, sid, maxPlayers, ch.order, ch.cut);
    IntrosAll(c, ch.order, maxPlayers, ok);
    AppendAll(c.log, To({sid}, intro), ok);
    BroadcastAll(c1, connect, Notice, ch.reached, ok);
  }

  lemma JoinAll(c: Core<Sid>, settings: Settings, cli: Joiner<Sid>, connect: Packet, ch: Choice, ok: Msg -> bool)
    requires LegalJoin(c, settings, cli, connect, ch)
    requires AllMsgs(c, ok) && AllowsOwn(c.heap, ok) && ok(Msg(Resize(connect), Notice))
    ensures AllMsgs(Join(c, settings, cli, connect, ch).core, ok)
  {
    hide AllLogs, AllIn, Admission, Setup, Leave, Resize, IntroAll;
    if Admission(c, settings, cli) == None {
      var c1 := Register(c, cli, connect.data.cType);
      SetupAll(c1, cli.sid, connect, settings.maxPlayers, ch, ok);
      LeaveAll(Setup(c1, cli.sid, connect, settings.maxPlayers, ch).core, cli.guid, ch.undone, ch.bye, ok);
    }
  }

  lemma ShinesAll(g: Guid, ids: seq<i32>, ok: Msg -> bool)
    requires forall k: i32 :: ok(Msg(ShinePacket(g, k), Sync))
    ensures AllIn(ShineMsgs(g, ids), ok)
  {
  }

  lemma SyncAllAll(c: Core<Sid>, shines: map<Sid, seq<i32>>, ok: Msg -> bool)
    requires AllMsgs(c, ok) && AllowsOwn(c.heap, ok)
    ensures AllMsgs(SyncAll(c, shines), ok)
  {
    hide AllLogs, AllIn, Append, ShineMsgs;
    forall x | x in shines ensures AllIn(ShineMsgs(DEFAULT_GUID, shines[x]), ok) {
      ShinesAll(DEFAULT_GUID, shines[x], ok);
    }
    AppendAll(c.log, ShineSends(shines), ok);
  }

  lemma BeforeAll(c: Core<Sid>, p: Packet, ch: Choice, ok: Msg -> bool)
    requires HandlesLive(c) && Coherent(c)
    requires IsReset(p.data) || IsWaterfall(p.data) ==> p.id in c.clients
    requires AllMsgs(c, ok) && AllowsOwn(c.heap, ok)
    ensures AllMsgs(BeforeBroadcast(c, p, ch), ok)
  {
    hide AllLogs, AllIn, SyncAll, IsReset, IsWaterfall, AllowsOwn;
    SyncAllAll(c, ch.shines, ok);
  }

  lemma PacketAll(c: Core<Sid>, from: Sid, p: Packet, ch: Choice, ok: Msg -> bool)
    requires LegalPacket(c, p, ch)
    requires AllMsgs(c, ok) && AllowsOwn(c.heap, ok) && AllowsCommand(PacketCommand(from, p), ok)
    ensures AllMsgs(HandlePacket(c, from, p, ch).core, ok)
  {
    hide AllLogs, AllIn, SyncAll, IsReset, IsWaterfall, AllowsOwn, BeforeBroadcast, Broadcast, Synced, LegalShines,
      Resize;
    if p.data.Shine? {
      SyncAllAll(Collect(c, p.data.shineId), ch.shines, ok);
    } else if p.data.CostumeData? && !Synced(c, ch.shines) {
      SyncAllAll(c, ch.shines, ok);
    } else if !((IsReset(p.data) || IsWaterfall(p.data)) && p.id !in c.clients) {
      BeforeAll(c, p, ch, ok);
      BroadcastAll(BeforeBroadcast(c, p, ch), p, Relayed(from), ch.reached, ok);
    }
  }

  lemma ServedAll(s: Sys, ch: Choice, ok: Msg -> bool)
    requires CanServe(s, ch)
    requires AllMsgs(s.core, ok) && AllowsOwn(s.core.heap, ok) && AllowsCommand(s.core.queue[0], ok)
    ensures AllMsgs(ServedHead(s, ch).core, ok)
  {
    hide AllLogs, AllIn, HandlePacket, Join, Leave, LegalPacket, LegalJoin, Resize, IntroOf;
    var c := WithoutHead(s.core);
    match s.core.queue[0]
    case PacketCommand(from, p) => PacketAll(c, from, p, ch, ok);
    case NewPlayer(cli, connect) => JoinAll(c, s.settings, cli, connect, ch, ok);
    case DisconnectPlayer(g) => LeaveAll(c, g, ch.undone, ch.bye, ok);
    case Shutdown =>
  }

  lemma FiredAll(c: Core<Sid>, i: nat, ids: seq<i32>, ok: Msg -> bool)
    requires AllMsgs(c, ok) && AllowsOwn(c.heap, ok) && i < |c.delayed|
    ensures AllMsgs(Fire(c, i, ids), ok)
  {
    hide AllLogs, AllIn, Append, ShineMsgs;
    var d := c.delayed[i];
    ShinesAll(d.guid, ids, ok);
    AppendAll(c.log, To({d.chan}, ShineMsgs(d.guid, ids)), ok);
  }

  lemma ArrivedAll(s: Sys, sid: Sid, ip: Ip, connect: Packet, ok: Msg -> bool)
    requires connect.data.Connect? && AllMsgs(s.core, ok)
    ensures AllMsgs(Arrived(s, sid, ip, connect).core, ok)
  {
    hide NewProfile;
  }

  lemma QuietStep(s: Sys, l: Label)
    requires Enabled(s, l) && (l.Take? || l.Forward? || l.Deliver? || l.End? || l.AskShutdown?)
    ensures Step(s, l).core.log == s.core.log && Step(s, l).core.broadcasts == s.core.broadcasts
  {
    hide OnPacket, Writes, EndsSession;
  }

  /** One step keeps a property of all messages if it allows everything the step may send. */
  lemma StepAll(s: Sys, l: Label, ok: Msg -> bool)
    requires Enabled(s, l) && AllMsgs(s.core, ok) && AllowsOwn(s.core.heap, ok)
    requires s.core.queue != [] ==> AllowsCommand(s.core.queue[0], ok)
    ensures AllMsgs(Step(s, l).core, ok)
  {
    assert l.Serve? ==> s.core.queue != [];
    hide AllLogs, AllIn, CanServe, ServedHead, Leave, Arrived, Took, Forwarded, Delivered, Finished, Fire,
      LegalShines, Resize, IntroOf;
    match l
    case Arrive(sid, ip, connect) => ArrivedAll(s, sid, ip, connect, ok);
    case Serve(ch) => ServedAll(s, ch, ok);
    case FireSync(i, ids) => FiredAll(s.core, i, ids, ok);
    case Drain(g, undone, bye) => LeaveAll(s.core, g, undone, bye, ok);
    case _ => QuietStep(s, l);
  }
}
