/** The whole server as a state machine: one coordinator, any number of client sessions, the queues between them
    and the delayed shine syncs.  A run is any interleaving of the steps; a command is handled in one step. */
module System {
  import opened Utf8
  import opened Wire
  import opened Packets
  import opened Protocol
  import opened ClientTask

  datatype Phase = Waiting | Running | Leaving | Ended

  /** One session.  Its inbox is what is left of its log after the `taken` messages it has handled. */
  datatype Session = Session(
    guid: Guid, ip: Ip,
    data: Sid,                 // whose data it shares: its own, or that of the session it reconnected to
    phase: Phase,
    taken: nat,
    written: seq<Packet>,      // everything it wrote to its game
    dropped: nat,              // how many socket writes have failed
    forwarded: seq<Packet>,    // everything it sent to the coordinator
    served: nat,               // how many of those the coordinator has handled
    introLen: nat,             // how many introduction messages it was sent when it joined
    joinedAt: nat,             // how many broadcasts there were when it joined
    hand: Option<Packet>)      // a packet it has handled and is about to send to the coordinator

  datatype Mode = Serving | Draining(todo: set<Guid>)

  /** What has gone wrong so far: whether any channel send has failed, which sessions some broadcast did not get to
      while they were registered, and which sessions forwarded a packet whose command ended before passing it on. */
  datatype Sys = Sys(settings: Settings, core: Core<Sid>, sessions: map<Sid, Session>, mode: Mode,
                     clean: bool, missed: set<Sid>, stopped: set<Sid>)

  datatype Label =
    | Arrive(newcomer: Sid, ip: Ip, connect: Packet)   // a socket has completed its handshake
    | Take(sid: Sid, packet: Packet)                   // a session handles a packet from its game
    | Forward(sender: Sid)                             // the session sends it on to the coordinator
    | Deliver(to: Sid, wrote: bool)                    // a session handles the next message of its inbox
    | End(ended: Sid)                                  // a session's loop has ended
    | Serve(choice: Choice)                            // the coordinator handles the next command
    | FireSync(index: nat, ids: seq<i32>)              // a delayed shine sync runs
    | AskShutdown                                      // somebody sends the shutdown command
    | Drain(leaver: Guid, undone: set<Sid>, bye: bool) // after a shutdown: one player is disconnected

  function NewProfile(name: Text): Profile {
    Profile(name, {}, 0, false, false, None, false, false, 0, Costume(MARIO, MARIO))
  }

  /** "Mario" */
  const MARIO: Text := DefaultName()

  function DefaultName(): Text {
    var s := [0x4D, 0x61, 0x72, 0x69, 0x6F];
    ValidAscii(s);
    s
  }

  predicate Initial(s: Sys) {
    && s.core == Core(map[], map[], {}, map[], map[], [], [], [], [])
    && s.sessions == map[] && s.mode == Serving && s.clean && s.missed == {} && s.stopped == {}
  }

  function WithoutHead(c: Core<Sid>): Core<Sid>
    requires c.queue != []
  {
    c.(queue := c.queue[1..])
  }

  function Dequeued(s: Sys): Sys
    requires s.core.queue != []
  {
    s.(core := WithoutHead(s.core))
  }

  /** The coordinator can handle `cmd`, which it has just taken off its queue, with the given choices. */
  ghost predicate Servable(s: Sys, cmd: Command<Sid>, ch: Choice) {
    && Legal(s.core, s.settings, cmd, ch)
    && (cmd.PacketCommand? ==> cmd.from in s.sessions)
    && (cmd.NewPlayer? ==> cmd.cli.sid in s.sessions)
  }

  ghost predicate CanServe(s: Sys, ch: Choice) {
    s.core.queue != [] && Servable(Dequeued(s), s.core.queue[0], ch)
  }

  /** The coordinator has not finished shutting down: commands can still be sent to it. */
  predicate CoordinatorUp(s: Sys) {
    s.mode != Draining({})
  }

  /** A session is between two events. */
  predicate Idle(s: Sys, sid: Sid) {
    sid in s.sessions && s.sessions[sid].phase == Running && s.sessions[sid].hand == None
  }

  ghost predicate Enabled(s: Sys, l: Label) {
    match l
    case Arrive(sid, _, connect) => sid !in s.sessions && connect.data.Connect? && CoordinatorUp(s)
    case Take(sid, p) => Idle(s, sid) && s.sessions[sid].data in s.core.heap
    case Forward(sid) => sid in s.sessions && s.sessions[sid].phase == Running && s.sessions[sid].hand.Some?
    case Deliver(sid, _) => Idle(s, sid) && sid in s.core.log && s.sessions[sid].taken < |s.core.log[sid]|
    case End(sid) => Idle(s, sid) || (sid in s.sessions && s.sessions[sid].phase == Leaving)
    case Serve(ch) =>
      s.mode == Serving && CanServe(s, ch)
    case FireSync(i, ids) =>
      && i < |s.core.delayed| && s.core.delayed[i].data in s.core.heap
      && LegalShines(ids, s.core.heap[s.core.delayed[i].data], s.core.bag)
    case AskShutdown => CoordinatorUp(s)
    case Drain(g, undone, _) =>
      s.mode.Draining? && g in s.mode.todo && undone <= Everyone(Unregister(s.core, g))
  }

  function Arrived(s: Sys, sid: Sid, ip: Ip, connect: Packet): Sys
    requires connect.data.Connect?
  {
    var guid := connect.id;
    var core := s.core.(
      heap := s.core.heap[sid := NewProfile(connect.data.clientName)],
      log := s.core.log[sid := []],
      queue := s.core.queue + [NewPlayer(Joiner(sid, guid, ip, sid), connect)]);
    s.(core := core, sessions := s.sessions[sid := Session(guid, ip, sid, Waiting, 0, [], 0, [], 0, 0, 0, None)])
  }

  /** The shared data is updated at once; the packet may have to wait for room in the coordinator's queue. */
  function Took(s: Sys, sid: Sid, p: Packet): Sys
    requires sid in s.sessions && s.sessions[sid].data in s.core.heap
  {
    var x := s.sessions[sid];
    s.(core := s.core.(heap := s.core.heap[x.data := OnPacket(s.core.heap[x.data], p)]),
       sessions := s.sessions[sid := x.(hand := if Forwards(p) then Some(p) else None)])
  }

  /** The send fails when the coordinator is gone; the packet is lost then. */
  function Forwarded(s: Sys, sid: Sid): Sys
    requires sid in s.sessions && s.sessions[sid].hand.Some?
  {
    var x, p := s.sessions[sid], s.sessions[sid].hand.value;
    if !CoordinatorUp(s) then s.(sessions := s.sessions[sid := x.(hand := None)])
    else s.(core := s.core.(queue := s.core.queue + [PacketCommand(sid, p)]),
            sessions := s.sessions[sid := x.(hand := None, forwarded := x.forwarded + [p])])
  }

  function Delivered(s: Sys, sid: Sid, wrote: bool): Sys
    requires sid in s.sessions && sid in s.core.log && s.sessions[sid].taken < |s.core.log[sid]|
  {
    var x := s.sessions[sid];
    var p := s.core.log[sid][x.taken].packet;
    var x1 := x.(taken := x.taken + 1);
    var x2 := if EndsSession(x.guid, p) then x1.(phase := Leaving)
              else if !Writes(x.guid, p) then x1
              else if wrote then x1.(written := x.written + [p])
              else x1.(dropped := x.dropped + 1);
    s.(sessions := s.sessions[sid := x2])
  }

  function Finished(s: Sys, sid: Sid): Sys
    requires sid in s.sessions
  {
    var s1 := s.(sessions := s.sessions[sid := s.sessions[sid].(phase := Ended)]);
    if !CoordinatorUp(s) then s1
    else s1.(core := s.core.(queue := s.core.queue + [DisconnectPlayer(s.sessions[sid].guid)]))
  }

  function Noted(s: Sys, r: Result): Sys {
    s.(clean := s.clean && r != SendFailed)
  }

  /** Who should have heard of a departure and did not.  The leaver itself is not among them: it may well be gone. */
  function LeaveMissed(c: Core<Sid>, g: Guid, undone: set<Sid>): set<Sid> {
    if g in c.toClients then Everyone(Unregister(c, g)) - undone else {}
  }

  /** Who should have heard of a newcomer, or of its departure after a failed setup, and did not. */
  function JoinMissed(c: Core<Sid>, settings: Settings, cli: Joiner<Sid>, connect: Packet, ch: Choice): set<Sid>
    requires LegalJoin(c, settings, cli, connect, ch)
  {
    if Admission(c, settings, cli).Some? then {}
    else
      var c1 := Register(c, cli, connect.data.cType);
      var setup := Setup(c1, cli.sid, connect, settings.maxPlayers, ch);
      (if AllIntroduced(c1, settings.maxPlayers, ch) then Everyone(c1) - ch.reached else {})
      + (if setup.result == Continue then {} else LeaveMissed(setup.core, cli.guid, ch.undone))
  }

  function ServePacket(s: Sys, from: Sid, p: Packet, ch: Choice): Sys
    requires LegalPacket(s.core, p, ch) && from in s.sessions
  {
    var h, x := HandlePacket(s.core, from, p, ch), s.sessions[from];
    Noted(s.(core := h.core, sessions := s.sessions[from := x.(served := x.served + 1)],
             missed := s.missed + if PassedOn(s.core, p, ch) then Everyone(s.core) - ch.reached else {},
             stopped := s.stopped + if p.data.Shine? || PassedOn(s.core, p, ch) then {} else {from}), h.result)
  }

  /** A newcomer that is let in starts running; one that is refused is dropped. */
  function ServeJoin(s: Sys, cli: Joiner<Sid>, connect: Packet, ch: Choice): Sys
    requires LegalJoin(s.core, s.settings, cli, connect, ch) && cli.sid in s.sessions
  {
    var h, x := Join(s.core, s.settings, cli, connect, ch), s.sessions[cli.sid];
    var x' := if Admission(s.core, s.settings, cli).Some? then x.(phase := Ended)
              else x.(phase := Running, data := DataFor(s.core, cli, connect.data.cType),
                      introLen := ch.cut, joinedAt := |s.core.broadcasts|);
    Noted(s.(core := h.core, sessions := s.sessions[cli.sid := x'],
             missed := s.missed + JoinMissed(s.core, s.settings, cli, connect, ch)), h.result)
  }

  function ServeLeave(s: Sys, g: Guid, undone: set<Sid>, bye: bool): Sys {
    var h := Leave(s.core, g, undone, bye);
    Noted(s.(core := h.core, missed := s.missed + LeaveMissed(s.core, g, undone)), h.result)
  }

  function Served(s: Sys, cmd: Command<Sid>, ch: Choice): Sys
    requires Servable(s, cmd, ch)
  {
    match cmd
    case PacketCommand(from, p) => ServePacket(s, from, p, ch)
    case NewPlayer(cli, connect) => ServeJoin(s, cli, connect, ch)
    case DisconnectPlayer(g) => ServeLeave(s, g, ch.undone, ch.bye)
    case Shutdown => s.(mode := Draining(s.core.toClients.Keys))
  }

  function ServedHead(s: Sys, ch: Choice): Sys
    requires CanServe(s, ch)
  {
    Served(Dequeued(s), s.core.queue[0], ch)
  }

  /** Serving a command changes the coordinator's state exactly as `Handle` says. */
  lemma ServedIsHandled(s: Sys, cmd: Command<Sid>, ch: Choice)
    requires Servable(s, cmd, ch)
    ensures Served(s, cmd, ch).core == Handle(s.core, s.settings, cmd, ch).core
    ensures Served(s, cmd, ch).mode.Draining? <==> s.mode.Draining? || Handle(s.core, s.settings, cmd, ch).result == Stop
  {
    hide HandlePacket, Leave, Setup, LegalPacket;
    match cmd
    case PacketCommand(from, p) => PacketResult(s.core, from, p, ch);
    case NewPlayer(cli, connect) => JoinResult(s.core, s.settings, cli, connect, ch);
    case DisconnectPlayer(g) => LeaveResult(s.core, g, ch.undone, ch.bye);
    case Shutdown =>
  }

  lemma PacketResult(c: Core<Sid>, from: Sid, p: Packet, ch: Choice)
    requires LegalPacket(c, p, ch)
    ensures HandlePacket(c, from, p, ch).result in {Continue, InvalidID, SendFailed}
  {
    hide Synced, LegalSync, Broadcast, SyncAll, IsReset, IsWaterfall, BeforeBroadcast;
  }

  lemma LeaveResult(c: Core<Sid>, g: Guid, undone: set<Sid>, bye: bool)
    ensures Leave(c, g, undone, bye).result in {Continue, SendFailed}
  {
  }

  lemma JoinResult(c: Core<Sid>, settings: Settings, cli: Joiner<Sid>, connect: Packet, ch: Choice)
    requires LegalJoin(c, settings, cli, connect, ch)
    ensures Join(c, settings, cli, connect, ch).result != Stop && Join(c, settings, cli, connect, ch).result != InvalidID
    ensures Join(c, settings, cli, connect, ch).result.Refused? <==> Admission(c, settings, cli).Some?
  {
    hide IntroAll, Leave, Introduce, Broadcast;
  }

  function Step(s: Sys, l: Label): Sys
    requires Enabled(s, l)
  {
    match l
    case Arrive(sid, ip, connect) => Arrived(s, sid, ip, connect)
    case Take(sid, p) => Took(s, sid, p)
    case Forward(sid) => Forwarded(s, sid)
    case Deliver(sid, wrote) => Delivered(s, sid, wrote)
    case End(sid) => Finished(s, sid)
    case Serve(ch) => ServedHead(s, ch)
    case FireSync(i, ids) => s.(core := Fire(s.core, i, ids))
    case AskShutdown => s.(core := s.core.(queue := s.core.queue + [Shutdown]))
    case Drain(g, undone, bye) => ServeLeave(s.(mode := Draining(s.mode.todo - {g})), g, undone, bye)
  }

  /** A run: states and the steps between them. */
  ghost predicate IsRun(run: seq<Sys>, labels: seq<Label>) {
    && |run| == |labels| + 1 && Initial(run[0])
    && forall i :: 0 <= i < |labels| ==> Enabled(run[i], labels[i]) && run[i + 1] == Step(run[i], labels[i])
  }
}
