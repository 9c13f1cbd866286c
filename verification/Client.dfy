/** A client task as the program has it: an object that reads its two connections and its inbox, writes to the data it
    shares with the coordinator, and sends commands to the coordinator.  Proved against the functions of module
    ClientTask. */
module Client {
  import opened Utf8
  import opened Wire
  import opened Packets
  import opened CodecTheorems
  import opened Framing
  import opened Connections
  import opened Sequences
  import opened Protocol
  import opened ClientTask
  import opened Coordinator
  import opened Routing
  import Proxy

  /** What the loop waits on, and what it got. */
  datatype Ready = TcpReady | UdpReady | InboxReady

  /** `taken` is false when the coordinator is gone by then, and what is sent to it comes back as an error; `wrote` is
      false when the socket takes nothing. */
  datatype SessionEvent = SessionEvent(ready: Ready, packet: Packet, taken: bool, wrote: bool)

  predicate External(e: SessionEvent) {
    !e.ready.InboxReady?
  }

  /** The events of one session up to now, and what the session made of them. */
  function DataAfter(d: Profile, trace: seq<SessionEvent>): Profile {
    if trace == [] then d
    else
      var n := |trace| - 1;
      var before := DataAfter(d, trace[..n]);
      if External(trace[n]) then OnPacket(before, trace[n].packet) else before
  }

  function CommandsAfter(sid: Sid, trace: seq<SessionEvent>): seq<Command<ClientData>> {
    if trace == [] then []
    else
      var n := |trace| - 1;
      CommandsAfter(sid, trace[..n]) + CommandOf(sid, trace[n])
  }

  function WrittenAfter(guid: Guid, trace: seq<SessionEvent>): seq<Packet> {
    if trace == [] then []
    else
      var n := |trace| - 1;
      WrittenAfter(guid, trace[..n]) + WrittenFor(guid, trace[n])
  }

  function InboxAfter(trace: seq<SessionEvent>): seq<Packet> {
    if trace == [] then []
    else
      var n := |trace| - 1;
      InboxAfter(trace[..n]) + if External(trace[n]) then [] else [trace[n].packet]
  }

  function TcpAfter(trace: seq<SessionEvent>): seq<Packet> {
    if trace == [] then []
    else
      var n := |trace| - 1;
      TcpAfter(trace[..n]) + if trace[n].ready.TcpReady? then [trace[n].packet] else []
  }

  function UdpAfter(trace: seq<SessionEvent>): seq<Packet> {
    if trace == [] then []
    else
      var n := |trace| - 1;
      UdpAfter(trace[..n]) + if trace[n].ready.UdpReady? then [trace[n].packet] else []
  }

  predicate AnnouncesPort(e: SessionEvent) {
    External(e) && e.packet.data.UdpInit?
  }

  /** No port was announced: the datagrams of one peer count. */
  predicate OnePeer(trace: seq<SessionEvent>) {
    forall i :: 0 <= i < |trace| ==> !AnnouncesPort(trace[i])
  }

  /** The event that ends the session. */
  predicate Ends(guid: Guid, e: SessionEvent) {
    !External(e) && EndsSession(guid, e.packet)
  }

  lemma OnGame(d: Profile, p: Packet)
    requires p.data.Game?
    ensures var d1 := d.(is2d := p.data.is2d, scenario := p.data.scenarioNum, lastGame := Some(p));
            OnPacket(d, p) == (if p.data.stage == CAP_STAGE && p.data.scenarioNum == 0 then StartSpeedrun(d1) else d1)
  {
  }

  lemma OnOther(d: Profile, p: Packet)
    requires !p.data.Game?
    ensures OnPacket(d, p) ==
      match p.data
      case CostumeData(costume) => d.(costume := costume, loadedSave := true)
      case Tag(Time, _, seconds, minutes) => d.(time := (seconds as int) + (minutes as int) * 60)
      case Tag(State, isIt, _, _) => d.(isSeeking := isIt)
      case Shine(k, _) => if d.loadedSave then d.(shineSync := d.shineSync + {k}) else d
      case _ => d
  {
  }

  class Client {
    const sid: Sid
    const guid: Guid
    const data: ClientData
    const conn: Connection
    const udpConn: UdpConnection
    var alive: bool
    var toCoord: seq<Command<ClientData>>   // everything sent to the coordinator
    var fromServer: seq<Packet>             // the inbox
    var senderGone: bool                    // the coordinator has dropped its end of the inbox

    ghost predicate Valid()
      reads conn
    {
      conn.Valid()
    }

    constructor (cli: Joiner<ClientData>, conn: Connection, udpConn: UdpConnection)
      requires conn.Valid()
      ensures Valid() && alive && toCoord == [] && fromServer == [] && !senderGone
      ensures sid == cli.sid && guid == cli.guid && data == cli.data && this.conn == conn && this.udpConn == udpConn
    {
      sid, guid, data, this.conn, this.udpConn := cli.sid, cli.guid, cli.data, conn, udpConn;
      alive, toCoord, fromServer, senderGone := true, [], [], false;
    }

    /** `handle_packet`.  `up` says whether the coordinator still takes commands; if not, the send fails and only the
        command is lost. */
    method HandlePacket(packet: Packet, up: bool)
      modifies this`toCoord, data, udpConn`sendAddr
      ensures data.Value() == OnPacket(old(data.Value()), packet)
      ensures toCoord == old(toCoord) + if packet.data.UdpInit? || !up then [] else [PacketCommand(sid, packet)]
      ensures if packet.data.UdpInit? then
                match old(udpConn.sendAddr)
                case Pending(ip) => udpConn.sendAddr == Connected(Addr(ip, packet.data.port))
                case Connected(addr) => udpConn.sendAddr == Connected(Addr(addr.ip, packet.data.port))
              else udpConn.sendAddr == old(udpConn.sendAddr)
    {
      hide OnPacket, ClientData.Value;
      UpdateData(packet);
      var sendToCoord := true;
      if packet.data.UdpInit? {
        udpConn.SetClientPort(packet.data.port);
        sendToCoord := false;
      }
      if sendToCoord && up {
        toCoord := toCoord + [PacketCommand(sid, packet)];
      }
    }

    /** The part of `handle_packet` that writes to the shared data. */
    method UpdateData(packet: Packet)
      modifies data
      ensures data.Value() == OnPacket(old(data.Value()), packet)
    {
      hide OnPacket, StartSpeedrun;
      ghost var d := data.Value();
      match packet.data {
        case CostumeData(costume) =>
          data.costume := costume;
          data.loadedSave := true;
          assert data.Value() == d.(costume := costume, loadedSave := true);
        case Game(is2d, scenarioNum, stage) =>
          NoteGame(is2d, scenarioNum, packet);
          OnGame(d, packet);
          if stage == CAP_STAGE && scenarioNum == 0 {
            data.StartSpeedrun();
          }
        case Tag(updateType, isIt, seconds, minutes) =>
          match updateType {
            case Time => data.time := (seconds as int) + (minutes as int) * 60;
            case State => data.isSeeking := isIt;
          }
        case Shine(shineId, _) =>
          if data.loadedSave {
            data.shineSync := data.shineSync + {shineId};
          }
        case _ =>
      }
      if !packet.data.Game? {
        OnOther(d, packet);
      }
    }

    method NoteGame(is2d: bool, scenarioNum: byte, packet: Packet)
      modifies data
      ensures data.Value() == old(data.Value()).(is2d := is2d, scenario := scenarioNum, lastGame := Some(packet))
    {
      data.is2d := is2d;
      data.scenario := scenarioNum;
      data.lastGame := Some(packet);
    }

    predicate ByUdp(packet: Packet)
      reads udpConn
    {
      udpConn.IsClientUdp() && Proxy.IsMovement(packet)
    }

    /** `send_packet`: movement goes over UDP once the game has announced a port, everything else over TCP; a packet
        that bears the session's own guid goes nowhere.  `works` says whether the TCP socket still takes a write; if
        not, only the packet is lost. */
    method SendPacket(packet: Packet, works: bool) returns (ghost overTcp: seq<Packet>, ghost overUdp: seq<Packet>)
      modifies conn`written, udpConn`sent
      ensures var byUdp := udpConn.sendAddr.Connected? && (packet.data.Player? || packet.data.Cap?);
              && overTcp + overUdp == (if packet.id != guid && (works || byUdp) then [packet] else [])
              && (overUdp != [] <==> packet.id != guid && byUdp)
      ensures conn.written == old(conn.written) + EncodeAll(overTcp)
      ensures Proxy.Payloads(udpConn.sent) == Proxy.Payloads(old(udpConn.sent)) + EncodeAll(overUdp)
    {
      hide Encode;
      overTcp, overUdp := [], [];
      Proxy.SingleWrites(packet);
      if packet.id != guid {
        if udpConn.IsClientUdp() && (packet.data.Player? || packet.data.Cap?) {
          var ok := udpConn.WritePacket(packet);
          Proxy.Snoc(old(udpConn.sent), Datagram(udpConn.sendAddr.addr, Encode(packet)));
          overUdp := [packet];
        } else if works {
          conn.WritePacket(packet);
          overTcp := [packet];
        }
      }
    }

    /** `handle_command`; only packets ever come through the inbox. */
    method HandleCommand(packet: Packet, works: bool) returns (ghost overTcp: seq<Packet>, ghost overUdp: seq<Packet>)
      modifies this`alive, conn`written, udpConn`sent
      ensures alive == (old(alive) && !(packet.id == guid && packet.data.Disconnect?))
      ensures var byUdp := udpConn.sendAddr.Connected? && (packet.data.Player? || packet.data.Cap?);
              && overTcp + overUdp == (if packet.id != guid && (works || byUdp) then [packet] else [])
              && (overUdp != [] <==> packet.id != guid && byUdp)
      ensures conn.written == old(conn.written) + EncodeAll(overTcp)
      ensures Proxy.Payloads(udpConn.sent) == Proxy.Payloads(old(udpConn.sent)) + EncodeAll(overUdp)
    {
      overTcp, overUdp := [], [];
      if packet.id == guid {
        if packet.data.Disconnect? {
          alive := false;
        }
      } else {
        overTcp, overUdp := SendPacket(packet, works);
      }
    }

    /** `disconnect` */
    method Disconnect(up: bool)
      modifies this`toCoord
      ensures toCoord == old(toCoord) + if up then [Command.DisconnectPlayer(guid)] else []
    {
      if up {
        toCoord := toCoord + [Command.DisconnectPlayer(guid)];
      }
    }

    /** `read_event`: one of the three inputs is ready, or the session is over, or there is nothing to do. */
    method ReadEvent(ready: Ready) returns (r: Received)
      requires Valid()
      modifies this`fromServer, conn`buff, conn`incoming, udpConn`buff, udpConn`incoming, udpConn`accepted
      ensures Valid()
      ensures ready.TcpReady? && r.Received? ==>
                && ParseAll(old(conn.Pending())).packets == [r.packet] + ParseAll(conn.Pending()).packets
                && ParseAll(old(conn.Pending())).leftover == ParseAll(conn.Pending()).leftover
      ensures ready.TcpReady? && r in {ConnectionClose, ConnectionReset} ==> ParseAll(conn.Pending()).packets == []
      ensures !(ready.TcpReady? && r.Received?) ==> conn.Pending() == old(conn.Pending())
      ensures ready.UdpReady? ==> !(r.ConnectionClose? || r.ConnectionReset?)
      ensures if ready.InboxReady? && r.Received? then old(fromServer) == [r.packet] + fromServer
              else fromServer == old(fromServer)
      ensures ready.InboxReady? ==> (r.ConnectionClose? <==> old(fromServer) == [] && senderGone)
                                    && !r.ConnectionReset? && !r.ParserPanic?
      ensures UdpRead(udpConn.sendAddr, true, old(udpConn.Input()), udpConn.Input(),
                      if ready.UdpReady? then PacketIn(r) else [])
    {
      hide ParseAll, Decode, Check, ParseOne, UdpRead, UntilChecked, DatagramsRead;
      ghost var before := udpConn.Input();
      NothingRead(udpConn.sendAddr, before);
      match ready {
        case TcpReady =>
          ParseAllStep(conn.Pending());
          r := conn.ReadPacket();
        case UdpReady =>
          r := udpConn.ReadPacket();
          PacketRead(udpConn.sendAddr, before, udpConn.Input(), r);
        case InboxReady =>
          if fromServer != [] {
            r := Received(fromServer[0]);
            fromServer := fromServer[1..];
          } else {
            r := if senderGone then ConnectionClose else Received.Waiting;
          }
      }
    }

    /** Handles one event. */
    method HandleEvent(e: SessionEvent) returns (ghost overTcp: seq<Packet>, ghost overUdp: seq<Packet>)
      requires Valid() && (ByUdp(e.packet) ==> e.wrote)
      modifies this`alive, this`toCoord, data, conn`written, udpConn`sent, udpConn`sendAddr
      ensures Valid() && conn.Pending() == old(conn.Pending()) && udpConn.Input() == old(udpConn.Input())
      ensures !AnnouncesPort(e) ==> udpConn.sendAddr == old(udpConn.sendAddr)
      ensures alive == (old(alive) && !Ends(guid, e))
      ensures data.Value() == if External(e) then OnPacket(old(data.Value()), e.packet) else old(data.Value())
      ensures toCoord == old(toCoord) + CommandOf(sid, e)
      ensures overTcp + overUdp == WrittenFor(guid, e) && (overUdp != [] ==> Proxy.IsMovement(e.packet))
      ensures conn.written == old(conn.written) + EncodeAll(overTcp)
      ensures Proxy.Payloads(udpConn.sent) == Proxy.Payloads(old(udpConn.sent)) + EncodeAll(overUdp)
    {
      hide OnPacket, ClientData.Value, Encode;
      overTcp, overUdp := [], [];
      if e.ready.InboxReady? {
        overTcp, overUdp := HandleCommand(e.packet, e.wrote);
      } else {
        HandlePacket(e.packet, e.taken);
      }
    }

    /** What the account of the session is about, as it is now. */
    ghost function Now(): Tally
      reads this, data, conn, udpConn
    {
      Tally(data.Value(), toCoord, fromServer, ParseAll(conn.Pending()).packets, conn.written,
            Proxy.Payloads(udpConn.sent), udpConn.Input(), udpConn.sendAddr)
    }

    /** One turn of the loop, with the event it handled, if there was one. */
    method HandleNext(ready: Ready, up: bool, works: bool)
      returns (end: Received, ghost es: seq<SessionEvent>, ghost overTcp: seq<Packet>, ghost overUdp: seq<Packet>)
      requires Valid() && alive
      modifies this, data, conn, udpConn
      ensures Valid()
      ensures |es| <= 1 && (es != [] <==> end.Received?)
      ensures forall e <- es :: e.ready == ready && e.packet == end.packet && e.taken == up && (works ==> e.wrote)
      ensures alive == !(end.ConnectionClose? || end.ConnectionReset? || (es != [] && Ends(guid, es[0])))
      ensures TurnTallied(guid, sid, es, overTcp, overUdp, old(Now()), Now())
    {
      hide OnPacket, ParseAll, UdpRead, ClientData.Value, EncodeAll, Proxy.Payloads, Writes, Forwards;
      es, overTcp, overUdp := [], [], [];
      ghost var before := Now();
      end := ReadEvent(ready);
      NothingWritten(before.tcp, before.udp);
      if end.Received? {
        var e := SessionEvent(ready, end.packet, up, works || ByUdp(end.packet));
        overTcp, overUdp := HandleEvent(e);
        es := [e];
      } else if end.ConnectionClose? || end.ConnectionReset? {
        alive := false;
      }
    }

    /** `handle_events`.  `schedule` says which input is ready in each turn; an input that has nothing to give is
        passed over, and so is a frame that cannot be decoded.  The coordinator takes commands for `upFor` turns, and
        in the turns `broken` a write to the TCP socket fails; the session goes on after either.  After a panic nothing
        goes on, as the program ends.  The events handled are returned as `trace`, what was written to the game as
        `overTcp` and `overUdp`, and whether the coordinator was told of the end as `told`. */
    method HandleEvents(schedule: seq<Ready>, upFor: nat, broken: set<nat>)
      returns (end: Received, told: bool, ghost trace: seq<SessionEvent>, ghost overTcp: seq<Packet>,
               ghost overUdp: seq<Packet>)
      requires Valid() && alive
      modifies this, data, conn, udpConn
      ensures Valid()
      ensures EndsLast(guid, trace, alive)
      ensures Told(trace, old(data.Value()), data.Value())
      ensures toCoord == old(toCoord) + CommandsAfter(sid, trace)
                         + if told then [Command.DisconnectPlayer(guid)] else []
      ensures told ==> !alive
      ensures upFor > |schedule| ==> told == !alive && AllTaken(trace)
      ensures broken == {} ==> AllWrote(trace)
      ensures end.ParserPanic? ==> alive
      ensures old(fromServer) == InboxAfter(trace) + fromServer
      ensures ParseAll(old(conn.Pending())).packets == TcpAfter(trace) + ParseAll(conn.Pending()).packets
      ensures UdpRead(old(udpConn.sendAddr), OnePeer(trace), old(udpConn.Input()), udpConn.Input(), UdpAfter(trace))
      ensures Routed(WrittenAfter(guid, trace), overTcp, overUdp)
      ensures conn.written == old(conn.written) + EncodeAll(overTcp)
      ensures Proxy.Payloads(udpConn.sent) == Proxy.Payloads(old(udpConn.sent)) + EncodeAll(overUdp)
    {
      hide Told, CommandsAfter, InboxAfter, TcpAfter, UdpAfter, WrittenAfter, UdpRead, OnePeer, Routed, EncodeAll,
        Proxy.Payloads, Ends, Tallied, TurnTallied, ClientData.Value, ParseAll;
      trace, overTcp, overUdp, end := [], [], [], Received.Waiting;
      ghost var t := Now();
      TallyStarts(guid, sid, t);
      var turns := 0;
      while turns < |schedule| && alive && !end.ParserPanic?
        invariant Valid() && turns <= |schedule|
        invariant EndsLast(guid, trace, alive)
        invariant upFor > |schedule| ==> AllTaken(trace)
        invariant broken == {} ==> AllWrote(trace)
        invariant end.ParserPanic? ==> alive
        invariant Tallied(guid, sid, trace, overTcp, overUdp, t, Now())
      {
        ghost var before, es, tcp, udp := Now(), [], [], [];
        end, es, tcp, udp := HandleNext(schedule[turns], turns < upFor, turns !in broken);
        TallyGrows(guid, sid, trace, overTcp, overUdp, t, before, Now(), es, tcp, udp);
        TraceEnds(guid, trace, es, alive);
        trace, overTcp, overUdp := trace + es, overTcp + tcp, overUdp + udp;
        turns := turns + 1;
      }
      TallyIs(guid, sid, trace, overTcp, overUdp, t, Now());
      told := !alive && turns < upFor;
      if !alive {
        Disconnect(turns < upFor);
      }
    }
  }

  // ---- the account of a session ----

  function CommandOf(sid: Sid, e: SessionEvent): seq<Command<ClientData>> {
    if External(e) && Forwards(e.packet) && e.taken then [PacketCommand(sid, e.packet)] else []
  }

  function WrittenFor(guid: Guid, e: SessionEvent): seq<Packet> {
    if !External(e) && Writes(guid, e.packet) && e.wrote then [e.packet] else []
  }

  predicate Told(trace: seq<SessionEvent>, before: Profile, now: Profile) {
    now == DataAfter(before, trace)
  }

  /** What a session has to show for itself: its data, the commands it sent, what is left of its inbox and of its
      stream, and the bytes it wrote over its two connections. */
  datatype Tally = Tally(data: Profile, commands: seq<Command<ClientData>>, inbox: seq<Packet>, stream: seq<Packet>,
                         tcp: seq<byte>, udp: seq<byte>, udpInput: UdpInput, peer: SenderStatus)

  ghost predicate Tallied(guid: Guid, sid: Sid, trace: seq<SessionEvent>, overTcp: seq<Packet>, overUdp: seq<Packet>,
                          before: Tally, now: Tally) {
    && Told(trace, before.data, now.data)
    && now.commands == before.commands + CommandsAfter(sid, trace)
    && before.inbox == InboxAfter(trace) + now.inbox
    && before.stream == TcpAfter(trace) + now.stream
    && UdpRead(before.peer, OnePeer(trace), before.udpInput, now.udpInput, UdpAfter(trace))
    && (OnePeer(trace) ==> now.peer == before.peer)
    && Routed(WrittenAfter(guid, trace), overTcp, overUdp)
    && now.tcp == before.tcp + EncodeAll(overTcp)
    && now.udp == before.udp + EncodeAll(overUdp)
  }

  /** What one turn adds to the account. */
  ghost predicate TurnTallied(guid: Guid, sid: Sid, es: seq<SessionEvent>, tcp: seq<Packet>, udp: seq<Packet>, before: Tally,
                          now: Tally)
    requires |es| <= 1
  {
    && now.tcp == before.tcp + EncodeAll(tcp)
    && now.udp == before.udp + EncodeAll(udp)
    && (forall e <- es ::
          && now.data == (if External(e) then OnPacket(before.data, e.packet) else before.data)
          && now.commands == before.commands + CommandOf(sid, e)
          && before.inbox == (if e.ready.InboxReady? then [e.packet] else []) + now.inbox
          && before.stream == (if e.ready.TcpReady? then [e.packet] else []) + now.stream
          && UdpRead(before.peer, true, before.udpInput, now.udpInput, if e.ready.UdpReady? then [e.packet] else [])
          && (now.peer == before.peer || AnnouncesPort(e))
          && tcp + udp == WrittenFor(guid, e) && (udp != [] ==> Proxy.IsMovement(e.packet)))
    && (es == [] ==>
          && now == before.(udpInput := now.udpInput)
          && UdpRead(before.peer, true, before.udpInput, now.udpInput, [])
          && tcp == [] && udp == [])
  }

  lemma TallyStarts(guid: Guid, sid: Sid, t: Tally)
    ensures Tallied(guid, sid, [], [], [], t, t)
  {
    hide UdpRead;
    assert EncodeAll([]) == [];
    NothingRead(t.peer, t.udpInput);
    assert [] + t.inbox == t.inbox && [] + t.stream == t.stream;
  }

  lemma TallyIs(guid: Guid, sid: Sid, trace: seq<SessionEvent>, overTcp: seq<Packet>, overUdp: seq<Packet>,
                before: Tally,
                now: Tally)
    requires Tallied(guid, sid, trace, overTcp, overUdp, before, now)
    ensures Told(trace, before.data, now.data)
    ensures now.commands == before.commands + CommandsAfter(sid, trace)
    ensures before.inbox == InboxAfter(trace) + now.inbox
    ensures before.stream == TcpAfter(trace) + now.stream
    ensures UdpRead(before.peer, OnePeer(trace), before.udpInput, now.udpInput, UdpAfter(trace))
    ensures Routed(WrittenAfter(guid, trace), overTcp, overUdp)
    ensures now.tcp == before.tcp + EncodeAll(overTcp)
    ensures now.udp == before.udp + EncodeAll(overUdp)
  {
    hide EncodeAll, Routed, UdpRead, OnePeer;
  }

  lemma TallyGrows(guid: Guid, sid: Sid, trace: seq<SessionEvent>, overTcp: seq<Packet>, overUdp: seq<Packet>, t: Tally,
                   before: Tally, now: Tally, es: seq<SessionEvent>, tcp: seq<Packet>, udp: seq<Packet>)
    requires Tallied(guid, sid, trace, overTcp, overUdp, t, before)
    requires |es| <= 1 && TurnTallied(guid, sid, es, tcp, udp, before, now)
    ensures Tallied(guid, sid, trace + es, overTcp + tcp, overUdp + udp, t, now)
  {
    hide *;
    if es == [] {
      TallyStays(guid, sid, trace, overTcp, overUdp, t, before, now, tcp, udp);
      Assoc(trace, [], []);
    } else {
      assert es == [es[0]];
      TallyGrowsByOne(guid, sid, trace, overTcp, overUdp, t, before, now, es[0], tcp, udp);
    }
  }

  lemma TallyStays(guid: Guid, sid: Sid, trace: seq<SessionEvent>, overTcp: seq<Packet>, overUdp: seq<Packet>, t: Tally,
                   before: Tally, now: Tally, tcp: seq<Packet>, udp: seq<Packet>)
    requires Tallied(guid, sid, trace, overTcp, overUdp, t, before)
    requires TurnTallied(guid, sid, [], tcp, udp, before, now)
    ensures Tallied(guid, sid, trace + [], overTcp + tcp, overUdp + udp, t, now)
  {
    hide EncodeAll, Routed, UdpRead, OnePeer;
    assert trace + [] == trace && overTcp + [] == overTcp && overUdp + [] == overUdp;
    assert UdpAfter(trace) + [] == UdpAfter(trace);
    UdpReadGoesOn(t.peer, before.peer, OnePeer(trace), t.udpInput, before.udpInput, now.udpInput, UdpAfter(trace), []);
  }

  lemma TallyGrowsByOne(guid: Guid, sid: Sid, trace: seq<SessionEvent>, overTcp: seq<Packet>, overUdp: seq<Packet>,
                        t: Tally,
                        before: Tally, now: Tally, e: SessionEvent, tcp: seq<Packet>, udp: seq<Packet>)
    requires Tallied(guid, sid, trace, overTcp, overUdp, t, before)
    requires TurnTallied(guid, sid, [e], tcp, udp, before, now)
    ensures Tallied(guid, sid, trace + [e], overTcp + tcp, overUdp + udp, t, now)
  {
    hide EncodeAll, OnPacket, Forwards, Writes, Routed, External, DataAfter, CommandsAfter, CommandOf, WrittenAfter,
      WrittenFor, InboxAfter, TcpAfter, UdpAfter, UdpRead, OnePeer, AnnouncesPort, Proxy.IsMovement;
    assert e in [e];
    TraceGrows(guid, sid, t.data, trace, e);
    EncodeAllAppend(overTcp, tcp);
    EncodeAllAppend(overUdp, udp);
    Assoc(t.tcp, EncodeAll(overTcp), EncodeAll(tcp));
    Assoc(t.udp, EncodeAll(overUdp), EncodeAll(udp));
    Assoc(t.commands, CommandsAfter(sid, trace), CommandOf(sid, e));
    Assoc(InboxAfter(trace), if e.ready.InboxReady? then [e.packet] else [], now.inbox);
    Assoc(TcpAfter(trace), if e.ready.TcpReady? then [e.packet] else [], now.stream);
    UdpReadGoesOn(t.peer, before.peer, OnePeer(trace), t.udpInput, before.udpInput, now.udpInput, UdpAfter(trace),
                  if e.ready.UdpReady? then [e.packet] else []);
    UdpGrows(trace, e, t.peer, t.udpInput, now.udpInput);
    OneWritten(guid, e);
    RoutedGrows(WrittenAfter(guid, trace), overTcp, overUdp, WrittenFor(guid, e), tcp, udp);
  }

  lemma NothingWritten(tcp: seq<byte>, udp: seq<byte>)
    ensures tcp + EncodeAll([]) == tcp && udp + EncodeAll([]) == udp
  {
  }

  /** Only the last event of a session can be the one that ended it. */
  predicate EndsLast(guid: Guid, trace: seq<SessionEvent>, alive: bool) {
    forall i :: 0 <= i < |trace| && Ends(guid, trace[i]) ==> i == |trace| - 1 && !alive
  }

  predicate AllTaken(trace: seq<SessionEvent>) {
    forall e <- trace :: e.taken
  }

  predicate AllWrote(trace: seq<SessionEvent>) {
    forall e <- trace :: e.wrote
  }

  lemma TraceEnds(guid: Guid, trace: seq<SessionEvent>, es: seq<SessionEvent>, alive: bool)
    requires |es| <= 1 && EndsLast(guid, trace, true)
    requires es != [] && Ends(guid, es[0]) ==> !alive
    ensures EndsLast(guid, trace + es, alive)
    ensures AllTaken(trace) && AllTaken(es) ==> AllTaken(trace + es)
    ensures AllWrote(trace) && AllWrote(es) ==> AllWrote(trace + es)
  {
    hide Ends;
  }

  lemma UdpGrows(trace: seq<SessionEvent>, e: SessionEvent, peer: SenderStatus, before: UdpInput, now: UdpInput)
    requires UdpRead(peer, OnePeer(trace), before, now, UdpAfter(trace) + if e.ready.UdpReady? then [e.packet] else [])
    ensures UdpRead(peer, OnePeer(trace + [e]), before, now, UdpAfter(trace + [e]))
    ensures OnePeer(trace + [e]) ==> OnePeer(trace) && !AnnouncesPort(e)
  {
    hide Parsing, DatagramsRead, AnnouncesPort;
    Proxy.Snoc(trace, e);
    if OnePeer(trace + [e]) {
      assert forall i :: 0 <= i < |trace| ==> trace[i] == (trace + [e])[i];
      assert (trace + [e])[|trace|] == e;
    }
  }

  lemma Assoc<T>(a: seq<T>, b: seq<T>, c: seq<T>)
    ensures a + (b + c) == a + b + c && [] + c == c
  {
  }

  lemma OneWritten(guid: Guid, e: SessionEvent)
    ensures |WrittenFor(guid, e)| <= 1 && (WrittenFor(guid, e) != [] ==> WrittenFor(guid, e)[0] == e.packet)
  {
  }

  lemma TraceGrows(guid: Guid, sid: Sid, d: Profile, trace: seq<SessionEvent>, e: SessionEvent)
    ensures var trace' := trace + [e];
            && DataAfter(d, trace') == (if External(e) then OnPacket(DataAfter(d, trace), e.packet) else DataAfter(d, trace))
            && CommandsAfter(sid, trace') == CommandsAfter(sid, trace) + CommandOf(sid, e)
            && WrittenAfter(guid, trace') == WrittenAfter(guid, trace) + WrittenFor(guid, e)
            && InboxAfter(trace') == InboxAfter(trace) + (if e.ready.InboxReady? then [e.packet] else [])
            && TcpAfter(trace') == TcpAfter(trace) + (if e.ready.TcpReady? then [e.packet] else [])
  {
    hide OnPacket, Forwards, Writes;
    Proxy.Snoc(trace, e);
  }
}
