/** The proxy: a relay between a game client and a server that carries position updates of one side over UDP. */
module Proxy {
  import opened Utf8
  import opened Wire
  import opened Packets
  import opened CodecTheorems
  import opened Framing
  import opened Connections

  datatype Origin = Client | Server {
    function Not(): Origin {
      if this == Client then Server else Client
    }
  }

  /** The three inputs the relay loop waits on. */
  datatype Source = FromUdp | FromTcp(side: Origin)

  /** A packet that one of the inputs produced. */
  datatype Event = Event(source: Source, packet: Packet)

  /** Datagrams count as coming from the side that is multiplexed over UDP. */
  function OriginOf(s: Source, plex: Origin): Origin {
    if s.FromUdp? then plex else s.side
  }

  predicate IsMovement(p: Packet) {
    p.data.Player? || p.data.Cap?
  }

  /** The notice the server gets whenever a side announces its UDP port. */
  function PortNotice(port: u16): Packet {
    NewPacket(DEFAULT_GUID, UdpInit(port))
  }

  predicate OverUdp(e: Event, plex: Origin) {
    OriginOf(e.source, plex) != plex && IsMovement(e.packet)
  }

  /** What one event makes the loop write on the TCP connection of `side`. */
  function TcpWrites(side: Origin, e: Event, plex: Origin, port: u16): seq<Packet> {
    if e.packet.data.UdpInit? then
      if side == Server then [PortNotice(port)] else []
    else if OverUdp(e, plex) || OriginOf(e.source, plex) == side then []
    else [Resize(e.packet)]
  }

  function UdpWrites(e: Event, plex: Origin): seq<Packet> {
    if !e.packet.data.UdpInit? && OverUdp(e, plex) then [Resize(e.packet)] else []
  }

  function TcpOut(side: Origin, trace: seq<Event>, plex: Origin, port: u16): seq<Packet> {
    if trace == [] then []
    else
      var n := |trace| - 1;
      TcpOut(side, trace[..n], plex, port) + TcpWrites(side, trace[n], plex, port)
  }

  function UdpOut(trace: seq<Event>, plex: Origin): seq<Packet> {
    if trace == [] then []
    else
      var n := |trace| - 1;
      UdpOut(trace[..n], plex) + UdpWrites(trace[n], plex)
  }

  /** The packets read from one input, in order. */
  function ReadFrom(trace: seq<Event>, s: Source): seq<Packet> {
    if trace == [] then []
    else
      var n := |trace| - 1;
      ReadFrom(trace[..n], s) + if trace[n].source == s then [trace[n].packet] else []
  }

  predicate AllReadable(trace: seq<Event>) {
    forall i :: 0 <= i < |trace| ==> Canonical(Resize(trace[i].packet))
  }

  // ---- transparency ----

  function Relayed(ps: seq<Packet>): seq<Packet> {
    if ps == [] then []
    else
      var n := |ps| - 1;
      Relayed(ps[..n]) + if ps[n].data.UdpInit? then [] else [Resize(ps[n])]
  }

  function RelayedOverTcp(ps: seq<Packet>): seq<Packet> {
    if ps == [] then []
    else
      var n := |ps| - 1;
      RelayedOverTcp(ps[..n])
      + if ps[n].data.UdpInit? || ps[n].data.Player? || ps[n].data.Cap? then [] else [Resize(ps[n])]
  }

  function RelayedOverUdp(ps: seq<Packet>): seq<Packet> {
    if ps == [] then []
    else
      var n := |ps| - 1;
      RelayedOverUdp(ps[..n]) + if ps[n].data.Player? || ps[n].data.Cap? then [Resize(ps[n])] else []
  }

  function WithoutPortNotices(ps: seq<Packet>): seq<Packet> {
    if ps == [] then []
    else
      var n := |ps| - 1;
      WithoutPortNotices(ps[..n]) + if ps[n].data.UdpInit? then [] else [ps[n]]
  }

  /** The packets that count as coming from the multiplexed side, over TCP or UDP, in the order they were read. */
  function FromPlex(trace: seq<Event>, plex: Origin): seq<Packet> {
    if trace == [] then []
    else
      var n := |trace| - 1;
      FromPlex(trace[..n], plex)
      + if trace[n].source.FromUdp? || trace[n].source.side == plex then [trace[n].packet] else []
  }

  lemma Snoc<T>(s: seq<T>, x: T)
    ensures |s + [x]| - 1 == |s| && (s + [x])[..|s|] == s && (s + [x])[|s|] == x
  {
  }

  lemma WithoutPortNoticesSnoc(ps: seq<Packet>, qs: seq<Packet>)
    requires |qs| <= 1
    ensures WithoutPortNotices(ps + qs)
         == WithoutPortNotices(ps) + if |qs| == 1 && !qs[0].data.UdpInit? then qs else []
  {
    if |qs| == 1 {
      Snoc(ps, qs[0]);
      assert qs == [qs[0]];
    } else {
      assert ps + qs == ps;
    }
  }

  /** The TCP bytes toward the multiplexed side parse to exactly the packets read from the opposite TCP side,
      resized and in order, but for port notices and the movement packets; what went out by UDP parses to exactly
      those movement packets, resized and in order; and the bytes toward the other side parse to everything read
      from the multiplexed side, over either transport.  This holds for any interleaving of the inputs. */
  lemma {:induction false} Transparent(trace: seq<Event>, plex: Origin, port: u16)
    requires AllReadable(trace)
    ensures var toPlex := ParseAll(EncodeAll(TcpOut(plex, trace, plex, port)));
            && toPlex.leftover == []
            && WithoutPortNotices(toPlex.packets) == RelayedOverTcp(ReadFrom(trace, FromTcp(plex.Not())))
    ensures var toOther := ParseAll(EncodeAll(TcpOut(plex.Not(), trace, plex, port)));
            && toOther.leftover == []
            && WithoutPortNotices(toOther.packets) == Relayed(FromPlex(trace, plex))
    ensures ParseAll(EncodeAll(UdpOut(trace, plex)))
         == Stream(RelayedOverUdp(ReadFrom(trace, FromTcp(plex.Not()))), [])
  {
    WritesCanonical(trace, plex, port);
    WireRoundTrip(UdpOut(trace, plex));
    TowardPlexByUdp(trace, plex);
    WireRoundTrip(TcpOut(plex, trace, plex, port));
    WireRoundTrip(TcpOut(plex.Not(), trace, plex, port));
    TowardPlex(trace, plex, port);
    TowardOther(trace, plex, port);
  }

  lemma {:induction false} WritesCanonical(trace: seq<Event>, plex: Origin, port: u16)
    requires AllReadable(trace)
    ensures AllCanonical(TcpOut(Client, trace, plex, port)) && AllCanonical(TcpOut(Server, trace, plex, port))
    ensures AllCanonical(UdpOut(trace, plex))
  {
    if trace != [] {
      WritesCanonical(trace[..|trace| - 1], plex, port);
    }
  }

  lemma {:induction false} TowardPlex(trace: seq<Event>, plex: Origin, port: u16)
    ensures WithoutPortNotices(TcpOut(plex, trace, plex, port)) == RelayedOverTcp(ReadFrom(trace, FromTcp(plex.Not())))
  {
    hide Resize, WithoutPortNotices, RelayedOverTcp;
    if trace != [] {
      var n := |trace| - 1;
      TowardPlex(trace[..n], plex, port);
      var e, before := trace[n], ReadFrom(trace[..n], FromTcp(plex.Not()));
      ResizeKeeps(e.packet);
      WithoutPortNoticesSnoc(TcpOut(plex, trace[..n], plex, port), TcpWrites(plex, e, plex, port));
      RelayedOverTcpSnoc(before, e.packet);
      assert before + [] == before;
    } else {
      EmptyRelays();
    }
  }

  lemma {:induction false} TowardPlexByUdp(trace: seq<Event>, plex: Origin)
    ensures UdpOut(trace, plex) == RelayedOverUdp(ReadFrom(trace, FromTcp(plex.Not())))
  {
    hide Resize, RelayedOverUdp;
    if trace != [] {
      var n := |trace| - 1;
      TowardPlexByUdp(trace[..n], plex);
      var e, before := trace[n], ReadFrom(trace[..n], FromTcp(plex.Not()));
      RelayedOverUdpSnoc(before, e.packet);
      assert before + [] == before;
    } else {
      EmptyRelays();
    }
  }

  lemma RelayedOverUdpSnoc(ps: seq<Packet>, p: Packet)
    ensures RelayedOverUdp(ps + [p]) == RelayedOverUdp(ps) + if p.data.Player? || p.data.Cap? then [Resize(p)] else []
  {
    Snoc(ps, p);
  }

  lemma RelayedOverTcpSnoc(ps: seq<Packet>, p: Packet)
    ensures RelayedOverTcp(ps + [p])
         == RelayedOverTcp(ps) + if p.data.UdpInit? || p.data.Player? || p.data.Cap? then [] else [Resize(p)]
  {
    Snoc(ps, p);
  }

  lemma EmptyRelays()
    ensures WithoutPortNotices([]) == [] && RelayedOverTcp([]) == [] && RelayedOverUdp([]) == [] && Relayed([]) == []
  {
  }

  lemma {:induction false} TowardOther(trace: seq<Event>, plex: Origin, port: u16)
    ensures WithoutPortNotices(TcpOut(plex.Not(), trace, plex, port)) == Relayed(FromPlex(trace, plex))
  {
    hide Resize, WithoutPortNotices, Relayed;
    if trace != [] {
      var n := |trace| - 1;
      TowardOther(trace[..n], plex, port);
      WithoutPortNoticesSnoc(TcpOut(plex.Not(), trace[..n], plex, port), TcpWrites(plex.Not(), trace[n], plex, port));
      ResizeKeeps(trace[n].packet);
      var before := FromPlex(trace[..n], plex);
      RelayedSnoc(before, trace[n].packet);
      assert before + [] == before;
    } else {
      EmptyRelays();
    }
  }

  lemma RelayedSnoc(ps: seq<Packet>, p: Packet)
    ensures Relayed(ps + [p]) == Relayed(ps) + if p.data.UdpInit? then [] else [Resize(p)]
  {
    Snoc(ps, p);
  }

  function CountNotices(trace: seq<Event>): nat {
    if trace == [] then 0
    else
      var n := |trace| - 1;
      CountNotices(trace[..n]) + if trace[n].packet.data.UdpInit? then 1 else 0
  }

  /** Nothing is lost or written twice: each packet read is written once, on one of the three outputs. */
  lemma {:induction false} WrittenOnce(trace: seq<Event>, plex: Origin, port: u16)
    ensures |TcpOut(Client, trace, plex, port)| + |TcpOut(Server, trace, plex, port)| + |UdpOut(trace, plex)| == |trace|
    ensures |WithoutPortNotices(TcpOut(Server, trace, plex, port))| + CountNotices(trace)
         == |TcpOut(Server, trace, plex, port)|
  {
    hide GetSize;
    if trace != [] {
      var n := |trace| - 1;
      WrittenOnce(trace[..n], plex, port);
      WithoutPortNoticesSnoc(TcpOut(Server, trace[..n], plex, port), TcpWrites(Server, trace[n], plex, port));
    }
  }

  /** The announcements of a UDP port among some packets. */
  function Announcements(ps: seq<Packet>): seq<Packet> {
    if ps == [] then []
    else
      var n := |ps| - 1;
      Announcements(ps[..n]) + if ps[n].data.UdpInit? then [ps[n]] else []
  }

  function PacketsOf(trace: seq<Event>): seq<Packet> {
    seq(|trace|, i requires 0 <= i < |trace| => trace[i].packet)
  }

  /** Whatever port either side announces, the server is told the proxy's own port, once for each announcement and
      under the empty guid; and the game is never told any. */
  lemma ServerLearnsPort(trace: seq<Event>, plex: Origin, port: u16)
    requires AllReadable(trace)
    ensures var told := Announcements(ParseAll(EncodeAll(TcpOut(Server, trace, plex, port))).packets);
            && |told| == |Announcements(PacketsOf(trace))|
            && forall i :: 0 <= i < |told| ==>
                 && told[i].data.UdpInit? && told[i].data.port == port && told[i].dataSize == 2
                 && forall k :: 0 <= k < 16 ==> told[i].id[k] == 0
    ensures Announcements(ParseAll(EncodeAll(TcpOut(Client, trace, plex, port))).packets) == []
    ensures Announcements(UdpOut(trace, plex)) == []
  {
    WritesCanonical(trace, plex, port);
    WireRoundTrip(TcpOut(Server, trace, plex, port));
    WireRoundTrip(TcpOut(Client, trace, plex, port));
    Announced(trace, plex, port);
    NoticeIs(port);
    hide ParseAll, EncodeAll, TcpOut, UdpOut, Announcements, PacketsOf, PortNotice, Canonical, Resize;
  }

  lemma AnnouncementsMore(ps: seq<Packet>, qs: seq<Packet>)
    requires |qs| <= 1
    ensures Announcements(ps + qs) == Announcements(ps) + if |qs| == 1 && qs[0].data.UdpInit? then qs else []
  {
    if |qs| == 1 {
      Snoc(ps, qs[0]);
      assert qs == [qs[0]];
    } else {
      assert ps + qs == ps;
    }
  }

  lemma {:induction false} Announced(trace: seq<Event>, plex: Origin, port: u16)
    ensures var told := Announcements(TcpOut(Server, trace, plex, port));
            && |told| == |Announcements(PacketsOf(trace))|
            && forall i :: 0 <= i < |told| ==> told[i] == PortNotice(port)
    ensures Announcements(TcpOut(Client, trace, plex, port)) == [] && Announcements(UdpOut(trace, plex)) == []
  {
    hide Resize, PortNotice, Announcements;
    if trace != [] {
      var n := |trace| - 1;
      var e := trace[n];
      Announced(trace[..n], plex, port);
      ResizeKeeps(e.packet);
      assert PortNotice(port).data.UdpInit? by { NoticeIs(port); }
      AnnouncementsMore(TcpOut(Server, trace[..n], plex, port), TcpWrites(Server, e, plex, port));
      AnnouncementsMore(TcpOut(Client, trace[..n], plex, port), TcpWrites(Client, e, plex, port));
      AnnouncementsMore(UdpOut(trace[..n], plex), UdpWrites(e, plex));
      assert PacketsOf(trace) == PacketsOf(trace[..n]) + [e.packet];
      AnnouncementsMore(PacketsOf(trace[..n]), [e.packet]);
    } else {
      assert PacketsOf(trace) == [];
      NoAnnouncements();
    }
  }

  lemma NoAnnouncements()
    ensures Announcements([]) == []
  {
  }

  lemma NoticeIs(port: u16)
    ensures var p := PortNotice(port);
            p.data.UdpInit? && p.data.port == port && p.dataSize == 2 && forall k :: 0 <= k < 16 ==> p.id[k] == 0
  {
  }

  // ---- the relay loop ----

  function Payloads(ds: seq<Datagram>): seq<byte> {
    if ds == [] then []
    else
      var n := |ds| - 1;
      Payloads(ds[..n]) + ds[n].payload
  }

  /** What one event writes: one packet on one output. */
  method Relay(e: Event, cli: Connection, serv: Connection, udp: UdpConnection, plex: Origin, port: u16)
    requires cli != serv && udp.IsClientUdp()
    modifies cli`written, serv`written, udp`sent, udp`sendAddr
    ensures udp.IsClientUdp() && IpOf(udp.sendAddr) == old(IpOf(udp.sendAddr))
    ensures !e.packet.data.UdpInit? ==> udp.sendAddr == old(udp.sendAddr)
    ensures cli.written == old(cli.written) + EncodeAll(TcpWrites(Client, e, plex, port))
    ensures serv.written == old(serv.written) + EncodeAll(TcpWrites(Server, e, plex, port))
    ensures Payloads(udp.sent) == Payloads(old(udp.sent)) + EncodeAll(UdpWrites(e, plex))
  {
    var packet := Resize(e.packet);
    SingleWrites(packet);
    SingleWrites(PortNotice(port));
    if packet.data.UdpInit? {
      udp.SetClientPort(packet.data.port);
      serv.WritePacket(PortNotice(port));
      return;
    }
    var origin := OriginOf(e.source, plex);
    if origin != plex && (packet.data.Player? || packet.data.Cap?) {
      var ok := udp.WritePacket(packet);
      Snoc(old(udp.sent), Datagram(udp.sendAddr.addr, Encode(packet)));
      return;
    }
    if origin == Client {
      serv.WritePacket(packet);
    } else {
      cli.WritePacket(packet);
    }
  }

  lemma SingleWrites(p: Packet)
    ensures EncodeAll([p]) == Encode(p)
  {
    assert EncodeAll([p]) == Encode(p) + EncodeAll([]);
  }

  /** One TCP side of the account: the packets read so far followed by those still to come are the stream it
      started with, and what was written is what the events call for. */
  ghost predicate TcpAccount(side: Origin, trace: seq<Event>, before: seq<byte>, now: seq<byte>,
                             wrote: seq<byte>, written: seq<byte>, plex: Origin, port: u16) {
    && ParseAll(before).packets == ReadFrom(trace, FromTcp(side)) + ParseAll(now).packets
    && written == wrote + EncodeAll(TcpOut(side, trace, plex, port))
  }

  ghost predicate UdpAccount(trace: seq<Event>, sent: seq<Datagram>, now: seq<Datagram>, plex: Origin) {
    Payloads(now) == Payloads(sent) + EncodeAll(UdpOut(trace, plex))
  }

  lemma TcpAccountStarts(side: Origin, stream: seq<byte>, written: seq<byte>, plex: Origin, port: u16)
    ensures TcpAccount(side, [], stream, stream, written, written, plex, port)
  {
    hide ParseAll;
    assert [] + ParseAll(stream).packets == ParseAll(stream).packets;
    assert written + EncodeAll([]) == written;
  }

  lemma UdpAccountStarts(sent: seq<Datagram>, plex: Origin)
    ensures UdpAccount([], sent, sent, plex)
  {
    assert Payloads(sent) + EncodeAll([]) == Payloads(sent);
  }

  lemma TcpAccountGrows(side: Origin, trace: seq<Event>, e: Event, before: seq<byte>, mid: seq<byte>, now: seq<byte>,
                        wrote: seq<byte>, soFar: seq<byte>, written: seq<byte>, plex: Origin, port: u16)
    requires TcpAccount(side, trace, before, mid, wrote, soFar, plex, port)
    requires ParseAll(mid).packets == (if e.source == FromTcp(side) then [e.packet] else []) + ParseAll(now).packets
    requires written == soFar + EncodeAll(TcpWrites(side, e, plex, port))
    ensures TcpAccount(side, trace + [e], before, now, wrote, written, plex, port)
  {
    hide ParseAll, EncodeAll, TcpWrites;
    Snoc(trace, e);
    EncodeAllAppend(TcpOut(side, trace, plex, port), TcpWrites(side, e, plex, port));
    var read, now' := ReadFrom(trace, FromTcp(side)), ParseAll(now).packets;
    assert read + ([e.packet] + now') == read + [e.packet] + now';
    assert read + ([] + now') == read + [] + now';
  }

  lemma TcpAccountStays(side: Origin, trace: seq<Event>, before: seq<byte>, mid: seq<byte>, now: seq<byte>,
                        wrote: seq<byte>, written: seq<byte>, plex: Origin, port: u16)
    requires TcpAccount(side, trace, before, mid, wrote, written, plex, port)
    requires ParseAll(mid).packets == [] + ParseAll(now).packets
    ensures TcpAccount(side, trace, before, now, wrote, written, plex, port)
  {
    hide ParseAll, TcpOut;
    assert [] + ParseAll(now).packets == ParseAll(now).packets;
  }

  lemma UdpAccountGrows(trace: seq<Event>, e: Event, sent: seq<Datagram>, soFar: seq<Datagram>, now: seq<Datagram>,
                        plex: Origin)
    requires UdpAccount(trace, sent, soFar, plex)
    requires Payloads(now) == Payloads(soFar) + EncodeAll(UdpWrites(e, plex))
    ensures UdpAccount(trace + [e], sent, now, plex)
  {
    hide EncodeAll, UdpWrites;
    Snoc(trace, e);
    EncodeAllAppend(UdpOut(trace, plex), UdpWrites(e, plex));
  }

  lemma UdpInputGrows(trace: seq<Event>, e: Event, peer: SenderStatus, before: UdpInput, now: UdpInput)
    requires UdpRead(peer, CountNotices(trace) == 0, before, now,
                     ReadFrom(trace, FromUdp) + if e.source == FromUdp then [e.packet] else [])
    ensures UdpRead(peer, CountNotices(trace + [e]) == 0, before, now, ReadFrom(trace + [e], FromUdp))
  {
    hide Parsing, DatagramsRead;
    Snoc(trace, e);
  }

  /** `proxy_client`.  `schedule` says which input is ready first in each round; an input that has nothing to give
      is passed over.  The loop ends on the first error.  The events read are returned as `trace`:
      those from either TCP side are the packets of its stream, and those from UDP the packets of what the datagrams
      have added to the buffer. */
  method ProxyClient(cli: Connection, serv: Connection, udp: UdpConnection, plex: Origin, port: u16,
                     schedule: seq<Source>)
    returns (end: Received, ghost trace: seq<Event>)
    requires cli != serv && cli.Valid() && serv.Valid() && udp.IsClientUdp()
    modifies cli, serv, udp
    ensures AllReadable(trace)
    ensures TcpAccount(Client, trace, old(cli.Pending()), cli.Pending(), old(cli.written), cli.written, plex, port)
    ensures TcpAccount(Server, trace, old(serv.Pending()), serv.Pending(), old(serv.written), serv.written, plex, port)
    ensures UdpAccount(trace, old(udp.sent), udp.sent, plex)
    ensures UdpRead(old(udp.sendAddr), CountNotices(trace) == 0, old(udp.Input()), udp.Input(), ReadFrom(trace, FromUdp))
    ensures IpOf(udp.sendAddr) == old(IpOf(udp.sendAddr))
  {
    hide ParseAll, TcpOut, UdpOut, Encode, EncodeAll, UdpRead, TcpAccount, UdpAccount;
    trace := [];
    end := Waiting;
    TcpAccountStarts(Client, cli.Pending(), cli.written, plex, port);
    TcpAccountStarts(Server, serv.Pending(), serv.written, plex, port);
    UdpAccountStarts(udp.sent, plex);
    NothingRead(udp.sendAddr, udp.Input());
    for round := 0 to |schedule|
      invariant cli.Valid() && serv.Valid() && udp.IsClientUdp() && IpOf(udp.sendAddr) == old(IpOf(udp.sendAddr))
      invariant AllReadable(trace)
      invariant TcpAccount(Client, trace, old(cli.Pending()), cli.Pending(), old(cli.written), cli.written, plex, port)
      invariant TcpAccount(Server, trace, old(serv.Pending()), serv.Pending(), old(serv.written), serv.written, plex, port)
      invariant UdpAccount(trace, old(udp.sent), udp.sent, plex)
      invariant CountNotices(trace) == 0 ==> udp.sendAddr == old(udp.sendAddr)
      invariant UdpRead(old(udp.sendAddr), CountNotices(trace) == 0, old(udp.Input()), udp.Input(),
                        ReadFrom(trace, FromUdp))
    {
      var source := schedule[round];
      ghost var c, s, cOut, sOut, sent := cli.Pending(), serv.Pending(), cli.written, serv.written, udp.sent;
      ghost var mid := udp.Input();
      end := ReadFromSource(source, cli, serv, udp);
      UdpReadGoesOn(old(udp.sendAddr), udp.sendAddr, CountNotices(trace) == 0, old(udp.Input()), mid, udp.Input(),
                    ReadFrom(trace, FromUdp), if source == FromUdp then PacketIn(end) else []);
      assert ReadFrom(trace, FromUdp) + [] == ReadFrom(trace, FromUdp);
      if end.Received? {
        var e := Event(source, end.packet);
        Relay(e, cli, serv, udp, plex, port);
        TcpAccountGrows(Client, trace, e, old(cli.Pending()), c, cli.Pending(), old(cli.written), cOut, cli.written,
                        plex, port);
        TcpAccountGrows(Server, trace, e, old(serv.Pending()), s, serv.Pending(), old(serv.written), sOut,
                        serv.written, plex, port);
        UdpAccountGrows(trace, e, old(udp.sent), sent, udp.sent, plex);
        UdpInputGrows(trace, e, old(udp.sendAddr), old(udp.Input()), udp.Input());
        trace := trace + [e];
      } else {
        TcpAccountStays(Client, trace, old(cli.Pending()), c, cli.Pending(), old(cli.written), cOut, plex, port);
        TcpAccountStays(Server, trace, old(serv.Pending()), s, serv.Pending(), old(serv.written), sOut, plex, port);
        if !end.Waiting? {
          return;
        }
      }
    }
  }

  /** One round's read: the stream it reads from loses the packet that is returned, the others stay. */
  method ReadFromSource(source: Source, cli: Connection, serv: Connection, udp: UdpConnection) returns (r: Received)
    requires cli != serv && cli.Valid() && serv.Valid() && udp.IsClientUdp()
    modifies cli`buff, cli`incoming, serv`buff, serv`incoming, udp`buff, udp`incoming, udp`accepted
    ensures cli.Valid() && serv.Valid()
    ensures r.Received? ==> Canonical(Resize(r.packet))
    ensures ParseAll(old(cli.Pending())).packets
         == (if r.Received? && source == FromTcp(Client) then [r.packet] else []) + ParseAll(cli.Pending()).packets
    ensures ParseAll(old(serv.Pending())).packets
         == (if r.Received? && source == FromTcp(Server) then [r.packet] else []) + ParseAll(serv.Pending()).packets
    ensures UdpRead(udp.sendAddr, true, old(udp.Input()), udp.Input(), if source == FromUdp then PacketIn(r) else [])
  {
    hide Decode, Check, ParseAll, ParseOne, UdpRead;
    ghost var c, s := cli.Pending(), serv.Pending();
    match source {
      case FromUdp =>
        FrameCanonical(udp.Pending());
        ghost var before := udp.Input();
        r := udp.ReadPacket();
        PacketRead(udp.sendAddr, before, udp.Input(), r);
      case FromTcp(side) =>
        NothingRead(udp.sendAddr, udp.Input());
        if side == Client {
          FrameCanonical(c);
          ParseAllStep(c);
          r := cli.ReadPacket();
        } else {
          FrameCanonical(s);
          ParseAllStep(s);
          r := serv.ReadPacket();
        }
    }
  }

  lemma FrameCanonical(b: seq<byte>)
    ensures ParseOne(b).Frame? ==> Canonical(Resize(ParseOne(b).packet))
  {
    if ParseOne(b).Frame? {
      DecodingNormalises(b);
    }
  }
}
