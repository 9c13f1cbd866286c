/** The TCP and UDP connections: incremental parsing over a buffer that grows with every read.

    The peer's bytes are given as the sequence of reads in which they will arrive.  Writes are whole. */
module Connections {
  import opened Utf8
  import opened Wire
  import opened Packets
  import opened CodecTheorems
  import opened Codec
  import opened Framing

  /** How waiting for a packet ends. */
  datatype Received =
    | Received(packet: Packet)
    | ConnectionClose
    | ConnectionReset
    | BadEncoding(error: DecodeError)
    | ParserPanic
    | Waiting  // no datagram to read, or no peer yet

  /** One attempt to take a packet off the front of a buffer, shared by both kinds of connection. */
  method TryParse(buff: seq<byte>) returns (r: Parsed)
    ensures r == ParseOne(buff)
  {
    var cursor := new Cursor(buff);
    var checked := cursor.CheckFrame();
    if checked.Err? {
      return More;
    }
    var len := cursor.pos;
    assert Check(buff) == Option.Some(len);
    cursor.SetPosition(0);
    assert cursor.Rest() == buff;
    var decoded := cursor.DecodePacket();
    match decoded {
      case Ok(packet) => return Frame(packet, buff[len..]);
      case Err(e) => return Failed(e);
      case Panic => return Crashed;
    }
  }

  /** What a failed attempt means for the caller. */
  function Failure(p: Parsed): Received
    requires p.Failed? || p.Crashed?
  {
    if p.Failed? then BadEncoding(p.error) else ParserPanic
  }

  /** The buffer when a whole frame is first in it, or when the reads have run out. */
  function UntilChecked(buff: seq<byte>, chunks: seq<seq<byte>>): seq<byte>
    decreases |chunks|
  {
    if Check(buff).Some? || chunks == [] then buff else UntilChecked(buff + chunks[0], chunks[1..])
  }

  class Connection {
    var buff: seq<byte>
    var incoming: seq<seq<byte>>
    var written: seq<byte>

    /** A read of zero bytes means the peer has closed, so every read that arrives has a byte. */
    ghost predicate Valid()
      reads this
    {
      forall i :: 0 <= i < |incoming| ==> incoming[i] != []
    }

    /** The stream still to be parsed. */
    ghost function Pending(): seq<byte>
      reads this
    {
      buff + Concat(incoming)
    }

    constructor (incoming: seq<seq<byte>>)
      requires forall i :: 0 <= i < |incoming| ==> incoming[i] != []
      ensures Valid() && Pending() == Concat(incoming) && written == []
    {
      buff, this.incoming, written := [], incoming, [];
    }

    /** Removes exactly one whole frame on success, and otherwise leaves the buffer as it was. */
    method ParsePacket() returns (r: Parsed)
      modifies this`buff
      ensures r == ParseOne(old(buff))
      ensures buff == if r.Frame? then r.rest else old(buff)
    {
      r := TryParse(buff);
      if r.Frame? {
        buff := r.rest;
      }
    }

    method ReadSocket() returns (end: Option<Received>)
      requires Valid()
      modifies this`buff, this`incoming
      ensures Valid() && Pending() == old(Pending())
      ensures end.None? ==> old(incoming) != [] && incoming == old(incoming)[1..] && buff == old(buff) + old(incoming)[0]
      ensures end.Some? ==> old(incoming) == [] && buff == old(buff) && incoming == []
      ensures end.Some? ==> end.value == if old(buff) == [] then ConnectionClose else ConnectionReset
    {
      if incoming == [] {
        return Some(if buff == [] then ConnectionClose else ConnectionReset);
      }
      assert buff + incoming[0] + Concat(incoming[1..]) == buff + Concat(incoming);
      buff, incoming := buff + incoming[0], incoming[1..];
      return None;
    }

    /** The next packet, and whether there is one, depends on the bytes of the stream and not on how they are split
        into reads; so does the failure, unless the frame declares less than its fields need.  In every case the
        outcome is that of the buffer in which a whole frame first stood. */
    method ReadPacket() returns (r: Received)
      requires Valid()
      modifies this`buff, this`incoming
      ensures Valid()
      ensures match ParseOne(old(Pending()))
              case Frame(p, rest) => r == Received(p) && Pending() == rest
              case More =>
                && r == (if old(Pending()) == [] then ConnectionClose else ConnectionReset)
                && Pending() == old(Pending()) && incoming == []
              case Failed(_) => (r.BadEncoding? || r.ParserPanic?) && Pending() == old(Pending())
              case Crashed => (r.BadEncoding? || r.ParserPanic?) && Pending() == old(Pending())
      ensures WellSized(old(Pending())) && ParseOne(old(Pending())).Failed? ==> r == BadEncoding(BadUtf8)
      ensures var b := UntilChecked(old(buff), old(incoming));
              match ParseOne(b)
              case Frame(p, rest) => r == Received(p) && buff == rest
              case More => r in {ConnectionClose, ConnectionReset} && buff == b
              case Failed(_) => r == Failure(ParseOne(b)) && buff == b
              case Crashed => r == Failure(ParseOne(b)) && buff == b
    {
      ghost var stream := Pending();
      while true
        invariant Valid() && Pending() == stream
        invariant UntilChecked(buff, incoming) == UntilChecked(old(buff), old(incoming))
        decreases |incoming|
      {
        ghost var before, later := buff, Concat(incoming);
        var parsed := ParsePacket();
        match parsed {
          case Frame(packet, rest) =>
            FrameFollowed(before, later);
            return Received(packet);
          case More =>
          case Failed(_) =>
            FailureStays(before, later);
            return Failure(parsed);
          case Crashed =>
            FailureStays(before, later);
            return Failure(parsed);
        }
        var end := ReadSocket();
        if end.Some? {
          assert stream == before;
          return end.value;
        }
      }
    }

    /** Reading until no packet is left gives the packets of the whole stream. */
    method ReadAll() returns (packets: seq<Packet>, end: Received)
      requires Valid()
      modifies this`buff, this`incoming
      ensures packets == ParseAll(old(Pending())).packets
      ensures Pending() == ParseAll(old(Pending())).leftover
      ensures !end.Received?
    {
      hide ParseOne, ParseAll, UntilChecked;
      packets := [];
      ghost var whole := ParseAll(Pending());
      ghost var left := whole;
      while true
        invariant Valid()
        invariant left == ParseAll(Pending())
        invariant whole == Stream(packets + left.packets, left.leftover)
        decreases |Pending()|
      {
        ParseAllStep(Pending());
        end := ReadPacket();
        if !end.Received? {
          return;
        }
        packets := packets + [end.packet];
        left := ParseAll(Pending());
      }
    }

    method WritePacket(p: Packet)
      modifies this`written
      ensures written == old(written) + Encode(p)
    {
      var out := new Buffer();
      EncodePacket(p, out);
      assert [] + Encode(p) == Encode(p);
      written := written + out.data;
    }
  }

  /** Whether a frame that declares too little is an error or a panic does depend on the reads: an empty capture
      panics alone in the buffer, and is bad UTF-8 when bytes that happen to follow it are read for its text. */
  lemma ShortFrameDependsOnReads(id: Guid)
    ensures var b, x := Header(id, 10, 0), seq(COSTUME_NAME_SIZE, _ => 0xFF as byte);
            && ParseOne(UntilChecked([], [b, x])) == Crashed
            && ParseOne(UntilChecked([], [b + x])) == Failed(BadUtf8)
  {
    var b, x := Header(id, 10, 0), seq(COSTUME_NAME_SIZE, _ => 0xFF as byte);
    assert [] + b == b && [] + (b + x) == b + x && b + [] == b;
    ShortCapture(id, []);
    ShortCapture(id, x);
  }

  lemma ShortCapture(id: Guid, x: seq<byte>)
    requires x == [] || (|x| == COSTUME_NAME_SIZE && x[0] == 0xFF)
    ensures var b := Header(id, 10, 0) + x;
            ParseOne(b) == (if x == [] then Crashed else Failed(BadUtf8))
            && forall more :: UntilChecked(b, more) == b
  {
    hide Header;
    HeaderFields(id, 10, 0, x);
    if x != [] {
      assert !Valid(x);
    }
  }

  // ---- datagrams ----

  datatype Addr = Addr(ip: Ip, port: u16)
  datatype Datagram = Datagram(from: Addr, payload: seq<byte>)
  datatype SenderStatus = Pending(ip: Ip) | Connected(addr: Addr)

  /** A datagram is received into 100 bytes; what does not fit is lost. */
  const RECEIVE_SIZE: nat := 100

  function Truncated(payload: seq<byte>): seq<byte> {
    if |payload| <= RECEIVE_SIZE then payload else payload[..RECEIVE_SIZE]
  }

  /** The bytes that datagrams add to the buffer: only those of the expected peer count. */
  function Accepted(ds: seq<Datagram>, expected: Addr): seq<byte> {
    if ds == [] then []
    else (if ds[0].from == expected then Truncated(ds[0].payload) else []) + Accepted(ds[1..], expected)
  }

  function IpOf(s: SenderStatus): Ip {
    if s.Pending? then s.ip else s.addr.ip
  }

  /** What datagrams add to the buffer of a connection. */
  function Heard(ds: seq<Datagram>, s: SenderStatus): seq<byte> {
    if s.Connected? then Accepted(ds, s.addr) else []
  }

  lemma HeardAppend(ds: seq<Datagram>, more: seq<Datagram>, s: SenderStatus)
    ensures Heard(ds + more, s) == Heard(ds, s) + Heard(more, s)
  {
    if s.Connected? {
      AcceptedAppend(ds, more, s.addr);
    }
  }

  lemma {:induction false} AcceptedAppend(ds: seq<Datagram>, more: seq<Datagram>, expected: Addr)
    ensures Accepted(ds + more, expected) == Accepted(ds, expected) + Accepted(more, expected)
  {
    if ds == [] {
      assert ds + more == more;
    } else {
      assert (ds + more)[1..] == ds[1..] + more;
      AcceptedAppend(ds[1..], more, expected);
    }
  }

  /** The datagrams between `before` and `now` have been read, and `acc` has grown by what they add. */
  ghost predicate DatagramsRead(s: SenderStatus, before: seq<Datagram>, now: seq<Datagram>, acc: seq<byte>,
                           acc': seq<byte>) {
    && |now| <= |before| && now == before[|before| - |now|..]
    && acc' == acc + Heard(before[..|before| - |now|], s)
  }

  lemma ReadingStarts(s: SenderStatus, ds: seq<Datagram>, acc: seq<byte>, buff: seq<byte>)
    ensures DatagramsRead(s, ds, ds, acc, acc) && buff == buff + acc[|acc|..]
  {
  }

  lemma ReadOne(s: SenderStatus, before: seq<Datagram>, now: seq<Datagram>, acc: seq<byte>, acc': seq<byte>,
                    buff: seq<byte>)
    requires now != [] && DatagramsRead(s, before, now, acc, acc')
    ensures var got := Heard([now[0]], s);
            && DatagramsRead(s, before, now[1..], acc, acc' + got)
            && acc <= acc' + got && buff + (acc' + got)[|acc|..] == buff + acc'[|acc|..] + got
  {
    hide Heard;
    var k := |before| - |now|;
    HeardAppend(before[..k], [before[k]], s);
    assert before[..k + 1] == before[..k] + [now[0]];
    var got := Heard([now[0]], s);
    assert acc + Heard(before[..k], s) + got == acc + (Heard(before[..k], s) + got);
    assert (acc' + got)[|acc|..] == acc'[|acc|..] + got;
  }

  datatype UdpInput = UdpInput(buff: seq<byte>, incoming: seq<Datagram>, accepted: seq<byte>)

  function PacketIn(r: Received): seq<Packet> {
    if r.Received? then [r.packet] else []
  }

  /** From `before` to `now` the packets in `got` were parsed off the old buffer followed by what was accepted since;
      and while the peer stays the same, what was accepted is what the datagrams since have added. */
  ghost predicate UdpRead(peer: SenderStatus, samePeer: bool, before: UdpInput, now: UdpInput, got: seq<Packet>) {
    && before.accepted <= now.accepted
    && Parsing(before.buff + now.accepted[|before.accepted|..], got, now.buff)
    && (samePeer ==> DatagramsRead(peer, before.incoming, now.incoming, before.accepted, now.accepted))
  }

  lemma NothingRead(peer: SenderStatus, u: UdpInput)
    ensures UdpRead(peer, true, u, u, [])
  {
    ReadingStarts(peer, u.incoming, u.accepted, u.buff);
    ParsingStarts(u.buff);
  }

  lemma PacketRead(peer: SenderStatus, before: UdpInput, now: UdpInput, r: Received)
    requires DatagramsRead(peer, before.incoming, now.incoming, before.accepted, now.accepted)
    requires var all := before.buff + now.accepted[|before.accepted|..];
             if r.Received? then ParseOne(all) == Frame(r.packet, now.buff) else now.buff == all
    ensures UdpRead(peer, true, before, now, PacketIn(r))
  {
    hide Parsing, ParseOne;
    var all := before.buff + now.accepted[|before.accepted|..];
    if r.Received? {
      ParsingOne(all);
    } else {
      ParsingStarts(all);
    }
  }

  lemma UdpReadGoesOn(peer: SenderStatus, peer': SenderStatus, samePeer: bool, before: UdpInput, mid: UdpInput,
                      now: UdpInput, got: seq<Packet>, got': seq<Packet>)
    requires UdpRead(peer, samePeer, before, mid, got) && UdpRead(peer', true, mid, now, got')
    requires samePeer ==> peer' == peer
    ensures UdpRead(peer, samePeer, before, now, got + got')
  {
    hide Parsing, DatagramsRead;
    var more := now.accepted[|mid.accepted|..];
    assert before.buff + now.accepted[|before.accepted|..]
        == before.buff + mid.accepted[|before.accepted|..] + more;
    ParsingGoesOn(before.buff + mid.accepted[|before.accepted|..], got, mid.buff, more, got', now.buff);
    if samePeer {
      MoreRead(peer, before.incoming, mid.incoming, now.incoming, before.accepted, mid.accepted, now.accepted);
    }
  }

  lemma MoreRead(s: SenderStatus, before: seq<Datagram>, mid: seq<Datagram>, now: seq<Datagram>, acc: seq<byte>,
                 acc1: seq<byte>, acc2: seq<byte>)
    requires DatagramsRead(s, before, mid, acc, acc1) && DatagramsRead(s, mid, now, acc1, acc2)
    ensures DatagramsRead(s, before, now, acc, acc2)
  {
    hide Heard;
    var k, n := |before| - |mid|, |before| - |now|;
    assert before[..n] == before[..k] + mid[..n - k];
    HeardAppend(before[..k], mid[..n - k], s);
    var a, b := Heard(before[..k], s), Heard(mid[..n - k], s);
    assert acc + a + b == acc + (a + b);
  }

  class UdpConnection {
    var buff: seq<byte>
    var sendAddr: SenderStatus
    var incoming: seq<Datagram>
    var sent: seq<Datagram>  // to the address in `from`
    ghost var accepted: seq<byte>  // everything that was ever put into the buffer

    constructor (ip: Ip, incoming: seq<Datagram>)
      ensures buff == [] && sendAddr == SenderStatus.Pending(ip) && this.incoming == incoming && sent == []
    {
      buff, sendAddr, this.incoming, sent, accepted := [], SenderStatus.Pending(ip), incoming, [], [];
    }

    constructor FromConnection(addr: Addr, incoming: seq<Datagram>)
      ensures buff == [] && sendAddr == Connected(addr) && this.incoming == incoming && sent == []
    {
      buff, sendAddr, this.incoming, sent, accepted := [], Connected(addr), incoming, [], [];
    }

    /** What reading depends on. */
    ghost function Input(): UdpInput
      reads this
    {
      UdpInput(buff, incoming, accepted)
    }

    /** The stream still to be parsed. */
    ghost function Pending(): seq<byte>
      reads this
    {
      buff + Heard(incoming, sendAddr)
    }

    predicate IsClientUdp()
      reads this
    {
      sendAddr.Connected?
    }

    /** The peer's address keeps its IP for the whole session; only the port can change. */
    method SetClientPort(port: u16)
      modifies this`sendAddr
      ensures IsClientUdp()
      ensures match old(sendAddr)
              case Pending(ip) => sendAddr == Connected(Addr(ip, port))
              case Connected(addr) => sendAddr == Connected(Addr(addr.ip, port))
    {
      var newAddr := match sendAddr
        case Pending(ip) => Addr(ip, port)
        case Connected(addr) => Addr(addr.ip, port);
      sendAddr := Connected(newAddr);
    }

    method ParsePacket() returns (r: Parsed)
      modifies this`buff
      ensures r == ParseOne(old(buff))
      ensures buff == if r.Frame? then r.rest else old(buff)
    {
      r := TryParse(buff);
      if r.Frame? {
        buff := r.rest;
      }
    }

    /** False when the call does not return: there is no peer yet, or nothing more arrives.  Otherwise one datagram is
        used up: at most 100 bytes of it go to the end of the buffer if it is from the peer, and none if it is not. */
    method ReadSocket() returns (ready: bool)
      modifies this`buff, this`incoming, this`accepted
      ensures Pending() == old(Pending())
      ensures ready ==> old(incoming) != [] && incoming == old(incoming)[1..]
      ensures ready ==> var got := Heard([old(incoming)[0]], sendAddr);
                        buff == old(buff) + got && accepted == old(accepted) + got
      ensures ready ==> var d := old(incoming)[0];
                        if sendAddr.Connected? && d.from.ip == sendAddr.addr.ip && d.from.port == sendAddr.addr.port then
                          var got := if |d.payload| <= 100 then d.payload else d.payload[..100];
                          buff == old(buff) + got && accepted == old(accepted) + got
                        else buff == old(buff) && accepted == old(accepted)
      ensures !ready ==> incoming == old(incoming) && buff == old(buff) && accepted == old(accepted)
      ensures !ready ==> Heard(incoming, sendAddr) == [] && (sendAddr.Connected? ==> incoming == [])
    {
      if sendAddr.Pending? || incoming == [] {
        return false;
      }
      var d, expected := incoming[0], sendAddr.addr;
      assert Accepted([d], expected) == if d.from == expected then Truncated(d.payload) else [];
      if d.from == expected {
        assert buff + Truncated(d.payload) + Accepted(incoming[1..], expected) == buff + Accepted(incoming, expected);
        buff := buff + Truncated(d.payload);
        accepted := accepted + Truncated(d.payload);
      }
      incoming := incoming[1..];
      return true;
    }

    /** As for TCP, the next packet depends only on the accepted bytes; and it is the first one in the old buffer
        followed by what the datagrams read by this call have added. */
    method ReadPacket() returns (r: Received)
      modifies this`buff, this`incoming, this`accepted
      ensures match ParseOne(old(Pending()))
              case Frame(p, rest) => r == Received(p) && Pending() == rest
              case More => r == Waiting && Pending() == old(Pending())
              case Failed(_) => (r.BadEncoding? || r.ParserPanic?) && Pending() == old(Pending())
              case Crashed => (r.BadEncoding? || r.ParserPanic?) && Pending() == old(Pending())
      ensures r.Waiting? && IsClientUdp() ==> incoming == []
      ensures DatagramsRead(sendAddr, old(incoming), incoming, old(accepted), accepted)
      ensures var all := old(buff) + accepted[|old(accepted)|..];
              match ParseOne(all)
              case Frame(p, rest) => r == Received(p) && buff == rest
              case More => r == Waiting && buff == all
              case Failed(_) => r == Failure(ParseOne(all)) && buff == all
              case Crashed => r == Failure(ParseOne(all)) && buff == all
    {
      hide ParseOne, Heard, DatagramsRead;
      ghost var stream := Pending();
      ReadingStarts(sendAddr, incoming, accepted, buff);
      while true
        invariant Pending() == stream
        invariant DatagramsRead(sendAddr, old(incoming), incoming, old(accepted), accepted)
        invariant old(accepted) <= accepted && buff == old(buff) + accepted[|old(accepted)|..]
        decreases |incoming|
      {
        ghost var before := buff;
        ghost var later := Heard(incoming, sendAddr);
        assert stream == before + later;
        var parsed := ParsePacket();
        if parsed.Frame? {
          FrameFollowed(before, later);
          assert parsed.rest + [] == parsed.rest;
          return Received(parsed.packet);
        } else if !parsed.More? {
          FailureStays(before, later);
          return Failure(parsed);
        }
        ghost var inc, acc := incoming, accepted;
        var ready := ReadSocket();
        if !ready {
          assert before + [] == before;
          return Waiting;
        }
        ReadOne(sendAddr, old(incoming), inc, old(accepted), acc, old(buff));
      }
    }

    /** False for `UdpNotInit`: there is no peer to write to. */
    method WritePacket(p: Packet) returns (ok: bool)
      modifies this`sent
      ensures ok == IsClientUdp()
      ensures sent == if ok then old(sent) + [Datagram(sendAddr.addr, Encode(p))] else old(sent)
    {
      if sendAddr.Pending? {
        return false;
      }
      var out := new Buffer();
      EncodePacket(p, out);
      assert [] + Encode(p) == Encode(p);
      sent := sent + [Datagram(sendAddr.addr, out.data)];
      return true;
    }
  }

  /** The datagrams from one address. */
  function FromPeer(ds: seq<Datagram>, peer: Addr): seq<Datagram> {
    if ds == [] then []
    else (if ds[0].from.ip == peer.ip && ds[0].from.port == peer.port then [ds[0]] else []) + FromPeer(ds[1..], peer)
  }

  /** Datagrams from anybody else change nothing, wherever they come in between. */
  lemma {:induction false} OthersDoNotMatter(ds: seq<Datagram>, peer: Addr)
    ensures Heard(ds, Connected(peer)) == Heard(FromPeer(ds, peer), Connected(peer))
  {
    if ds != [] {
      OthersDoNotMatter(ds[1..], peer);
      var rest := FromPeer(ds[1..], peer);
      if ds[0].from == peer {
        assert ([ds[0]] + rest)[1..] == rest;
      } else {
        assert [] + rest == rest;
        assert [] + Accepted(ds[1..], peer) == Accepted(ds[1..], peer);
      }
    }
  }

  /** So datagrams of one packet each from the peer parse to those packets, whatever others send. */
  lemma DatagramsAmongOthers(ds: seq<Datagram>, ps: seq<Packet>, peer: Addr)
    requires AllCanonical(ps)
    requires forall i :: 0 <= i < |ps| ==> |Encode(ps[i])| <= 100
    requires FromPeer(ds, peer) == seq(|ps|, i requires 0 <= i < |ps| => Datagram(peer, Encode(ps[i])))
    ensures ParseAll(Heard(ds, Connected(peer))) == Framing.Stream(ps, [])
  {
    hide ParseAll, Encode, Canonical;
    OthersDoNotMatter(ds, peer);
    DatagramsParse(ps, peer);
  }

  /** Datagrams of one packet each that fit the receive buffer, from the expected peer, parse to those packets. */
  lemma {:induction false} DatagramsParse(ps: seq<Packet>, peer: Addr)
    requires AllCanonical(ps)
    requires forall i :: 0 <= i < |ps| ==> |Encode(ps[i])| <= RECEIVE_SIZE
    ensures var ds := seq(|ps|, i requires 0 <= i < |ps| => Datagram(peer, Encode(ps[i])));
            ParseAll(Accepted(ds, peer)) == Framing.Stream(ps, [])
  {
    AcceptedEncodings(ps, peer);
    WireRoundTrip(ps);
  }

  lemma {:induction false} AcceptedEncodings(ps: seq<Packet>, peer: Addr)
    requires forall i :: 0 <= i < |ps| ==> |Encode(ps[i])| <= RECEIVE_SIZE
    ensures Accepted(seq(|ps|, i requires 0 <= i < |ps| => Datagram(peer, Encode(ps[i]))), peer) == EncodeAll(ps)
  {
    if ps != [] {
      var ds := seq(|ps|, i requires 0 <= i < |ps| => Datagram(peer, Encode(ps[i])));
      var tail := ps[1..];
      assert ds[1..] == seq(|tail|, i requires 0 <= i < |tail| => Datagram(peer, Encode(tail[i])));
      AcceptedEncodings(tail, peer);
    }
  }
}
