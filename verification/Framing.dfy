/** Cutting a byte stream into packets, as a function of the bytes alone. */
module Framing {
  import opened Utf8
  import opened Wire
  import opened Packets
  import opened CodecTheorems

  /** What one call of `parse_packet` finds at the front of the buffer. */
  datatype Parsed = Frame(packet: Packet, rest: seq<byte>) | More | Failed(error: DecodeError) | Crashed

  function ParseOne(b: seq<byte>): Parsed {
    match Check(b)
    case None => More
    case Some(n) =>
      match Decode(b)
      case Got(p, _) => Frame(p, b[n..])
      case Bad(e) => Failed(e)
      case Panicked => Crashed
  }

  /** The packets at the front of a stream, and the bytes from the first point where none can be parsed. */
  datatype Stream = Stream(packets: seq<Packet>, leftover: seq<byte>)

  function ParseAll(b: seq<byte>): Stream
    decreases |b|
  {
    match ParseOne(b)
    case Frame(p, rest) =>
      var s := ParseAll(rest);
      Stream([p] + s.packets, s.leftover)
    case _ => Stream([], b)
  }

  lemma ParseAllStep(b: seq<byte>)
    ensures match ParseOne(b)
            case Frame(p, rest) =>
              |rest| < |b| && ParseAll(b) == Stream([p] + ParseAll(rest).packets, ParseAll(rest).leftover)
            case _ => ParseAll(b) == Stream([], b)
  {
    hide Decode;
  }

  function Concat(chunks: seq<seq<byte>>): seq<byte> {
    if chunks == [] then [] else chunks[0] + Concat(chunks[1..])
  }

  predicate AllCanonical(ps: seq<Packet>) {
    forall i :: 0 <= i < |ps| ==> Canonical(ps[i])
  }

  /** A whole frame is removed on success, whatever follows it and however much of it decoding read. */
  lemma FrameFollowed(b: seq<byte>, x: seq<byte>)
    requires ParseOne(b).Frame?
    ensures WellSized(b) && HEADER_SIZE <= Check(b).value
    ensures ParseOne(b + x) == Frame(ParseOne(b).packet, ParseOne(b).rest + x)
  {
    hide Decode;
    DecodedWellSized(b);
    FollowedBy(b, x);
    DropExtends(b, x, Check(b).value);
  }

  lemma DecodedWellSized(b: seq<byte>)
    ensures Decode(b).Got? ==> WellSized(b)
  {
    hide Decode;
    Decoded(b);
  }

  lemma DropExtends(b: seq<byte>, x: seq<byte>, n: nat)
    requires n <= |b|
    ensures (b + x)[n..] == b[n..] + x
  {
  }

  /** Once the first frame is all there, later bytes cannot turn a failure into a packet, and for a frame that
      declares enough room they cannot change the failure either. */
  lemma FailureStays(b: seq<byte>, x: seq<byte>)
    requires ParseOne(b).Failed? || ParseOne(b).Crashed?
    ensures ParseOne(b + x).Failed? || ParseOne(b + x).Crashed?
    ensures WellSized(b) ==> ParseOne(b) == Failed(BadUtf8) && ParseOne(b + x) == ParseOne(b)
    ensures WellSized(b + x) <==> WellSized(b)
  {
    hide Decode;
    HeaderExtends(b, x);
    CheckAndDecodeAgree(b);
    CheckAndDecodeAgree(b + x);
    if WellSized(b) {
      FollowedBy(b, x);
    }
  }

  /** Parsing may stop and go on later: appending bytes to the stream only continues where it stopped. */
  lemma {:induction false} ParseAllAppend(a: seq<byte>, x: seq<byte>)
    ensures var (s, t) := (ParseAll(a), ParseAll(ParseAll(a).leftover + x));
            ParseAll(a + x) == Stream(s.packets + t.packets, t.leftover)
    decreases |a|
  {
    hide ParseOne, ParseAll;
    ParseAllStep(a);
    ParseAllStep(a + x);
    var one := ParseOne(a);
    if one.Frame? {
      FrameFollowed(a, x);
      ParseAllAppend(one.rest, x);
      var s, t := ParseAll(one.rest), ParseAll(ParseAll(one.rest).leftover + x);
      assert [one.packet] + (s.packets + t.packets) == [one.packet] + s.packets + t.packets;
    } else {
      var t := ParseAll(a + x);
      assert [] + t.packets == t.packets;
    }
  }

  /** Parsing whatever is there after each read. */
  function Feed(buff: seq<byte>, chunks: seq<seq<byte>>): Stream
    decreases |chunks|
  {
    var s := ParseAll(buff);
    if chunks == [] then s
    else
      var t := Feed(s.leftover + chunks[0], chunks[1..]);
      Stream(s.packets + t.packets, t.leftover)
  }

  /** The split of the stream into reads does not matter. */
  lemma {:induction false} ChunkIndependence(buff: seq<byte>, chunks: seq<seq<byte>>)
    ensures Feed(buff, chunks) == ParseAll(buff + Concat(chunks))
    decreases |chunks|
  {
    hide ParseAll;
    if chunks == [] {
      assert buff + [] == buff;
    } else {
      var s := ParseAll(buff);
      ChunkIndependence(s.leftover + chunks[0], chunks[1..]);
      ParseAllAppend(buff, Concat(chunks));
      assert s.leftover + Concat(chunks) == s.leftover + chunks[0] + Concat(chunks[1..]);
    }
  }

  /** `got` has been parsed off the front of the bytes that have come in, and `left` is still in the buffer. */
  ghost predicate Parsing(all: seq<byte>, got: seq<Packet>, left: seq<byte>) {
    ParseAll(all) == Stream(got + ParseAll(left).packets, ParseAll(left).leftover)
  }

  lemma ParsingStarts(b: seq<byte>)
    ensures Parsing(b, [], b)
  {
    hide ParseAll;
    assert [] + ParseAll(b).packets == ParseAll(b).packets;
  }

  lemma ParsingOne(b: seq<byte>)
    requires ParseOne(b).Frame?
    ensures Parsing(b, [ParseOne(b).packet], ParseOne(b).rest)
  {
    hide ParseAll, ParseOne;
    ParseAllStep(b);
  }

  /** More bytes come in, and parsing goes on from what was left. */
  lemma ParsingGoesOn(all: seq<byte>, got: seq<Packet>, left: seq<byte>, more: seq<byte>, got': seq<Packet>,
                      left': seq<byte>)
    requires Parsing(all, got, left) && Parsing(left + more, got', left')
    ensures Parsing(all + more, got + got', left')
  {
    hide ParseAll;
    ParseAllAppend(all, more);
    ParseAllAppend(left, more);
    var after := ParseAll(ParseAll(left).leftover + more);
    assert got + ParseAll(left).packets + after.packets == got + (ParseAll(left).packets + after.packets);
    assert got + (got' + ParseAll(left').packets) == got + got' + ParseAll(left').packets;
  }

  lemma CheckEncoded(p: Packet, t: seq<byte>)
    requires p.dataSize <= GetSize(p.data) + |t|
    ensures var b := Encode(p) + t;
            && Check(b) == Some(HEADER_SIZE + p.dataSize)
            && (p.dataSize >= GetSize(p.data) ==> b[HEADER_SIZE + p.dataSize..] == t[p.dataSize - GetSize(p.data)..])
  {
    hide EncodeData;
    EncodeLength(p);
    var b, tag := Encode(p) + t, GetTypeId(p.data);
    assert b == Header(p.id, tag, p.dataSize) + (EncodeData(p.data) + t);
    HeaderFields(p.id, tag, p.dataSize, EncodeData(p.data) + t);
  }

  lemma ParseEncoded(p: Packet, t: seq<byte>)
    requires Canonical(p)
    ensures ParseOne(Encode(p) + t) == Frame(p, t)
  {
    hide Decode, Encode;
    DecodeEncode(p, t);
    CheckEncoded(p, t);
  }

  lemma EncodeAllHead(ps: seq<Packet>, t: seq<byte>)
    requires ps != []
    ensures EncodeAll(ps) + t == Encode(ps[0]) + (EncodeAll(ps[1..]) + t)
  {
    hide Encode;
  }

  lemma HeadAndTail<T>(s: seq<T>, t: seq<T>)
    requires s != []
    ensures [s[0]] + (s[1..] + t) == s + t
  {
  }

  lemma ParseAllEncoded(p: Packet, t: seq<byte>)
    requires Canonical(p)
    ensures ParseAll(Encode(p) + t) == Stream([p] + ParseAll(t).packets, ParseAll(t).leftover)
  {
    hide Decode, Encode;
    ParseEncoded(p, t);
  }

  /** A stream of encoded canonical packets parses to exactly those packets, and then to what follows them. */
  lemma {:induction false} ParseEncodedAll(ps: seq<Packet>, t: seq<byte>)
    requires AllCanonical(ps)
    ensures ParseAll(EncodeAll(ps) + t) == Stream(ps + ParseAll(t).packets, ParseAll(t).leftover)
  {
    hide ParseAll, Encode;
    if ps == [] {
      assert [] + t == t;
      assert ps + ParseAll(t).packets == ParseAll(t).packets;
    } else {
      EncodeAllHead(ps, t);
      ParseEncodedAll(ps[1..], t);
      ParseAllEncoded(ps[0], EncodeAll(ps[1..]) + t);
      HeadAndTail(ps, ParseAll(t).packets);
    }
  }

  lemma WireRoundTrip(ps: seq<Packet>)
    requires AllCanonical(ps)
    ensures ParseAll(EncodeAll(ps)) == Stream(ps, [])
  {
    hide Decode, Encode;
    ParseEncodedAll(ps, []);
    assert EncodeAll(ps) + [] == EncodeAll(ps);
    assert ParseAll([]) == Stream([], []);
    assert ps + [] == ps;
  }

  lemma {:induction false} EncodeAllAppend(ps: seq<Packet>, qs: seq<Packet>)
    ensures EncodeAll(ps + qs) == EncodeAll(ps) + EncodeAll(qs)
  {
    hide Encode;
    if ps == [] {
      assert ps + qs == qs;
    } else {
      assert (ps + qs)[1..] == ps[1..] + qs;
      EncodeAllAppend(ps[1..], qs);
    }
  }

  lemma {:induction false} ConcatAppend(a: seq<seq<byte>>, b: seq<seq<byte>>)
    ensures Concat(a + b) == Concat(a) + Concat(b)
  {
    if a == [] {
      assert a + b == b;
    } else {
      assert (a + b)[1..] == a[1..] + b;
      ConcatAppend(a[1..], b);
    }
  }

  /** Every packet that comes out of a stream is canonical once resized. */
  lemma {:induction false} ParsedAreCanonical(b: seq<byte>)
    ensures forall i :: 0 <= i < |ParseAll(b).packets| ==> Canonical(Resize(ParseAll(b).packets[i]))
    decreases |b|
  {
    hide Decode;
    var one := ParseOne(b);
    if one.Frame? {
      DecodingNormalises(b);
      ParsedAreCanonical(one.rest);
    }
  }

  /** A packet whose declared size exceeds its data takes the front of the next frame for its padding: what the
      peer parses is then not what was sent. */
  lemma PaddedFrameSwallowsNext(p: Packet, t: seq<byte>)
    requires CanonicalData(p.data) && GetSize(p.data) < p.dataSize <= GetSize(p.data) + |t|
    requires !p.data.Unhandled?
    ensures ParseOne(Encode(p) + t) == Frame(p, t[p.dataSize - GetSize(p.data)..])
  {
    hide Decode, Encode;
    DecodeEncodePadded(p, t);
    CheckEncoded(p, t);
  }
}
