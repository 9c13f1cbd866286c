/** Packets keep their order across the three queues between two games, and none is lost or made up. */
module Fifo {
  import opened Utf8
  import opened Wire
  import opened Packets
  import opened Protocol
  import opened ClientTask
  import opened Sequences
  import opened System
  import opened Structure
  import opened Membership
  import opened TotalOrder

  /** The packets of one session that are still in the coordinator's queue. */
  function QueueOf(a: Sid, queue: seq<Command<Sid>>): seq<Packet> {
    if queue == [] then []
    else (if queue[0].PacketCommand? && queue[0].from == a then [queue[0].packet] else []) + QueueOf(a, queue[1..])
  }

  function IsFrom(a: Sid): Msg -> bool {
    (m: Msg) => m.kind == Relayed(a)
  }

  function PacketOf(): Msg -> Packet {
    (m: Msg) => m.packet
  }

  /** The packets among some messages that were relayed from one session. */
  function RelaysOf(a: Sid, ms: seq<Msg>): seq<Packet> {
    Map(PacketOf(), Filter(IsFrom(a), ms))
  }

  function NotShine(): Packet -> bool {
    (p: Packet) => !p.data.Shine?
  }

  function Resized(): Packet -> Packet {
    (p: Packet) => Resize(p)
  }

  /** What is passed on of the packets a session forwards: all but the shines, resized. */
  function Passed(ps: seq<Packet>): seq<Packet> {
    Map(Resized(), Filter(NotShine(), ps))
  }

  function IsForeign(guid: Guid): Packet -> bool {
    (p: Packet) => Writes(guid, p)
  }

  /** The packets among some messages that a session writes: those that do not bear its guid. */
  function Foreign(guid: Guid, ms: seq<Msg>): seq<Packet> {
    Filter(IsForeign(guid), Map(PacketOf(), ms))
  }

  lemma RelaysConcat(a: Sid, x: seq<Msg>, y: seq<Msg>)
    ensures RelaysOf(a, x + y) == RelaysOf(a, x) + RelaysOf(a, y)
  {
    FilterConcat(IsFrom(a), x, y);
    MapConcat(PacketOf(), Filter(IsFrom(a), x), Filter(IsFrom(a), y));
  }

  lemma PassedConcat(x: seq<Packet>, y: seq<Packet>)
    ensures Passed(x + y) == Passed(x) + Passed(y)
  {
    FilterConcat(NotShine(), x, y);
    MapConcat(Resized(), Filter(NotShine(), x), Filter(NotShine(), y));
  }

  lemma ForeignConcat(guid: Guid, x: seq<Msg>, y: seq<Msg>)
    ensures Foreign(guid, x + y) == Foreign(guid, x) + Foreign(guid, y)
  {
    MapConcat(PacketOf(), x, y);
    FilterConcat(IsForeign(guid), Map(PacketOf(), x), Map(PacketOf(), y));
  }

  lemma SingleRelay(a: Sid, m: Msg)
    ensures RelaysOf(a, [m]) == if m.kind == Relayed(a) then [m.packet] else []
  {
    hide Filter;
    SingleFilter(IsFrom(a), m);
  }

  lemma SinglePassed(p: Packet)
    ensures Passed([p]) == if p.data.Shine? then [] else [Resize(p)]
  {
    hide Resize, Filter;
    SingleFilter(NotShine(), p);
    var kept := Filter(NotShine(), [p]);
    assert Passed([p]) == Map(Resized(), kept);
    assert Resized()(p) == Resize(p);
  }

  lemma SingleFilter<T>(keep: T -> bool, x: T)
    ensures Filter(keep, [x]) == if keep(x) then [x] else []
  {
    assert [] + [x] == [x];
    FilterSnoc(keep, [], x);
  }

  lemma SingleForeign(guid: Guid, m: Msg)
    ensures Foreign(guid, [m]) == if Writes(guid, m.packet) then [m.packet] else []
  {
    hide Filter;
    assert Map(PacketOf(), [m]) == [m.packet];
    SingleFilter(IsForeign(guid), m.packet);
  }

  /** Relays are broadcasts, so leaving out everything else does not change them. */
  lemma {:induction false} RelaysArePublic(a: Sid, ms: seq<Msg>)
    ensures RelaysOf(a, Public(ms)) == RelaysOf(a, ms)
  {
    if ms != [] {
      var n := |ms| - 1;
      RelaysArePublic(a, ms[..n]);
      assert ms == ms[..n] + [ms[n]];
      PublicAppend(ms[..n], ms[n]);
      hide RelaysOf, Public;
      RelaysConcat(a, ms[..n], [ms[n]]);
      RelaysConcat(a, Public(ms[..n]), [ms[n]]);
      SingleRelay(a, ms[n]);
      assert Public(ms[..n]) + [] == Public(ms[..n]);
      assert RelaysOf(a, ms[..n]) + [] == RelaysOf(a, ms[..n]);
    }
  }

  lemma {:induction false} QueueOfAppend(a: Sid, queue: seq<Command<Sid>>, cmd: Command<Sid>)
    ensures QueueOf(a, queue + [cmd])
         == QueueOf(a, queue) + if cmd.PacketCommand? && cmd.from == a then [cmd.packet] else []
  {
    if queue == [] {
      assert QueueOf(a, [cmd][1..]) == [];
    } else {
      assert (queue + [cmd])[1..] == queue[1..] + [cmd];
      QueueOfAppend(a, queue[1..], cmd);
    }
  }

  lemma {:induction false} QueueOfNone(a: Sid, queue: seq<Command<Sid>>)
    requires forall i :: 0 <= i < |queue| ==> !(queue[i].PacketCommand? && queue[i].from == a)
    ensures QueueOf(a, queue) == []
  {
    if queue != [] {
      QueueOfNone(a, queue[1..]);
    }
  }

  // ---- what the coordinator passes on ----

  lemma PacketBroadcasts(c: Core<Sid>, from: Sid, p: Packet, ch: Choice)
    requires LegalPacket(c, p, ch)
    ensures var h, m := HandlePacket(c, from, p, ch), Msg(Resize(p), Relayed(from));
            && (h.core.broadcasts == c.broadcasts || (!p.data.Shine? && h.core.broadcasts == c.broadcasts + [m]))
            && (PassedOn(c, p, ch) <==> h.core.broadcasts == c.broadcasts + [m])
  {
    hide LegalShines, Synced, IsReset, IsWaterfall, Append, ShineSends, Resize, StartSpeedrun;
  }

  /** Joins and departures only broadcast notices. */
  ghost predicate NoticesOnly(broadcasts: seq<Msg>, broadcasts': seq<Msg>) {
    && broadcasts <= broadcasts'
    && forall i :: |broadcasts| <= i < |broadcasts'| ==> broadcasts'[i].kind == Notice
  }

  lemma LeaveNoticesOnly(c: Core<Sid>, g: Guid, undone: set<Sid>, bye: bool)
    ensures NoticesOnly(c.broadcasts, Leave(c, g, undone, bye).core.broadcasts)
  {
    hide Append, To, Resize;
  }

  lemma SetupNotices(c: Core<Sid>, sid: Sid, connect: Packet, maxPlayers: u16, ch: Choice)
    requires HandlesLive(c) && LegalOrder(c, ch.order) && ch.cut <= |IntroAll(c, ch.order, maxPlayers)|
    ensures NoticesOnly(c.broadcasts, Setup(c, sid, connect, maxPlayers, ch).core.broadcasts)
  {
    hide Append, To, Resize, IntroAll;
  }

  lemma NoticesTrans(a: seq<Msg>, b: seq<Msg>, c: seq<Msg>)
    requires NoticesOnly(a, b) && NoticesOnly(b, c)
    ensures NoticesOnly(a, c)
  {
    forall i | |a| <= i < |c| ensures c[i].kind == Notice {
      assert i < |b| ==> c[i] == b[i];
    }
  }

  lemma JoinNotices(c: Core<Sid>, settings: Settings, cli: Joiner<Sid>, connect: Packet, ch: Choice)
    requires LegalJoin(c, settings, cli, connect, ch)
    ensures NoticesOnly(c.broadcasts, Join(c, settings, cli, connect, ch).core.broadcasts)
  {
    hide Setup, Leave, IntroAll, Admission, NoticesOnly;
    SameBroadcasts(c.broadcasts);
    if Admission(c, settings, cli) == None {
      var c1 := Register(c, cli, connect.data.cType);
      var setup := Setup(c1, cli.sid, connect, settings.maxPlayers, ch);
      SetupNotices(c1, cli.sid, connect, settings.maxPlayers, ch);
      LeaveNoticesOnly(setup.core, cli.guid, ch.undone, ch.bye);
      NoticesTrans(c.broadcasts, setup.core.broadcasts,
                   Leave(setup.core, cli.guid, ch.undone, ch.bye).core.broadcasts);
    }
  }

  lemma NoticesKeepRelays(a: Sid, b: seq<Msg>, b': seq<Msg>)
    requires NoticesOnly(b, b')
    ensures RelaysOf(a, b') == RelaysOf(a, b)
  {
    var more := b'[|b|..];
    assert b' == b + more;
    RelaysConcat(a, b, more);
    FilterNone(IsFrom(a), more);
    assert RelaysOf(a, b) + [] == RelaysOf(a, b);
  }

  // ---- the invariant ----

  /** The packets a session forwarded are those handled followed by those queued; and what was broadcast for it is
      what is to be passed on of those handled, or a shorter subsequence of it once one of its own commands has
      failed. */
  ghost predicate ForwardedAt(x: Session, queued: seq<Packet>, relayed: seq<Packet>, exact: bool) {
    && x.served <= |x.forwarded|
    && queued == x.forwarded[x.served..]
    && Subseq(relayed, Passed(x.forwarded[..x.served]))
    && (exact ==> relayed == Passed(x.forwarded[..x.served]))
    && (!exact ==> |relayed| < |Passed(x.forwarded[..x.served])|)
  }

  ghost predicate FifoInv(s: Sys) {
    s.stopped <= s.sessions.Keys
    && forall a :: a in s.sessions ==>
      ForwardedAt(s.sessions[a], QueueOf(a, s.core.queue), RelaysOf(a, s.core.broadcasts), a !in s.stopped)
  }

  /** Every session has handled its messages in order and written what does not bear its guid. */
  ghost predicate WrittenAt(x: Session, log: seq<Msg>) {
    && x.taken <= |log|
    && Subseq(x.written, Foreign(x.guid, log[..x.taken]))
    && (x.dropped == 0 ==> x.written == Foreign(x.guid, log[..x.taken]))
  }

  ghost predicate WrittenInv(s: Sys) {
    forall x :: x in s.sessions ==> x in s.core.log && WrittenAt(s.sessions[x], s.core.log[x])
  }

  lemma SameForwarded(s: Sys, s': Sys)
    requires FifoInv(s) && s'.sessions.Keys == s.sessions.Keys && s'.stopped == s.stopped
    requires forall a :: a in s.sessions ==>
               && s'.sessions[a].forwarded == s.sessions[a].forwarded && s'.sessions[a].served == s.sessions[a].served
               && QueueOf(a, s'.core.queue) == QueueOf(a, s.core.queue)
               && RelaysOf(a, s'.core.broadcasts) == RelaysOf(a, s.core.broadcasts)
    ensures FifoInv(s')
  {
    hide QueueOf, RelaysOf, Passed;
    forall a | a in s'.sessions
      ensures ForwardedAt(s'.sessions[a], QueueOf(a, s'.core.queue), RelaysOf(a, s'.core.broadcasts), a !in s'.stopped)
    {
      assert ForwardedAt(s.sessions[a], QueueOf(a, s.core.queue), RelaysOf(a, s.core.broadcasts), a !in s.stopped);
    }
  }

  /** A command that is not a packet changes nobody's queue. */
  lemma QuietQueueChange(s: Sys, s': Sys, cmd: Command<Sid>)
    requires !cmd.PacketCommand? && s'.core.queue == s.core.queue + [cmd]
    ensures forall a :: a in s.sessions ==> QueueOf(a, s'.core.queue) == QueueOf(a, s.core.queue)
  {
    forall a | a in s.sessions ensures QueueOf(a, s'.core.queue) == QueueOf(a, s.core.queue) {
      QueueOfAppend(a, s.core.queue, cmd);
      assert QueueOf(a, s.core.queue) + [] == QueueOf(a, s.core.queue);
    }
  }

  lemma MoreForwarded(x: Session, p: Packet, queued: seq<Packet>, relayed: seq<Packet>, exact: bool)
    requires ForwardedAt(x, queued, relayed, exact)
    ensures ForwardedAt(x.(hand := None, forwarded := x.forwarded + [p]), queued + [p], relayed, exact)
  {
    hide Passed;
    assert (x.forwarded + [p])[..x.served] == x.forwarded[..x.served];
    assert (x.forwarded + [p])[x.served..] == x.forwarded[x.served..] + [p];
  }

  lemma ServedForwarded(x: Session, p: Packet, queued: seq<Packet>, relayed: seq<Packet>, relayed': seq<Packet>,
                        exact: bool, exact': bool)
    requires ForwardedAt(x, [p] + queued, relayed, exact)
    requires exact' <==> exact && (p.data.Shine? || relayed' != relayed)
    requires relayed' == relayed || (!p.data.Shine? && relayed' == relayed + [Resize(p)])
    ensures ForwardedAt(x.(served := x.served + 1), queued, relayed', exact')
  {
    hide Passed, Resize;
    var before, after := x.forwarded[..x.served], x.forwarded[..x.served + 1];
    assert x.forwarded[x.served] == p;
    assert after == before + [p];
    PassedConcat(before, [p]);
    SinglePassed(p);
    assert x.forwarded[x.served + 1..] == queued;
    if p.data.Shine? {
      assert Passed(before) + [] == Passed(before);
    } else {
      SubseqSnoc(relayed, Passed(before), Resize(p));
    }
  }

  lemma ServePacketFifo(s: Sys, s0: Sys, from: Sid, p: Packet, ch: Choice)
    requires FifoInv(s0) && s0.core.queue != [] && s == Dequeued(s0) && s0.core.queue[0] == PacketCommand(from, p)
    requires LegalPacket(s.core, p, ch) && from in s.sessions
    ensures FifoInv(ServePacket(s, from, p, ch))
  {
    hide HandlePacket, LegalPacket, ForwardedAt, RelaysOf, Resize, PassedOn, Everyone;
    var s', m := ServePacket(s, from, p, ch), Msg(Resize(p), Relayed(from));
    PacketBroadcasts(s.core, from, p, ch);
    PacketFrame(s.core, from, p, ch);
    PacketResult(s.core, from, p, ch);
    forall a | a in s'.sessions
      ensures ForwardedAt(s'.sessions[a], QueueOf(a, s'.core.queue), RelaysOf(a, s'.core.broadcasts), a !in s'.stopped)
    {
      RelaysConcat(a, s.core.broadcasts, [m]);
      SingleRelay(a, m);
      var relayed := RelaysOf(a, s.core.broadcasts);
      assert relayed + [] == relayed;
      assert ForwardedAt(s.sessions[a], QueueOf(a, s0.core.queue), relayed, a !in s0.stopped);
      if a == from {
        ServedForwarded(s.sessions[a], p, QueueOf(a, s.core.queue), relayed, RelaysOf(a, s'.core.broadcasts),
                        a !in s.stopped, a !in s'.stopped);
      } else {
        assert QueueOf(a, s0.core.queue) == QueueOf(a, s.core.queue);
      }
    }
  }

  /** The head of the queue is no packet and goes, and at most a departure notice is queued. */
  lemma QueueKept(a: Sid, queue: seq<Command<Sid>>, more: seq<Command<Sid>>)
    requires queue != [] && !queue[0].PacketCommand? && |more| <= 1 && (more != [] ==> more[0].DisconnectPlayer?)
    ensures QueueOf(a, queue[1..] + more) == QueueOf(a, queue)
  {
    var tail := queue[1..];
    if more == [] {
      assert tail + [] == tail;
    } else {
      assert more == [more[0]];
      QueueOfAppend(a, tail, more[0]);
      assert QueueOf(a, tail) + [] == QueueOf(a, tail);
    }
  }

  /** Handling a join or a departure. */
  lemma NoticeFifo(s0: Sys, s': Sys, more: seq<Command<Sid>>)
    requires FifoInv(s0) && s0.core.queue != [] && !s0.core.queue[0].PacketCommand?
    requires s'.sessions.Keys == s0.sessions.Keys && s'.stopped == s0.stopped
    requires forall a :: a in s0.sessions ==>
               && s'.sessions[a].forwarded == s0.sessions[a].forwarded && s'.sessions[a].served == s0.sessions[a].served
    requires NoticesOnly(s0.core.broadcasts, s'.core.broadcasts)
    requires |more| <= 1 && (more != [] ==> more[0].DisconnectPlayer?) && s'.core.queue == s0.core.queue[1..] + more
    ensures FifoInv(s')
  {
    hide RelaysOf, NoticesOnly, QueueOf, FifoInv;
    forall a | a in s0.sessions
      ensures QueueOf(a, s'.core.queue) == QueueOf(a, s0.core.queue)
      ensures RelaysOf(a, s'.core.broadcasts) == RelaysOf(a, s0.core.broadcasts)
    {
      NoticesKeepRelays(a, s0.core.broadcasts, s'.core.broadcasts);
      QueueKept(a, s0.core.queue, more);
    }
    SameForwarded(s0, s');
  }

  /** What serving a command may change in the sessions. */
  lemma ServedSessions(s: Sys, ch: Choice)
    requires CanServe(s, ch)
    ensures var s' := ServedHead(s, ch);
            && s'.sessions.Keys == s.sessions.Keys
            && (!s.core.queue[0].PacketCommand? ==> s'.stopped == s.stopped)
            && forall x :: x in s.sessions ==>
                 var (y, y') := (s.sessions[x], s'.sessions[x]);
                 && y'.guid == y.guid && y'.ip == y.ip && y'.taken == y.taken && y'.written == y.written
                 && y'.dropped == y.dropped && y'.forwarded == y.forwarded
                 && (s.core.queue[0].PacketCommand? || y'.served == y.served)
  {
    hide HandlePacket, Join, Leave, LegalPacket, LegalJoin, Admission, DataFor;
    match s.core.queue[0]
    case PacketCommand(from, _) =>
    case NewPlayer(cli, _) =>
    case _ => assert ServedHead(s, ch).sessions == s.sessions;
  }

  lemma ServedJoinFifo(s: Sys, ch: Choice)
    requires FifoInv(s) && CanServe(s, ch) && s.core.queue[0].NewPlayer?
    ensures FifoInv(ServedHead(s, ch))
  {
    ServedSessions(s, ch);
    var more := JoinServed(s, ch);
    hide FifoInv, NoticesOnly, CanServe, ServedHead;
    NoticeFifo(s, ServedHead(s, ch), more);
  }

  /** A refused newcomer leaves a departure notice in the queue. */
  lemma JoinServed(s: Sys, ch: Choice) returns (more: seq<Command<Sid>>)
    requires CanServe(s, ch) && s.core.queue[0].NewPlayer?
    ensures |more| <= 1 && (more != [] ==> more[0].DisconnectPlayer?)
    ensures ServedHead(s, ch).core.queue == s.core.queue[1..] + more
    ensures NoticesOnly(s.core.broadcasts, ServedHead(s, ch).core.broadcasts)
  {
    hide Join, LegalJoin, NoticesOnly, Admission, DataFor, HandlePacket, LegalPacket, Leave, JoinMissed;
    var c, cli, connect := WithoutHead(s.core), s.core.queue[0].cli, s.core.queue[0].connect;
    JoinNotices(c, s.settings, cli, connect, ch);
    more := [];
    assert s.core.queue[1..] + [] == s.core.queue[1..];
    if Admission(c, s.settings, cli).Some? {
      JoinRefused(c, s.settings, cli, connect, ch);
      more := [DisconnectPlayer(cli.guid)];
    } else {
      JoinFrame(c, s.settings, cli, connect, ch);
    }
  }

  lemma ServedLeaveFifo(s: Sys, ch: Choice)
    requires FifoInv(s) && CanServe(s, ch) && (s.core.queue[0].DisconnectPlayer? || s.core.queue[0].Shutdown?)
    ensures FifoInv(ServedHead(s, ch))
  {
    var s1 := Dequeued(s);
    ServedSessions(s, ch);
    SameBroadcasts(s.core.broadcasts);
    hide FifoInv, Leave, NoticesOnly;
    if s.core.queue[0].DisconnectPlayer? {
      LeaveNoticesOnly(s1.core, s.core.queue[0].guid, ch.undone, ch.bye);
      LeaveFrame(s1.core, s.core.queue[0].guid, ch.undone, ch.bye);
    }
    assert s.core.queue[1..] + [] == s.core.queue[1..];
    NoticeFifo(s, ServedHead(s, ch), []);
  }

  lemma ServedFifo(s: Sys, ch: Choice)
    requires FifoInv(s) && CanServe(s, ch)
    ensures FifoInv(ServedHead(s, ch))
  {
    hide FifoInv, ServePacket, ServeJoin, ServeLeave, LegalPacket, LegalJoin;
    match s.core.queue[0]
    case PacketCommand(from, p) => ServePacketFifo(Dequeued(s), s, from, p, ch);
    case NewPlayer(_, _) => ServedJoinFifo(s, ch);
    case _ => ServedLeaveFifo(s, ch);
  }

  lemma SameBroadcasts(b: seq<Msg>)
    ensures NoticesOnly(b, b)
  {
  }

  lemma ForwardedFifo(s: Sys, sid: Sid)
    requires FifoInv(s) && Enabled(s, Forward(sid))
    ensures FifoInv(Forwarded(s, sid))
  {
    hide RelaysOf, QueueOf, ForwardedAt;
    var s', p := Forwarded(s, sid), s.sessions[sid].hand.value;
    if !CoordinatorUp(s) {
      LostFifo(s, sid);
    } else {
      forall a | a in s'.sessions
        ensures ForwardedAt(s'.sessions[a], QueueOf(a, s'.core.queue), RelaysOf(a, s'.core.broadcasts), a !in s'.stopped)
      {
        QueueOfAppend(a, s.core.queue, PacketCommand(sid, p));
        var queued := QueueOf(a, s.core.queue);
        assert queued + [] == queued;
        assert ForwardedAt(s.sessions[a], queued, RelaysOf(a, s.core.broadcasts), a !in s.stopped);
        if a == sid {
          MoreForwarded(s.sessions[a], p, queued, RelaysOf(a, s.core.broadcasts), a !in s.stopped);
        }
      }
    }
  }

  lemma LostFifo(s: Sys, sid: Sid)
    requires FifoInv(s) && Enabled(s, Forward(sid)) && !CoordinatorUp(s)
    ensures FifoInv(Forwarded(s, sid))
  {
    hide FifoInv, RelaysOf, QueueOf;
    SameForwarded(s, Forwarded(s, sid));
  }

  /** Only sessions that exist have had anything relayed. */
  ghost predicate SendersKnown(broadcasts: seq<Msg>, sids: set<Sid>) {
    forall i :: 0 <= i < |broadcasts| && broadcasts[i].kind.Relayed? ==> broadcasts[i].kind.from in sids
  }

  lemma NobodyRelayed(s: Sys, sid: Sid)
    requires Wf(s) && SendersKnown(s.core.broadcasts, s.sessions.Keys) && sid !in s.sessions
    ensures QueueOf(sid, s.core.queue) == [] && RelaysOf(sid, s.core.broadcasts) == []
  {
    FilterNone(IsFrom(sid), s.core.broadcasts);
    forall i | 0 <= i < |s.core.queue|
      ensures !(s.core.queue[i].PacketCommand? && s.core.queue[i].from == sid)
    {
      assert CommandWf(s.core.queue[i], Known(s.sessions), Newcomers(s.sessions));
    }
    QueueOfNone(sid, s.core.queue);
  }

  lemma NewForwarded(x: Session)
    requires x.forwarded == [] && x.served == 0
    ensures ForwardedAt(x, [], [], true)
  {
    assert Passed([]) == [];
  }

  lemma ArrivedFifo(s: Sys, sid: Sid, ip: Ip, connect: Packet)
    requires Wf(s) && FifoInv(s) && SendersKnown(s.core.broadcasts, s.sessions.Keys)
    requires sid !in s.sessions && connect.data.Connect?
    ensures FifoInv(Arrived(s, sid, ip, connect))
  {
    NobodyRelayed(s, sid);
    hide Wf, RelaysOf, FifoInv, NewProfile, QueueOf, SendersKnown;
    NewFifo(s, Arrived(s, sid, ip, connect), sid, NewPlayer(Joiner(sid, connect.id, ip, sid), connect));
  }

  lemma NewFifo(s: Sys, s': Sys, x: Sid, cmd: Command<Sid>)
    requires FifoInv(s) && x !in s.sessions && x in s'.sessions && s'.sessions == s.sessions[x := s'.sessions[x]]
    requires s'.sessions[x].forwarded == [] && s'.sessions[x].served == 0
    requires !cmd.PacketCommand? && s'.core.queue == s.core.queue + [cmd]
    requires s'.core.broadcasts == s.core.broadcasts && s'.stopped == s.stopped
    requires QueueOf(x, s.core.queue) == [] && RelaysOf(x, s.core.broadcasts) == []
    ensures FifoInv(s')
  {
    NewForwarded(s'.sessions[x]);
    hide RelaysOf, ForwardedAt, QueueOf;
    forall a | a in s'.sessions
      ensures ForwardedAt(s'.sessions[a], QueueOf(a, s'.core.queue), RelaysOf(a, s'.core.broadcasts), a !in s'.stopped)
    {
      QueueOfAppend(a, s.core.queue, cmd);
      assert QueueOf(a, s.core.queue) + [] == QueueOf(a, s.core.queue);
    }
  }

  lemma ServedSenders(s: Sys, ch: Choice)
    requires SendersKnown(s.core.broadcasts, s.sessions.Keys) && CanServe(s, ch)
    ensures SendersKnown(ServedHead(s, ch).core.broadcasts, s.sessions.Keys)
  {
    var s1 := Dequeued(s);
    hide HandlePacket, Join, Leave, LegalPacket, LegalJoin, Resize;
    match s.core.queue[0]
    case PacketCommand(from, p) => PacketBroadcasts(s1.core, from, p, ch);
    case NewPlayer(cli, connect) => JoinNotices(s1.core, s.settings, cli, connect, ch);
    case DisconnectPlayer(g) => LeaveNoticesOnly(s1.core, g, ch.undone, ch.bye);
    case Shutdown =>
  }

  lemma DrainedFifo(s: Sys, g: Guid, undone: set<Sid>, bye: bool)
    requires FifoInv(s) && Enabled(s, Drain(g, undone, bye))
    ensures FifoInv(Step(s, Drain(g, undone, bye)))
  {
    hide FifoInv, Leave, NoticesOnly, RelaysOf;
    LeaveNoticesOnly(s.core, g, undone, bye);
    LeaveFrame(s.core, g, undone, bye);
    var s' := Step(s, Drain(g, undone, bye));
    forall a | a in s.sessions ensures RelaysOf(a, s'.core.broadcasts) == RelaysOf(a, s.core.broadcasts) {
      NoticesKeepRelays(a, s.core.broadcasts, s'.core.broadcasts);
    }
    SameForwarded(s, s');
  }

  lemma SessionStepFifo(s: Sys, l: Label)
    requires FifoInv(s) && Enabled(s, l) && (l.Take? || l.Deliver? || l.End? || l.FireSync? || l.AskShutdown?)
    ensures FifoInv(Step(s, l))
  {
    hide FifoInv, CanServe, ServedHead, ServeLeave, Arrived, Forwarded, OnPacket, RelaysOf, QueueOf, Append,
      LegalShines,
      Writes, EndsSession;
    var s' := Step(s, l);
    match l {
      case End(sid) =>
        if CoordinatorUp(s) {
          QuietQueueChange(s, s', DisconnectPlayer(s.sessions[sid].guid));
        }
      case AskShutdown => QuietQueueChange(s, s', Shutdown);
      case _ =>
    }
    SameForwarded(s, s');
  }

  lemma StepFifo(s: Sys, l: Label)
    requires Wf(s) && FifoInv(s) && SendersKnown(s.core.broadcasts, s.sessions.Keys) && Enabled(s, l)
    ensures FifoInv(Step(s, l))
  {
    hide Wf, FifoInv, SendersKnown, CanServe, ServedHead, ServeLeave, Arrived, Took, Forwarded;
    match l
    case Arrive(sid, ip, connect) => ArrivedFifo(s, sid, ip, connect);
    case Forward(sid) => ForwardedFifo(s, sid);
    case Serve(ch) => ServedFifo(s, ch);
    case Drain(g, undone, bye) => DrainedFifo(s, g, undone, bye);
    case _ => SessionStepFifo(s, l);
  }

  lemma StepSenders(s: Sys, l: Label)
    requires SendersKnown(s.core.broadcasts, s.sessions.Keys) && Enabled(s, l)
    ensures SendersKnown(Step(s, l).core.broadcasts, Step(s, l).sessions.Keys)
  {
    hide CanServe, ServedHead, Leave, OnPacket, NewProfile;
    match l
    case Serve(ch) =>
      ServedSenders(s, ch);
      ServedKeys(s, ch);
    case Drain(g, undone, bye) => LeaveNoticesOnly(s.core, g, undone, bye);
    case _ =>
  }

  lemma ServedKeys(s: Sys, ch: Choice)
    requires CanServe(s, ch)
    ensures ServedHead(s, ch).sessions.Keys == s.sessions.Keys
  {
    hide HandlePacket, Join, Leave, LegalPacket, LegalJoin, Admission, DataFor;
  }

  // ---- what a session has written ----

  /** Logs only ever grow at their ends. */
  ghost predicate Grows(log: map<Sid, seq<Msg>>, log': map<Sid, seq<Msg>>) {
    forall x :: x in log ==> x in log' && log[x] <= log'[x]
  }

  lemma AppendGrows(log: map<Sid, seq<Msg>>, add: map<Sid, seq<Msg>>)
    ensures Grows(log, Append(log, add))
  {
  }

  lemma GrowsTrans(a: map<Sid, seq<Msg>>, b: map<Sid, seq<Msg>>, c: map<Sid, seq<Msg>>)
    requires Grows(a, b) && Grows(b, c)
    ensures Grows(a, c)
  {
    forall x | x in a ensures x in c && a[x] <= c[x] {
      assert x in b;
    }
  }

  lemma GrowsSelf(a: map<Sid, seq<Msg>>)
    ensures Grows(a, a)
  {
  }

  lemma LeaveGrows(c: Core<Sid>, g: Guid, undone: set<Sid>, bye: bool)
    ensures Grows(c.log, Leave(c, g, undone, bye).core.log)
  {
    hide Grows, Append, To, Resize;
    GrowsSelf(c.log);
    if g in c.toClients {
      var c1 := Unregister(c, g);
      var m := Msg(Resize(DisconnectPacket(g)), Notice);
      var log1 := Append(c.log, To(undone, [m]));
      AppendGrows(c.log, To(undone, [m]));
      var bye := To({c.toClients[g]}, [Msg(DisconnectPacket(g), Notice)]);
      AppendGrows(log1, bye);
      GrowsTrans(c.log, log1, Append(log1, bye));
    }
  }

  lemma SetupGrows(c: Core<Sid>, sid: Sid, connect: Packet, maxPlayers: u16, ch: Choice)
    requires HandlesLive(c) && LegalOrder(c, ch.order) && ch.cut <= |IntroAll(c, ch.order, maxPlayers)|
    ensures Grows(c.log, Setup(c, sid, connect, maxPlayers, ch).core.log)
  {
    hide Grows, Append, To, Resize, IntroAll;
    var c1, m := Introduce(c, sid, maxPlayers, ch.order, ch.cut), Msg(Resize(connect), Notice);
    AppendGrows(c.log, To({sid}, IntroAll(c, ch.order, maxPlayers)[..ch.cut]));
    AppendGrows(c1.log, To(ch.reached, [m]));
    GrowsTrans(c.log, c1.log, Append(c1.log, To(ch.reached, [m])));
  }

  lemma JoinGrows(c: Core<Sid>, settings: Settings, cli: Joiner<Sid>, connect: Packet, ch: Choice)
    requires LegalJoin(c, settings, cli, connect, ch)
    ensures Grows(c.log, Join(c, settings, cli, connect, ch).core.log)
  {
    hide Grows, Setup, Leave, IntroAll, Admission;
    GrowsSelf(c.log);
    if Admission(c, settings, cli) == None {
      var c1 := Register(c, cli, connect.data.cType);
      var setup := Setup(c1, cli.sid, connect, settings.maxPlayers, ch);
      SetupGrows(c1, cli.sid, connect, settings.maxPlayers, ch);
      LeaveGrows(setup.core, cli.guid, ch.undone, ch.bye);
      GrowsTrans(c.log, setup.core.log, Leave(setup.core, cli.guid, ch.undone, ch.bye).core.log);
    }
  }

  lemma PacketGrows(c: Core<Sid>, from: Sid, p: Packet, ch: Choice)
    requires LegalPacket(c, p, ch)
    ensures Grows(c.log, HandlePacket(c, from, p, ch).core.log)
  {
    hide Grows, Append, To, Resize, ShineSends, LegalShines, Synced, IsReset, IsWaterfall, StartSpeedrun;
    GrowsSelf(c.log);
    AppendGrows(c.log, ShineSends(ch.shines));
    if !p.data.Shine? && ((IsReset(p.data) || IsWaterfall(p.data)) ==> p.id in c.clients) {
      var log1, m := BeforeBroadcast(c, p, ch).log, Msg(Resize(p), Relayed(from));
      AppendGrows(log1, To(ch.reached, [m]));
      GrowsTrans(c.log, log1, Append(log1, To(ch.reached, [m])));
    }
  }

  lemma GrownWritten(s: Sys, s': Sys)
    requires WrittenInv(s) && s'.sessions.Keys == s.sessions.Keys && Grows(s.core.log, s'.core.log)
    requires forall x :: x in s.sessions ==>
               && s'.sessions[x].guid == s.sessions[x].guid && s'.sessions[x].taken == s.sessions[x].taken
               && s'.sessions[x].written == s.sessions[x].written && s'.sessions[x].dropped == s.sessions[x].dropped
    ensures WrittenInv(s')
  {
    hide Foreign;
    forall x | x in s'.sessions ensures x in s'.core.log && WrittenAt(s'.sessions[x], s'.core.log[x]) {
      assert WrittenAt(s.sessions[x], s.core.log[x]);
      var n := s.sessions[x].taken;
      assert s'.core.log[x][..n] == s.core.log[x][..n];
    }
  }

  lemma ServedGrows(s: Sys, ch: Choice)
    requires CanServe(s, ch)
    ensures Grows(s.core.log, ServedHead(s, ch).core.log)
  {
    var c := WithoutHead(s.core);
    hide Grows, HandlePacket, Join, Leave, LegalPacket, LegalJoin, Admission, DataFor;
    match s.core.queue[0]
    case PacketCommand(from, p) => PacketGrows(c, from, p, ch);
    case NewPlayer(cli, connect) => JoinGrows(c, s.settings, cli, connect, ch);
    case DisconnectPlayer(g) => LeaveGrows(c, g, ch.undone, ch.bye);
    case Shutdown => GrowsSelf(s.core.log);
  }

  lemma ServedWritten(s: Sys, ch: Choice)
    requires WrittenInv(s) && CanServe(s, ch)
    ensures WrittenInv(ServedHead(s, ch))
  {
    hide WrittenInv, Grows, ServedHead, CanServe;
    ServedGrows(s, ch);
    ServedSessions(s, ch);
    GrownWritten(s, ServedHead(s, ch));
  }

  lemma DeliveredAt(x: Session, log: seq<Msg>, written: seq<Packet>, dropped: nat)
    requires WrittenAt(x, log) && x.taken < |log|
    requires var p := log[x.taken].packet;
             if !Writes(x.guid, p) then written == x.written && dropped == x.dropped
             else (written == x.written + [p] && dropped == x.dropped) || (written == x.written && dropped == x.dropped + 1)
    ensures WrittenAt(x.(taken := x.taken + 1, written := written, dropped := dropped), log)
  {
    hide Foreign, Subseq;
    var m := log[x.taken];
    assert log[..x.taken + 1] == log[..x.taken] + [m];
    ForeignConcat(x.guid, log[..x.taken], [m]);
    SingleForeign(x.guid, m);
    var foreign := Foreign(x.guid, log[..x.taken]);
    assert foreign + [] == foreign;
    SubseqSnoc(x.written, foreign, m.packet);
  }

  lemma DeliveredWritten(s: Sys, sid: Sid, wrote: bool)
    requires WrittenInv(s) && Enabled(s, Deliver(sid, wrote))
    ensures WrittenInv(Delivered(s, sid, wrote))
  {
    hide Foreign, Subseq, CanServe, LegalShines;
    var s', x, log := Delivered(s, sid, wrote), s.sessions[sid], s.core.log[sid];
    assert WrittenAt(x, log);
    DeliveredAt(x, log, s'.sessions[sid].written, s'.sessions[sid].dropped);
  }

  lemma SessionStepWritten(s: Sys, l: Label)
    requires WrittenInv(s) && Enabled(s, l) && !l.Deliver? && !l.Serve? && !l.Arrive?
    ensures WrittenInv(Step(s, l))
  {
    hide WrittenInv, Grows, CanServe, ServedHead, Leave, LeaveMissed, Arrived, OnPacket, Append, To, LegalShines,
      Delivered;
    var s' := Step(s, l);
    match l {
      case FireSync(i, ids) =>
        var d := s.core.delayed[i];
        AppendGrows(s.core.log, To({d.chan}, ShineMsgs(d.guid, ids)));
      case Drain(g, undone, bye) => LeaveGrows(s.core, g, undone, bye);
      case _ => GrowsSelf(s.core.log);
    }
    GrownWritten(s, s');
  }

  lemma ArrivedWritten(s: Sys, sid: Sid, ip: Ip, connect: Packet)
    requires WrittenInv(s) && sid !in s.sessions && connect.data.Connect?
    ensures WrittenInv(Arrived(s, sid, ip, connect))
  {
    hide NewProfile;
    var s' := Arrived(s, sid, ip, connect);
    assert Foreign(connect.id, []) == [];
    forall x | x in s'.sessions ensures x in s'.core.log && WrittenAt(s'.sessions[x], s'.core.log[x]) {
      if x != sid {
        assert WrittenAt(s.sessions[x], s.core.log[x]);
      }
    }
  }

  lemma StepWritten(s: Sys, l: Label)
    requires WrittenInv(s) && Enabled(s, l)
    ensures WrittenInv(Step(s, l))
  {
    hide WrittenInv, CanServe, ServedHead, ServeLeave, Arrived, Took, Delivered;
    match l
    case Arrive(sid, ip, connect) => ArrivedWritten(s, sid, ip, connect);
    case Deliver(sid, wrote) => DeliveredWritten(s, sid, wrote);
    case Serve(ch) => ServedWritten(s, ch);
    case _ => SessionStepWritten(s, l);
  }

  // ---- whole runs ----

  lemma InitialFifo(s: Sys)
    requires Initial(s)
    ensures FifoInv(s) && SendersKnown(s.core.broadcasts, s.sessions.Keys) && WrittenInv(s)
  {
  }

  lemma {:induction false} RunFifo(run: seq<Sys>, labels: seq<Label>, n: nat)
    requires IsRun(run, labels) && n < |run|
    ensures FifoInv(run[n]) && SendersKnown(run[n].core.broadcasts, run[n].sessions.Keys) && WrittenInv(run[n])
  {
    hide Wf, FifoInv, SendersKnown, WrittenInv, Step, Enabled;
    if n == 0 {
      InitialFifo(run[0]);
    } else {
      RunFifo(run, labels, n - 1);
      RunWf(run, labels, n - 1);
      StepFifo(run[n - 1], labels[n - 1]);
      StepSenders(run[n - 1], labels[n - 1]);
      StepWritten(run[n - 1], labels[n - 1]);
    }
  }

  /** Nothing is lost between two games.  As long as no broadcast has missed `b`: what `a` forwarded and was to be passed
      on is, in order, what was broadcast before `b` joined, what `b` has handled, what waits in its inbox, and what
      waits in the coordinator's queue, exactly if no command of `a` has failed before its broadcast.  What has failed
      elsewhere does not matter. */
  lemma Conservation(run: seq<Sys>, labels: seq<Label>, n: nat, a: Sid, g: Guid)
    requires IsRun(run, labels) && n < |run|
    requires var s := run[n]; a in s.sessions && g in s.core.toClients && s.core.toClients[g] !in s.missed
    ensures var s := run[n]; var b := s.core.toClients[g];
            && b in s.sessions && b in s.core.log && s.sessions[b].taken <= |s.core.log[b]|
            && s.sessions[b].joinedAt <= |s.core.broadcasts|
            && (Passed(s.sessions[a].forwarded)
                == RelaysOf(a, s.core.broadcasts[..s.sessions[b].joinedAt])
                   + RelaysOf(a, s.core.log[b][..s.sessions[b].taken])
                   + RelaysOf(a, s.core.log[b][s.sessions[b].taken..])
                   + Passed(QueueOf(a, s.core.queue))
                <==> a !in s.stopped)
  {
    RunFifo(run, labels, n);
    BroadcastOrderHolds(run, labels, n);
    RunWf(run, labels, n);
    ConservationAt(run[n], a, g);
  }

  lemma ConservationAt(s: Sys, a: Sid, g: Guid)
    requires Wf(s) && FifoInv(s) && WrittenInv(s) && OrderInv(s)
    requires a in s.sessions && g in s.core.toClients && s.core.toClients[g] !in s.missed
    ensures var b := s.core.toClients[g];
            && b in s.sessions && b in s.core.log && s.sessions[b].taken <= |s.core.log[b]|
            && s.sessions[b].joinedAt <= |s.core.broadcasts|
            && (Passed(s.sessions[a].forwarded)
                == RelaysOf(a, s.core.broadcasts[..s.sessions[b].joinedAt])
                   + RelaysOf(a, s.core.log[b][..s.sessions[b].taken])
                   + RelaysOf(a, s.core.log[b][s.sessions[b].taken..])
                   + Passed(QueueOf(a, s.core.queue))
                <==> a !in s.stopped)
  {
    hide Wf, Passed, RelaysOf, Public, QueueOf, Foreign, Subseq;
    var b := s.core.toClients[g];
    RegisteredLog(s, g);
    assert WrittenAt(s.sessions[b], s.core.log[b]);
    assert ForwardedAt(s.sessions[a], QueueOf(a, s.core.queue), RelaysOf(a, s.core.broadcasts), a !in s.stopped);
    ForwardedSplit(s.sessions[a], QueueOf(a, s.core.queue), RelaysOf(a, s.core.broadcasts), a !in s.stopped);
    RelaysSplit(a, s.core.broadcasts, s.sessions[b].joinedAt, s.core.log[b], s.sessions[b].taken);
  }

  /** A registered session that none of them has missed has been sent all broadcasts since it joined. */
  lemma RegisteredLog(s: Sys, g: Guid)
    requires OrderInv(s) && g in s.core.toClients && s.core.toClients[g] !in s.missed
    requires Wf(s)
    ensures var b := s.core.toClients[g];
            && b in s.sessions && b in s.core.log && s.sessions[b].joinedAt <= |s.core.broadcasts|
            && Public(s.core.log[b]) == s.core.broadcasts[s.sessions[b].joinedAt..]
  {
    RegisteredSession(s, g);
    hide Public, Wf, Ordered, CompleteAt;
    var b := s.core.toClients[g];
    assert JoinedAt(s.sessions)[b] == s.sessions[b].joinedAt;
    assert CompleteAt(s.core, b, s.sessions[b].joinedAt);
    WholeLog(s.core, g, s.sessions[b].joinedAt);
  }

  lemma WholeLog(c: Core<Sid>, g: Guid, at: nat)
    requires g in c.toClients && CompleteAt(c, c.toClients[g], at)
    ensures c.toClients[g] in c.log && at <= |c.broadcasts| && Public(c.log[c.toClients[g]]) == c.broadcasts[at..]
  {
    hide Public;
    assert c.toClients[g] in Everyone(c);
  }

  lemma RegisteredSession(s: Sys, g: Guid)
    requires Wf(s) && g in s.core.toClients
    ensures var b := s.core.toClients[g];
            b in s.sessions && s.sessions[b].guid == g && b in JoinedAt(s.sessions)
  {
    hide QueueWf, SessionsWf, FreshWf;
    assert g in s.core.clients;
  }

  lemma ForwardedSplit(x: Session, queued: seq<Packet>, relayed: seq<Packet>, exact: bool)
    requires ForwardedAt(x, queued, relayed, exact)
    ensures Passed(x.forwarded) == relayed + Passed(queued) <==> exact
  {
    hide Passed;
    assert x.forwarded == x.forwarded[..x.served] + x.forwarded[x.served..];
    PassedConcat(x.forwarded[..x.served], x.forwarded[x.served..]);
    assert |Passed(x.forwarded)| == |Passed(x.forwarded[..x.served])| + |Passed(queued)|;
  }

  lemma RelaysSplit(a: Sid, broadcasts: seq<Msg>, at: nat, log: seq<Msg>, taken: nat)
    requires at <= |broadcasts| && taken <= |log| && Public(log) == broadcasts[at..]
    ensures RelaysOf(a, broadcasts)
         == RelaysOf(a, broadcasts[..at]) + RelaysOf(a, log[..taken]) + RelaysOf(a, log[taken..])
  {
    hide RelaysOf, Public;
    assert broadcasts == broadcasts[..at] + broadcasts[at..];
    RelaysConcat(a, broadcasts[..at], broadcasts[at..]);
    RelaysArePublic(a, log);
    assert log == log[..taken] + log[taken..];
    RelaysConcat(a, log[..taken], log[taken..]);
    var x, y, z := RelaysOf(a, broadcasts[..at]), RelaysOf(a, log[..taken]), RelaysOf(a, log[taken..]);
    assert x + (y + z) == x + y + z;
  }

  /** In every run, whatever fails: what `b` was sent of `a`, followed by what still waits in the coordinator's
      queue, is a subsequence of what `a` forwarded; and `b` never writes a packet that bears its own guid. */
  lemma OrderAndNoEcho(run: seq<Sys>, labels: seq<Label>, n: nat, a: Sid, b: Sid)
    requires IsRun(run, labels) && n < |run|
    requires a in run[n].sessions && b in Known(run[n].sessions)
    ensures var s := run[n];
            && b in s.core.log
            && Subseq(RelaysOf(a, s.core.log[b]) + Passed(QueueOf(a, s.core.queue)), Passed(s.sessions[a].forwarded))
            && forall i :: 0 <= i < |s.sessions[b].written| ==> s.sessions[b].written[i].id != s.sessions[b].guid
  {
    RunFifo(run, labels, n);
    BroadcastOrderHolds(run, labels, n);
    OrderKept(run[n], a, b);
    NoEcho(run[n], b);
  }

  lemma OrderKept(s: Sys, a: Sid, b: Sid)
    requires FifoInv(s) && OrderInv(s) && a in s.sessions && b in Known(s.sessions)
    ensures b in s.core.log
    ensures Subseq(RelaysOf(a, s.core.log[b]) + Passed(QueueOf(a, s.core.queue)), Passed(s.sessions[a].forwarded))
  {
    hide Passed, Public, QueueOf, RelaysOf, Subseq, InOrder;
    JoinedAtKnown(s.sessions);
    var at := JoinedAt(s.sessions)[b];
    assert OrderAt(s.core, b, at);
    var log, since, all := s.core.log[b], s.core.broadcasts[at..], s.core.broadcasts;
    var fwd, served := s.sessions[a].forwarded, s.sessions[a].served;
    var queued, relayed := QueueOf(a, s.core.queue), RelaysOf(a, all);
    assert ForwardedAt(s.sessions[a], queued, relayed, a !in s.stopped);
    SentOfBroadcasts(a, log, since);
    SuffixRelays(a, all, at);
    SubseqTrans(RelaysOf(a, log), RelaysOf(a, since), relayed);
    SubseqTrans(RelaysOf(a, log), relayed, Passed(fwd[..served]));
    assert fwd == fwd[..served] + fwd[served..];
    PassedConcat(fwd[..served], fwd[served..]);
    SubseqSelf(Passed(queued));
    SubseqConcat(RelaysOf(a, log), Passed(fwd[..served]), Passed(queued), Passed(queued));
  }

  lemma SentOfBroadcasts(a: Sid, log: seq<Msg>, since: seq<Msg>)
    requires InOrder(log, since)
    ensures Subseq(RelaysOf(a, log), RelaysOf(a, since))
  {
    hide Public, Subseq, Filter, Map;
    RelaysArePublic(a, log);
    SubseqFilter(IsFrom(a), Public(log), since);
    SubseqMap(PacketOf(), Filter(IsFrom(a), Public(log)), Filter(IsFrom(a), since));
  }

  lemma SuffixRelays(a: Sid, ms: seq<Msg>, at: nat)
    requires at <= |ms|
    ensures Subseq(RelaysOf(a, ms[at..]), RelaysOf(a, ms))
  {
    assert ms == ms[..at] + ms[at..];
    RelaysConcat(a, ms[..at], ms[at..]);
    var x, y := RelaysOf(a, ms[..at]), RelaysOf(a, ms[at..]);
    SubseqSelf(y);
    SubseqConcat([], x, y, y);
    assert [] + y == y;
  }

  lemma NoEcho(s: Sys, b: Sid)
    requires WrittenInv(s) && b in s.sessions
    ensures forall i :: 0 <= i < |s.sessions[b].written| ==> s.sessions[b].written[i].id != s.sessions[b].guid
  {
    var x := s.sessions[b];
    assert WrittenAt(x, s.core.log[b]);
    SubseqElements(IsForeign(x.guid), x.written, Foreign(x.guid, s.core.log[b][..x.taken]));
  }

  lemma {:induction false} SubseqElements<T>(p: T -> bool, a: seq<T>, b: seq<T>)
    requires Subseq(a, b) && forall i :: 0 <= i < |b| ==> p(b[i])
    ensures forall i :: 0 <= i < |a| ==> p(a[i])
    decreases |b|
  {
    if a != [] && b != [] {
      var m, n := |a| - 1, |b| - 1;
      if a[m] == b[n] && Subseq(a[..m], b[..n]) {
        SubseqElements(p, a[..m], b[..n]);
      } else {
        SubseqElements(p, a, b[..n]);
      }
    }
  }
}
