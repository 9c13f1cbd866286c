/** From game to game: what one game encodes is what the others decode, over TCP and UDP. */
module Arrival {
  import opened Utf8
  import opened Wire
  import opened Packets
  import opened CodecTheorems
  import opened Framing
  import opened Protocol
  import opened ClientTask
  import opened Sequences
  import opened System
  import opened Structure
  import opened TotalOrder
  import opened Messages
  import opened Fifo
  import opened EndToEnd
  import opened History
  import opened Routing
  import opened Admission
  import Proxy

  // ---- whose packets a game decodes ----

  /** Data that, after the introductions, only a player's own game can have sent: the server makes none of it up and
      passes all of it on. */
  predicate Passable(d: PacketData) {
    !(d.Connect? || d.Disconnect? || d.Shine? || d.UdpInit?)
  }

  function IsPassable(): Packet -> bool {
    (p: Packet) => Passable(p.data)
  }

  /** A game can tell these by looking at the packet. */
  function OfPlayer(g: Guid): Packet -> bool {
    (p: Packet) => p.id == g && Passable(p.data)
  }

  function IsRelayOf(g: Guid): Msg -> bool {
    (m: Msg) => m.kind.Relayed? && m.packet.id == g
  }

  /** The packets among some messages that were relayed from any session of one player. */
  function PlayerRelays(g: Guid, ms: seq<Msg>): seq<Packet> {
    Map(PacketOf(), Filter(IsRelayOf(g), ms))
  }

  lemma PlayerRelaysConcat(g: Guid, x: seq<Msg>, y: seq<Msg>)
    ensures PlayerRelays(g, x + y) == PlayerRelays(g, x) + PlayerRelays(g, y)
  {
    FilterConcat(IsRelayOf(g), x, y);
    MapConcat(PacketOf(), Filter(IsRelayOf(g), x), Filter(IsRelayOf(g), y));
  }

  lemma SinglePlayerRelay(g: Guid, m: Msg)
    ensures PlayerRelays(g, [m]) == if m.kind.Relayed? && m.packet.id == g then [m.packet] else []
  {
    SingleFilter(IsRelayOf(g), m);
  }

  lemma NoMessages(g: Guid)
    ensures Foreign(g, []) == [] && PlayerRelays(g, []) == []
    ensures forall keep: Packet -> bool :: Filter(keep, []) == []
  {
  }

  /** Among what is written to one game after its introductions, the packets of another player are those that were
      relayed from that player's sessions. */
  lemma {:induction false} RelaysArrive(g: Guid, to: Guid, ms: seq<Msg>, unpadded: bool)
    requires AllIn(ms, IsSendable(unpadded)) && NoneIn(ms) && g != to
    ensures Filter(OfPlayer(g), Foreign(to, ms)) == Filter(IsPassable(), PlayerRelays(g, ms))
  {
    hide Filter, Map, Readable, Canonical, Foreign, PlayerRelays, Passable;
    if ms == [] {
      NoMessages(to);
      NoMessages(g);
    } else {
      var n := |ms| - 1;
      var m := ms[n];
      RelaysArrive(g, to, ms[..n], unpadded);
      assert ms == ms[..n] + [m];
      ForeignConcat(to, ms[..n], [m]);
      PlayerRelaysConcat(g, ms[..n], [m]);
      FilterConcat(OfPlayer(g), Foreign(to, ms[..n]), Foreign(to, [m]));
      FilterConcat(IsPassable(), PlayerRelays(g, ms[..n]), PlayerRelays(g, [m]));
      RelayArrives(g, to, m, unpadded);
    }
  }

  lemma RelayArrives(g: Guid, to: Guid, m: Msg, unpadded: bool)
    requires Sendable(m, unpadded) && m.kind != Intro && g != to
    ensures Filter(OfPlayer(g), Foreign(to, [m])) == Filter(IsPassable(), PlayerRelays(g, [m]))
  {
    hide Filter, Map, Readable, Canonical, Foreign, PlayerRelays;
    SingleForeign(to, m);
    SinglePlayerRelay(g, m);
    SingleFilter(OfPlayer(g), m.packet);
    SingleFilter(IsPassable(), m.packet);
    NoMessages(g);
  }

  /** Relays are broadcasts. */
  lemma {:induction false} PlayerRelaysArePublic(g: Guid, ms: seq<Msg>)
    ensures PlayerRelays(g, Public(ms)) == PlayerRelays(g, ms)
  {
    hide Filter, Map, PlayerRelays;
    if ms == [] {
      FilterNone(IsPublic(), ms);
    } else {
      var n := |ms| - 1;
      PlayerRelaysArePublic(g, ms[..n]);
      assert ms == ms[..n] + [ms[n]];
      FilterConcat(IsPublic(), ms[..n], [ms[n]]);
      SingleFilter(IsPublic(), ms[n]);
      PlayerRelaysConcat(g, ms[..n], [ms[n]]);
      PlayerRelaysConcat(g, Public(ms[..n]), Filter(IsPublic(), [ms[n]]));
      SinglePlayerRelay(g, ms[n]);
      NoMessages(g);
    }
  }

  // ---- what a session has written ----

  /** How many of the messages a session has handled were introductions. */
  function IntrosTaken(y: Session): nat {
    if y.introLen <= y.taken then y.introLen else y.taken
  }

  /** How many packets it has written for its introductions. */
  function IntrosWritten(y: Session, log: seq<Msg>): nat
    requires y.taken <= |log|
  {
    |Foreign(y.guid, log[..IntrosTaken(y)])|
  }

  /** What a session has written is its introductions and then the rest. */
  lemma WrittenParts(y: Session, log: seq<Msg>)
    requires WrittenAt(y, log) && y.dropped == 0
    ensures var i := IntrosTaken(y);
            && i <= y.taken <= |log| && IntrosWritten(y, log) <= |y.written|
            && y.written[..IntrosWritten(y, log)] == Foreign(y.guid, log[..i])
            && y.written[IntrosWritten(y, log)..] == Foreign(y.guid, log[i..y.taken])
  {
    hide Foreign, Subseq;
    var i := IntrosTaken(y);
    assert log[..y.taken] == log[..i] + log[i..y.taken];
    ForeignConcat(y.guid, log[..i], log[i..y.taken]);
  }

  lemma AfterIntros(log: seq<Msg>, y: Session)
    requires IntrosFirst(log, y.introLen) && y.taken <= |log|
    ensures NoneIn(log[IntrosTaken(y)..y.taken])
  {
    if y.introLen <= y.taken {
      forall i | y.introLen <= i < y.taken ensures log[i].kind != Intro {
      }
    }
  }

  lemma IntrosAreNotMovement(log: seq<Msg>, y: Session, unpadded: bool)
    requires IntrosFirst(log, y.introLen) && AllIn(log, IsSendable(unpadded)) && y.taken <= |log|
    ensures forall i :: 0 <= i < |Foreign(y.guid, log[..IntrosTaken(y)])| ==>
              NotMovement()(Foreign(y.guid, log[..IntrosTaken(y)])[i])
  {
    hide Filter, Readable, Canonical;
    var ms := log[..IntrosTaken(y)];
    forall i | 0 <= i < |ms| ensures NotMovement()(Map(PacketOf(), ms)[i]) {
      assert Sendable(log[i], unpadded) && log[i].kind == Intro;
    }
    FilterElements(IsForeign(y.guid), Map(PacketOf(), ms), NotMovement());
  }

  // ---- a player's packets at another game ----

  /** What holds in every state of a run on packets from the wire. */
  ghost predicate Reached(s: Sys) {
    HistoryInv(s) && OrderInv(s) && SendableInv(s, true) && WrittenInv(s) && FifoInv(s) && Wf(s)
  }

  lemma RunReached(run: seq<Sys>, labels: seq<Label>, n: nat)
    requires IsRun(run, labels) && n < |run| && AllFromWire(labels, true)
    ensures Reached(run[n])
  {
    hide IsRun, AllFromWire, HistoryInv, OrderInv, SendableInv, WrittenInv, FifoInv, SendersKnown, Wf;
    RunWf(run, labels, n);
    RunHistory(run, labels, n);
    BroadcastOrderHolds(run, labels, n);
    RunSendable(run, labels, n, true);
    RunFifo(run, labels, n);
  }

  /** The registered session of `to` is in order, and no socket write of it has failed. */
  ghost predicate Receives(s: Sys, to: Guid) {
    && to in s.core.toClients
    && var b := s.core.toClients[to];
       && b in s.sessions && b in s.core.log && s.sessions[b].guid == to && s.sessions[b].dropped == 0
       && s.sessions[b].taken <= |s.core.log[b]| && s.sessions[b].joinedAt <= |s.core.broadcasts|
       && IntrosWritten(s.sessions[b], s.core.log[b]) <= |s.sessions[b].written|
  }

  /** That is all it takes: being registered, and no failed socket write. */
  lemma RegisteredReceives(run: seq<Sys>, labels: seq<Label>, n: nat, to: Guid)
    requires IsRun(run, labels) && n < |run| && AllFromWire(labels, true)
    requires var s := run[n];
             && to in s.core.toClients
             && (s.core.toClients[to] in s.sessions ==> s.sessions[s.core.toClients[to]].dropped == 0)
    ensures Receives(run[n], to)
  {
    hide IsRun, AllFromWire, Wf, Receives, HistoryInv, OrderInv, SendableInv, WrittenInv, FifoInv;
    RunReached(run, labels, n);
    ReceivesIf(run[n], to);
  }

  lemma ReceivesIf(s: Sys, to: Guid)
    requires WrittenInv(s) && OrderInv(s) && to in s.core.toClients
    requires var b := s.core.toClients[to]; b in s.sessions ==> s.sessions[b].dropped == 0
    requires Wf(s)
    ensures Receives(s, to)
  {
    var b := s.core.toClients[to];
    RegisteredSession(s, to);
    JoinedBefore(s, b);
    hide Foreign, Wf, Subseq, OrderInv;
    assert WrittenAt(s.sessions[b], s.core.log[b]);
    WrittenParts(s.sessions[b], s.core.log[b]);
  }

  lemma JoinedBefore(s: Sys, x: Sid)
    requires OrderInv(s) && x in JoinedAt(s.sessions)
    ensures x in s.sessions && x in s.core.log && s.sessions[x].joinedAt <= |s.core.broadcasts|
  {
    hide Complete, InOrder;
    assert OrderAt(s.core, x, JoinedAt(s.sessions)[x]);
  }

  /** After its introductions, a game has been written exactly what was relayed from another player, whichever of the
      player's sessions it came from, since it joined and as far as its session has got, packet for packet: provided
      only that no broadcast has missed that session and no socket write of it has failed. */
  lemma PlayerArrives(run: seq<Sys>, labels: seq<Label>, n: nat, g: Guid, to: Guid)
    requires IsRun(run, labels) && n < |run| && AllFromWire(labels, true)
    requires g != to && Receives(run[n], to) && run[n].core.toClients[to] !in run[n].missed
    ensures var s := run[n]; var b := s.core.toClients[to]; var y, log := s.sessions[b], s.core.log[b];
            Filter(IsPassable(), PlayerRelays(g, s.core.broadcasts[y.joinedAt..]))
            == Filter(OfPlayer(g), y.written[IntrosWritten(y, log)..])
               + Filter(IsPassable(), PlayerRelays(g, log[y.taken..]))
  {
    hide IsRun, AllFromWire;
    RunReached(run, labels, n);
    PlayerArrivesAt(run[n], g, to);
  }

  lemma PlayerArrivesAt(s: Sys, g: Guid, to: Guid)
    requires Reached(s) && g != to && Receives(s, to) && s.core.toClients[to] !in s.missed
    ensures var b := s.core.toClients[to]; var y, log := s.sessions[b], s.core.log[b];
            Filter(IsPassable(), PlayerRelays(g, s.core.broadcasts[y.joinedAt..]))
            == Filter(OfPlayer(g), y.written[IntrosWritten(y, log)..])
               + Filter(IsPassable(), PlayerRelays(g, log[y.taken..]))
  {
    hide FifoInv, HeapOk, QueueOk, HandsOk, Filter, Map, Foreign, PlayerRelays, Public, Readable, Canonical, Subseq,
      IsSendable, Wf;
    var b := s.core.toClients[to];
    var y, log := s.sessions[b], s.core.log[b];
    var i := IntrosTaken(y);
    assert WrittenAt(y, log) && IntrosFirst(log, y.introLen) && AllIn(log, IsSendable(true));
    RegisteredLog(s, to);
    WrittenParts(y, log);
    AfterIntros(log, y);
    RelaysArrive(g, to, log[i..y.taken], true);
    IntrosAreNoRelays(g, log[..i]);
    PlayerRelaysArePublic(g, log);
    RelayParts(g, log, i, y.taken);
  }

  lemma IntrosAreNoRelays(g: Guid, ms: seq<Msg>)
    requires forall i :: 0 <= i < |ms| ==> ms[i].kind == Intro
    ensures PlayerRelays(g, ms) == []
  {
    hide Filter;
    FilterNone(IsRelayOf(g), ms);
  }

  lemma RelayParts(g: Guid, log: seq<Msg>, i: nat, taken: nat)
    requires i <= taken <= |log| && PlayerRelays(g, log[..i]) == []
    ensures Filter(IsPassable(), PlayerRelays(g, log))
         == Filter(IsPassable(), PlayerRelays(g, log[i..taken])) + Filter(IsPassable(), PlayerRelays(g, log[taken..]))
  {
    hide Filter, PlayerRelays;
    assert log == log[..i] + (log[i..taken] + log[taken..]);
    PlayerRelaysConcat(g, log[..i], log[i..taken] + log[taken..]);
    PlayerRelaysConcat(g, log[i..taken], log[taken..]);
    assert [] + PlayerRelays(g, log[i..taken] + log[taken..]) == PlayerRelays(g, log[i..taken] + log[taken..]);
    FilterConcat(IsPassable(), PlayerRelays(g, log[i..taken]), PlayerRelays(g, log[taken..]));
  }

  /** However a session's output is split over its two connections, the bytes of each come back packet by packet; the
      introductions come first on the TCP connection; and after them the packets of any player are split over what is
      decoded from the two connections: each in order, together all of them, and what is not movement all by TCP. */
  lemma SplitArrives(run: seq<Sys>, labels: seq<Label>, n: nat, to: Guid, overTcp: seq<Packet>, overUdp: seq<Packet>,
                     g: Guid)
    requires IsRun(run, labels) && n < |run| && AllFromWire(labels, true) && Receives(run[n], to)
    requires Routed(run[n].sessions[run[n].core.toClients[to]].written, overTcp, overUdp)
    ensures var s := run[n]; var b := s.core.toClients[to]; var y, log := s.sessions[b], s.core.log[b];
            var tcp, udp, i := ParseAll(EncodeAll(overTcp)), ParseAll(EncodeAll(overUdp)), IntrosWritten(y, log);
            && tcp == Stream(overTcp, []) && udp == Stream(overUdp, [])
            && y.written[..i] <= tcp.packets
            && Routed(Filter(OfPlayer(g), y.written[i..]), Filter(OfPlayer(g), tcp.packets[i..]),
                      Filter(OfPlayer(g), udp.packets))
  {
    hide IsRun, AllFromWire, ParseAll, EncodeAll;
    RunReached(run, labels, n);
    var s := run[n];
    var b := s.core.toClients[to];
    hide HistoryInv, OrderInv, SendableInv, WrittenInv, FifoInv, Routed, Subseq, Filter, Foreign;
    RoutedInOrder(s.sessions[b].written, overTcp, overUdp);
    OutputParses(run, labels, n, b, overTcp);
    OutputParses(run, labels, n, b, overUdp);
    SplitAfterIntros(s, to, overTcp, overUdp);
    RoutedFilter(OfPlayer(g), s.sessions[b].written[IntrosWritten(s.sessions[b], s.core.log[b])..],
                 overTcp[IntrosWritten(s.sessions[b], s.core.log[b])..], overUdp);
  }

  lemma SplitAfterIntros(s: Sys, to: Guid, overTcp: seq<Packet>, overUdp: seq<Packet>)
    requires Reached(s) && Receives(s, to) && Routed(s.sessions[s.core.toClients[to]].written, overTcp, overUdp)
    ensures var b := s.core.toClients[to]; var y := s.sessions[b]; var i := IntrosWritten(y, s.core.log[b]);
            y.written[..i] <= overTcp && Routed(y.written[i..], overTcp[i..], overUdp)
  {
    hide OrderInv, FifoInv, HeapOk, QueueOk, HandsOk, Routed, Subseq, Foreign, IsSendable, Wf;
    var b := s.core.toClients[to];
    var y, log := s.sessions[b], s.core.log[b];
    assert WrittenAt(y, log) && IntrosFirst(log, y.introLen) && AllIn(log, IsSendable(true));
    WrittenParts(y, log);
    IntrosAreNotMovement(log, y, true);
    var i := IntrosWritten(y, log);
    assert y.written == y.written[..i] + y.written[i..];
    RoutedAfter(y.written[..i], y.written[i..], overTcp, overUdp);
  }

  // ---- from the sender's task to the receiver's game ----

  /** Since the given broadcast, none of the player's other sessions has had anything passed on. */
  ghost predicate OnlySender(s: Sys, a: Sid, at: nat) {
    && a in s.sessions && at <= |s.core.broadcasts|
    && forall x :: x in s.sessions && x != a && s.sessions[x].guid == s.sessions[a].guid ==>
         RelaysOf(x, s.core.broadcasts[at..]) == []
  }

  lemma {:induction false} RelaysContain(x: Sid, ms: seq<Msg>, i: nat)
    requires i < |ms| && ms[i].kind == Relayed(x)
    ensures RelaysOf(x, ms) != []
  {
    hide Filter, RelaysOf;
    assert ms == ms[..i] + [ms[i]] + ms[i + 1..];
    RelaysConcat(x, ms[..i] + [ms[i]], ms[i + 1..]);
    RelaysConcat(x, ms[..i], [ms[i]]);
    SingleRelay(x, ms[i]);
  }

  lemma PlayerIsSession(s: Sys, a: Sid, ms: seq<Msg>)
    requires AllIn(ms, IsStamped(GuidsOf(s.sessions))) && a in s.sessions
    requires forall x :: x in s.sessions && x != a && s.sessions[x].guid == s.sessions[a].guid ==> RelaysOf(x, ms) == []
    ensures PlayerRelays(s.sessions[a].guid, ms) == RelaysOf(a, ms)
  {
    hide Filter, RelaysOf;
    var g := s.sessions[a].guid;
    forall i | 0 <= i < |ms| ensures IsRelayOf(g)(ms[i]) == IsFrom(a)(ms[i]) {
      assert IsStamped(GuidsOf(s.sessions))(ms[i]);
      if ms[i].kind.Relayed? && ms[i].packet.id == g && ms[i].kind.from != a {
        RelaysContain(ms[i].kind.from, ms, i);
      }
    }
    FilterSame(IsRelayOf(g), IsFrom(a), ms);
    SameRelays(a, ms);
  }

  lemma SameRelays(a: Sid, ms: seq<Msg>)
    ensures RelaysOf(a, ms) == Map(PacketOf(), Filter(IsFrom(a), ms))
  {
  }

  /** If no command of the sender has failed before its broadcast either: what a session has forwarded and is to be
      passed on is, in order, what was broadcast before the other game joined, what that game has been written, what is
      in its inbox, and what is in the coordinator's queue. */
  lemma ForwardedArrives(run: seq<Sys>, labels: seq<Label>, n: nat, a: Sid, to: Guid)
    requires IsRun(run, labels) && n < |run| && AllFromWire(labels, true) && OwnGuids(run, labels)
    requires Receives(run[n], to) && run[n].core.toClients[to] !in run[n].missed && a !in run[n].stopped
    requires OnlySender(run[n], a, run[n].sessions[run[n].core.toClients[to]].joinedAt) && run[n].sessions[a].guid != to
    ensures var s := run[n]; var b := s.core.toClients[to]; var y, log, g := s.sessions[b], s.core.log[b], s.sessions[a].guid;
            Filter(IsPassable(), Passed(s.sessions[a].forwarded))
            == Filter(IsPassable(), RelaysOf(a, s.core.broadcasts[..y.joinedAt]))
               + (Filter(OfPlayer(g), y.written[IntrosWritten(y, log)..])
                  + Filter(IsPassable(), PlayerRelays(g, log[y.taken..])))
               + Filter(IsPassable(), Passed(QueueOf(a, s.core.queue)))
  {
    hide IsRun, AllFromWire, OwnGuids;
    PlayerArrives(run, labels, n, run[n].sessions[a].guid, to);
    RunReached(run, labels, n);
    RunStamped(run, labels, n);
    ForwardedArrivesAt(run[n], a, run[n].sessions[run[n].core.toClients[to]].joinedAt);
  }

  lemma ForwardedArrivesAt(s: Sys, a: Sid, at: nat)
    requires FifoInv(s) && StampedInv(s) && a !in s.stopped && OnlySender(s, a, at)
    ensures Filter(IsPassable(), Passed(s.sessions[a].forwarded))
         == Filter(IsPassable(), RelaysOf(a, s.core.broadcasts[..at]))
            + Filter(IsPassable(), PlayerRelays(s.sessions[a].guid, s.core.broadcasts[at..]))
            + Filter(IsPassable(), Passed(QueueOf(a, s.core.queue)))
  {
    hide Filter, Map, Passed, QueueOf, RelaysOf, PlayerRelays, Subseq, IsStamped, QueueStamped, HandsStamped;
    var all := s.core.broadcasts;
    assert ForwardedAt(s.sessions[a], QueueOf(a, s.core.queue), RelaysOf(a, all), a !in s.stopped);
    ForwardedSplit(s.sessions[a], QueueOf(a, s.core.queue), RelaysOf(a, all), true);
    assert AllIn(all[at..], IsStamped(GuidsOf(s.sessions)));
    PlayerIsSession(s, a, all[at..]);
    assert all == all[..at] + all[at..];
    RelaysConcat(a, all[..at], all[at..]);
    FilterConcat(IsPassable(), RelaysOf(a, all), Passed(QueueOf(a, s.core.queue)));
    FilterConcat(IsPassable(), RelaysOf(a, all[..at]), RelaysOf(a, all[at..]));
  }

  // ---- from the sender's bytes ----

  /** The packets a session has taken from its game, in order. */
  function TakenBy(labels: seq<Label>, a: Sid): seq<Packet> {
    if labels == [] then []
    else
      var l := labels[|labels| - 1];
      TakenBy(labels[..|labels| - 1], a) + if l.Take? && l.sid == a then [l.packet] else []
  }

  function IsForwarded(): Packet -> bool {
    (p: Packet) => Forwards(p)
  }

  function InHand(x: Session): seq<Packet> {
    if x.hand.Some? then [x.hand.value] else []
  }

  lemma TakenSnoc(labels: seq<Label>, n: nat, a: Sid)
    requires n < |labels|
    ensures TakenBy(labels[..n + 1], a)
         == TakenBy(labels[..n], a) + if labels[n].Take? && labels[n].sid == a then [labels[n].packet] else []
  {
    assert labels[..n + 1][..n] == labels[..n];
  }

  /** What a session has forwarded, and what it has in hand. */
  ghost predicate TakenIs(s: Sys, labels: seq<Label>, a: Sid) {
    if a in s.sessions then Filter(IsForwarded(), TakenBy(labels, a)) == s.sessions[a].forwarded + InHand(s.sessions[a])
    else TakenBy(labels, a) == []
  }

  lemma UpBefore(s: Sys, l: Label)
    requires Enabled(s, l) && CoordinatorUp(Step(s, l))
    ensures CoordinatorUp(s)
  {
    hide HandlePacket, Join, Leave, LegalPacket, LegalJoin, OnPacket, NewProfile, LegalShines, Protocol.Admission,
      DataFor;
  }

  /** Only two steps of a session change what it has forwarded and has in hand. */
  lemma StepForwarded(s: Sys, l: Label, a: Sid)
    requires Enabled(s, l) && CoordinatorUp(s) && a in s.sessions
    ensures a in Step(s, l).sessions
    ensures var x, x' := s.sessions[a], Step(s, l).sessions[a];
            x'.forwarded + InHand(x') == x.forwarded + InHand(x)
                                        + if l.Take? && l.sid == a && Forwards(l.packet) then [l.packet] else []
  {
    hide CanServe, ServedHead, Leave, OnPacket, NewProfile, LegalShines, Fire, Writes, EndsSession, Forwards;
    var x := s.sessions[a];
    assert x.forwarded + InHand(x) + [] == x.forwarded + InHand(x);
    if l.Serve? {
      ServedSessionsOf(s, l.choice, a);
    }
    if l.Forward? && l.sender == a {
      assert x.forwarded + [x.hand.value] + [] == x.forwarded + [x.hand.value];
    }
    if l.Take? && l.sid == a {
      assert x.forwarded + [] == x.forwarded;
    }
  }

  lemma ServedSessionsOf(s: Sys, ch: Choice, a: Sid)
    requires CanServe(s, ch) && a in s.sessions
    ensures var s' := ServedHead(s, ch);
            a in s'.sessions && s'.sessions[a].forwarded == s.sessions[a].forwarded && s'.sessions[a].hand == s.sessions[a].hand
  {
    ServedSessions(s, ch);
    ServedHands(s, ch);
  }

  lemma NewSession(s: Sys, l: Label, a: Sid)
    requires Enabled(s, l) && a !in s.sessions && a in Step(s, l).sessions
    ensures !l.Take? && Step(s, l).sessions[a].forwarded == [] && Step(s, l).sessions[a].hand == None
  {
    hide CanServe, ServedHead, Leave, OnPacket, NewProfile, LegalShines, Fire, Writes, EndsSession;
    if l.Serve? {
      ServedKeys(s, l.choice);
      assert false;
    }
  }

  /** While the coordinator is up, nothing a session takes is lost: the packets to be forwarded are those that were
      and the one in its hand. */
  lemma {:induction false} TakenInRuns(run: seq<Sys>, labels: seq<Label>, n: nat, a: Sid)
    requires IsRun(run, labels) && n < |run| && CoordinatorUp(run[n])
    ensures TakenIs(run[n], labels[..n], a)
  {
    hide Step, Enabled, CoordinatorUp;
    if n == 0 {
      assert labels[..0] == [];
    } else {
      var s, l := run[n - 1], labels[n - 1];
      UpBefore(s, l);
      TakenInRuns(run, labels, n - 1, a);
      TakenSnoc(labels, n - 1, a);
      StepTaken(s, l, labels[..n - 1], labels[..n], a);
    }
  }

  lemma StepTaken(s: Sys, l: Label, before: seq<Label>, after: seq<Label>, a: Sid)
    requires Enabled(s, l) && CoordinatorUp(s) && TakenIs(s, before, a)
    requires TakenBy(after, a) == TakenBy(before, a) + if l.Take? && l.sid == a then [l.packet] else []
    ensures TakenIs(Step(s, l), after, a)
  {
    TakesKnown(s, l);
    hide Step, Enabled, Filter, TakenBy, Forwards, CoordinatorUp;
    if a in s.sessions {
      StepForwarded(s, l, a);
      MoreTaken(TakenBy(before, a), l, a);
    } else if a in Step(s, l).sessions {
      NewSession(s, l, a);
      FilterNone(IsForwarded(), []);
    }
  }

  lemma MoreTaken(taken: seq<Packet>, l: Label, a: Sid)
    ensures var (more, sent) := (if l.Take? && l.sid == a then [l.packet] else [],
                                 if l.Take? && l.sid == a && Forwards(l.packet) then [l.packet] else []);
            Filter(IsForwarded(), taken + more) == Filter(IsForwarded(), taken) + sent
  {
    hide Filter, Forwards;
    assert taken + [] == taken;
    assert Filter(IsForwarded(), taken) + [] == Filter(IsForwarded(), taken);
    if l.Take? && l.sid == a {
      FilterConcat(IsForwarded(), taken, [l.packet]);
      SingleFilter(IsForwarded(), l.packet);
    }
  }

  lemma TakesKnown(s: Sys, l: Label)
    requires Enabled(s, l)
    ensures l.Take? ==> l.sid in s.sessions
  {
  }

  /** Resizing changes no canonical packet, and what is passable is passed on. */
  lemma {:induction false} PassableIsPassed(ps: seq<Packet>)
    requires AllCanonical(ps)
    ensures Filter(IsPassable(), Passed(Filter(IsForwarded(), ps))) == Filter(IsPassable(), ps)
  {
    hide Filter, Map, Passed, Canonical, Passable;
    if ps == [] {
      FilterNone(IsForwarded(), ps);
      PassedEmpty();
    } else {
      var n := |ps| - 1;
      var p := ps[n];
      PassableIsPassed(ps[..n]);
      assert ps == ps[..n] + [p];
      FilterConcat(IsForwarded(), ps[..n], [p]);
      FilterConcat(IsPassable(), ps[..n], [p]);
      PassedConcat(Filter(IsForwarded(), ps[..n]), Filter(IsForwarded(), [p]));
      FilterConcat(IsPassable(), Passed(Filter(IsForwarded(), ps[..n])), Passed(Filter(IsForwarded(), [p])));
      PassableIsPassedOne(p);
    }
  }

  lemma PassedEmpty()
    ensures Passed([]) == []
  {
  }

  lemma PassableIsPassedOne(p: Packet)
    requires Canonical(p)
    ensures Filter(IsPassable(), Passed(Filter(IsForwarded(), [p]))) == Filter(IsPassable(), [p])
  {
    hide Filter, Passed, CanonicalData;
    SingleFilter(IsForwarded(), p);
    SingleFilter(IsPassable(), p);
    PassedEmpty();
    SinglePassed(p);
    FilterNone(IsPassable(), []);
    CanonicalResize(p);
  }

  lemma CanonicalResize(p: Packet)
    requires Canonical(p)
    ensures Resize(p) == p
  {
  }

  /** How many packets of `a` were passed on before the game of `to` joined. */
  function TooEarly(s: Sys, a: Sid, to: Guid): nat
    requires Receives(s, to)
  {
    |Filter(IsPassable(), RelaysOf(a, s.core.broadcasts[..s.sessions[s.core.toClients[to]].joinedAt]))|
  }

  /** How many packets of `a` are on their way to the game of `to`: in its inbox, in the coordinator's queue, and in
      the hand of `a`. */
  function Underway(s: Sys, a: Sid, to: Guid): nat
    requires Receives(s, to) && a in s.sessions
  {
    var b := s.core.toClients[to];
    |Filter(IsPassable(), PlayerRelays(s.sessions[a].guid, s.core.log[b][s.sessions[b].taken..]))|
    + |Filter(IsPassable(), Passed(QueueOf(a, s.core.queue)))|
    + |Filter(IsPassable(), Passed(InHand(s.sessions[a])))|
  }

  /** A run on packets from the wire, in which games stamp their own guid, no command of `a` has failed before its
      broadcast, and no broadcast has missed the session of `to`; and since that one joined, nothing came from any
      other session of the player of `a`. */
  ghost predicate Exchange(run: seq<Sys>, labels: seq<Label>, n: nat, a: Sid, to: Guid) {
    && IsRun(run, labels) && n < |run| && AllFromWire(labels, true) && OwnGuids(run, labels)
    && Receives(run[n], to) && run[n].core.toClients[to] !in run[n].missed && a !in run[n].stopped
    && OnlySender(run[n], a, run[n].sessions[run[n].core.toClients[to]].joinedAt)
    && run[n].sessions[a].guid != to
  }

  /** What `sent` has brought to the game of `to` by now: all that is to be passed on, but for what came before the
      game joined and what is still on its way. */
  ghost predicate Brought(s: Sys, a: Sid, to: Guid, sent: seq<Packet>, passed: seq<Packet>)
    requires Receives(s, to) && a in s.sessions
  {
    var all := Filter(IsPassable(), sent);
    && TooEarly(s, a, to) + Underway(s, a, to) <= |all|
    && passed == all[TooEarly(s, a, to)..|all| - Underway(s, a, to)]
  }

  lemma Middle(all: seq<Packet>, x: seq<Packet>, y: seq<Packet>, z: seq<Packet>, u: seq<Packet>, v: seq<Packet>)
    requires all == x + (y + z) + u + v
    ensures |x| + (|z| + |u| + |v|) <= |all| && y == all[|x|..|all| - (|z| + |u| + |v|)]
  {
  }

  /** All that is to be passed on has been forwarded or is in hand. */
  lemma SentIsForwarded(x: Session, sent: seq<Packet>)
    requires AllCanonical(sent) && Filter(IsForwarded(), sent) == x.forwarded + InHand(x)
    ensures Filter(IsPassable(), sent)
         == Filter(IsPassable(), Passed(x.forwarded)) + Filter(IsPassable(), Passed(InHand(x)))
  {
    hide Filter, Passed, Canonical, InHand;
    PassableIsPassed(sent);
    PassedConcat(x.forwarded, InHand(x));
    FilterConcat(IsPassable(), Passed(x.forwarded), Passed(InHand(x)));
  }

  lemma TakenInFull(run: seq<Sys>, labels: seq<Label>, n: nat, a: Sid, to: Guid, sent: seq<Packet>)
    requires Exchange(run, labels, n, a, to) && TakenBy(labels[..n], a) == sent
    ensures Filter(IsForwarded(), sent) == run[n].sessions[a].forwarded + InHand(run[n].sessions[a])
  {
    ShutdownDrains(run, labels, n);
    assert CoordinatorUp(run[n]);
    hide IsRun, AllFromWire, OwnGuids, Filter, TakenBy;
    TakenInRuns(run, labels, n, a);
  }

  /** What `a` has forwarded, part by part. */
  ghost predicate Parts(s: Sys, a: Sid, to: Guid, arrived: seq<Packet>)
    requires Receives(s, to) && a in s.sessions
  {
    var b := s.core.toClients[to];
    Filter(IsPassable(), Passed(s.sessions[a].forwarded))
    == Filter(IsPassable(), RelaysOf(a, s.core.broadcasts[..s.sessions[b].joinedAt]))
       + (arrived
          + Filter(IsPassable(), PlayerRelays(s.sessions[a].guid, s.core.log[b][s.sessions[b].taken..])))
       + Filter(IsPassable(), Passed(QueueOf(a, s.core.queue)))
  }

  lemma BroughtAt(s: Sys, a: Sid, to: Guid, sent: seq<Packet>, arrived: seq<Packet>)
    requires Receives(s, to) && a in s.sessions && Parts(s, a, to, arrived) && AllCanonical(sent)
    requires Filter(IsForwarded(), sent) == s.sessions[a].forwarded + InHand(s.sessions[a])
    ensures Brought(s, a, to, sent, arrived)
  {
    hide Filter, Map, RelaysOf, PlayerRelays, Passed, QueueOf, Canonical;
    SentIsForwarded(s.sessions[a], sent);
    var b := s.core.toClients[to];
    Middle(Filter(IsPassable(), sent),
           Filter(IsPassable(), RelaysOf(a, s.core.broadcasts[..s.sessions[b].joinedAt])), arrived,
           Filter(IsPassable(), PlayerRelays(s.sessions[a].guid, s.core.log[b][s.sessions[b].taken..])),
           Filter(IsPassable(), Passed(QueueOf(a, s.core.queue))),
           Filter(IsPassable(), Passed(InHand(s.sessions[a]))));
  }

  lemma DeliveredInFull(run: seq<Sys>, labels: seq<Label>, n: nat, a: Sid, to: Guid, sent: seq<Packet>)
    requires Exchange(run, labels, n, a, to) && AllCanonical(sent) && TakenBy(labels[..n], a) == sent
    ensures var s := run[n]; var b := s.core.toClients[to]; var y, log := s.sessions[b], s.core.log[b];
            Brought(s, a, to, sent, Filter(OfPlayer(s.sessions[a].guid), y.written[IntrosWritten(y, log)..]))
  {
    hide IsRun, AllFromWire, OwnGuids, Filter, TakenBy, AllCanonical, Brought, RelaysOf, PlayerRelays, Passed, QueueOf;
    TakenInFull(run, labels, n, a, to, sent);
    ForwardedArrives(run, labels, n, a, to);
    var y := run[n].sessions[run[n].core.toClients[to]];
    var log := run[n].core.log[run[n].core.toClients[to]];
    BroughtAt(run[n], a, to, sent, Filter(OfPlayer(run[n].sessions[a].guid), y.written[IntrosWritten(y, log)..]));
  }

  /** Some packets have come in over two connections: each has its share in order, together they are all, everything
      that is not movement came by TCP, and all of it if nothing came by UDP; and if no movement came by TCP, all
      movement came by UDP. */
  ghost predicate InFull(passed: seq<Packet>, byTcp: seq<Packet>, byUdp: seq<Packet>) {
    && Routed(passed, byTcp, byUdp)
    && |passed| == |byTcp| + |byUdp| && Subseq(byTcp, passed) && Subseq(byUdp, passed)
    && Filter(NotMovement(), byTcp) == Filter(NotMovement(), passed)
    && (byUdp == [] ==> byTcp == passed)
    && ((forall k :: 0 <= k < |byTcp| ==> !Proxy.IsMovement(byTcp[k])) ==> byUdp == Filter(OnlyMovement(), passed))
  }

  /** What a game has decoded of a player, after its own introductions. */
  ghost predicate Decodes(s: Sys, to: Guid, g: Guid, passed: seq<Packet>, tcp: seq<Packet>, udp: seq<Packet>)
    requires Receives(s, to)
  {
    var y, log := s.sessions[s.core.toClients[to]], s.core.log[s.core.toClients[to]];
    IntrosWritten(y, log) <= |tcp|
    && InFull(passed, Filter(OfPlayer(g), tcp[IntrosWritten(y, log)..]), Filter(OfPlayer(g), udp))
  }

  lemma RoutedInFull(passed: seq<Packet>, byTcp: seq<Packet>, byUdp: seq<Packet>)
    requires Routed(passed, byTcp, byUdp)
    ensures InFull(passed, byTcp, byUdp)
  {
    hide Filter, Routed, Subseq, Proxy.IsMovement;
    RoutedInOrder(passed, byTcp, byUdp);
    RoutedOverTcp(passed, byTcp, byUdp);
    if byUdp == [] {
      RoutedWithoutUdp(passed, byTcp);
    }
    if forall k :: 0 <= k < |byTcp| ==> !Proxy.IsMovement(byTcp[k]) {
      RoutedOverUdp(passed, byTcp, byUdp);
    }
  }

  /** From the bytes of one game to the bytes of another.  Game `a` encodes the packets `sent`, and its session reads
      them in pieces of any size.  The other session's output is split over TCP and UDP in any way, and read in pieces
      of any size.  Then the other game finds on the TCP connection first its introductions and then, under the guid of
      `a`, together with what it finds on the UDP connection, exactly what `a` sent: from the moment it joined, and up
      to what is still on its way. */
  lemma GameToGame(run: seq<Sys>, labels: seq<Label>, n: nat, a: Sid, to: Guid, sent: seq<Packet>, read: seq<seq<byte>>,
                   overTcp: seq<Packet>, overUdp: seq<Packet>, readTcp: seq<seq<byte>>, readUdp: seq<seq<byte>>)
    returns (passed: seq<Packet>)
    requires Exchange(run, labels, n, a, to)
    requires AllCanonical(sent) && Concat(read) == EncodeAll(sent) && TakenBy(labels[..n], a) == Feed([], read).packets
    requires Routed(run[n].sessions[run[n].core.toClients[to]].written, overTcp, overUdp)
    requires Concat(readTcp) == EncodeAll(overTcp) && Concat(readUdp) == EncodeAll(overUdp)
    ensures Brought(run[n], a, to, sent, passed)
    ensures Decodes(run[n], to, run[n].sessions[a].guid, passed, Feed([], readTcp).packets, Feed([], readUdp).packets)
  {
    ExchangeIs(run, labels, n, a, to);
    var s := run[n];
    var b := s.core.toClients[to];
    passed := Filter(OfPlayer(s.sessions[a].guid), s.sessions[b].written[IntrosWritten(s.sessions[b], s.core.log[b])..]);
    hide *;
    ReadInPieces(read);
    ReadInPieces(readTcp);
    ReadInPieces(readUdp);
    WireRoundTrip(sent);
    DeliveredInFull(run, labels, n, a, to, sent);
    SplitInFull(run, labels, n, to, overTcp, overUdp, s.sessions[a].guid, passed);
  }

  lemma ExchangeIs(run: seq<Sys>, labels: seq<Label>, n: nat, a: Sid, to: Guid)
    requires Exchange(run, labels, n, a, to)
    ensures IsRun(run, labels) && n < |run| && AllFromWire(labels, true) && Receives(run[n], to) && a in run[n].sessions
    ensures to in run[n].core.toClients && run[n].core.toClients[to] in run[n].sessions
    ensures run[n].core.toClients[to] in run[n].core.log
  {
    hide IsRun, AllFromWire, OwnGuids;
  }

  lemma ReadInPieces(chunks: seq<seq<byte>>)
    ensures Feed([], chunks) == ParseAll(Concat(chunks))
  {
    ChunkIndependence([], chunks);
    assert [] + Concat(chunks) == Concat(chunks);
  }

  lemma SplitInFull(run: seq<Sys>, labels: seq<Label>, n: nat, to: Guid, overTcp: seq<Packet>, overUdp: seq<Packet>,
                    g: Guid, passed: seq<Packet>)
    requires IsRun(run, labels) && n < |run| && AllFromWire(labels, true) && Receives(run[n], to)
    requires Routed(run[n].sessions[run[n].core.toClients[to]].written, overTcp, overUdp)
    requires var s := run[n]; var b := s.core.toClients[to];
             Filter(OfPlayer(g), s.sessions[b].written[IntrosWritten(s.sessions[b], s.core.log[b])..]) == passed
    ensures Decodes(run[n], to, g, passed, ParseAll(EncodeAll(overTcp)).packets, ParseAll(EncodeAll(overUdp)).packets)
  {
    hide IsRun, AllFromWire, Filter, ParseAll, EncodeAll, Routed, Subseq, InFull;
    SplitArrives(run, labels, n, to, overTcp, overUdp, g);
    var s := run[n];
    var b := s.core.toClients[to];
    var i := IntrosWritten(s.sessions[b], s.core.log[b]);
    assert |s.sessions[b].written[..i]| == i;
    RoutedInFull(passed, Filter(OfPlayer(g), ParseAll(EncodeAll(overTcp)).packets[i..]),
                 Filter(OfPlayer(g), ParseAll(EncodeAll(overUdp)).packets));
  }

  /** In every run on packets from the wire, with game packets that come without padding: however a session's output
      is split over its two connections, the bytes of each come back packet by packet, and together they are all of
      the output, with everything that is not movement in order on the TCP connection. */
  lemma OutputOverBoth(run: seq<Sys>, labels: seq<Label>, n: nat, x: Sid, overTcp: seq<Packet>, overUdp: seq<Packet>)
    requires IsRun(run, labels) && n < |run| && AllFromWire(labels, true) && x in run[n].sessions
    requires Routed(run[n].sessions[x].written, overTcp, overUdp)
    ensures ParseAll(EncodeAll(overTcp)) == Stream(overTcp, []) && ParseAll(EncodeAll(overUdp)) == Stream(overUdp, [])
    ensures |run[n].sessions[x].written| == |overTcp| + |overUdp|
    ensures Filter(NotMovement(), ParseAll(EncodeAll(overTcp)).packets)
         == Filter(NotMovement(), run[n].sessions[x].written)
  {
    hide *;
    RoutedInOrder(run[n].sessions[x].written, overTcp, overUdp);
    RoutedOverTcp(run[n].sessions[x].written, overTcp, overUdp);
    OutputParses(run, labels, n, x, overTcp);
    OutputParses(run, labels, n, x, overUdp);
  }
}
