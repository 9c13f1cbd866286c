/** What a session was sent, without the notes on messages: after its introductions, and leaving out shines, it is the
    broadcasts since it joined. */
module History {
  import opened Utf8
  import opened Wire
  import opened Packets
  import opened CodecTheorems
  import opened Protocol
  import opened ClientTask
  import opened Sequences
  import opened System
  import opened Structure
  import opened Membership
  import opened TotalOrder
  import opened Messages
  import opened Fifo
  import opened EndToEnd

  /** A log starts with `k` introductions, and there are no others. */
  ghost predicate IntrosFirst(log: seq<Msg>, k: nat) {
    && k <= |log|
    && forall i :: 0 <= i < |log| ==> (log[i].kind == Intro <==> i < k)
  }

  /** Logs grow by messages that are not introductions. */
  ghost predicate NoIntros(a: map<Sid, seq<Msg>>, b: map<Sid, seq<Msg>>) {
    a.Keys == b.Keys && forall x :: x in a ==>
      a[x] <= b[x] && forall i :: |a[x]| <= i < |b[x]| ==> b[x][i].kind != Intro
  }

  ghost predicate NoneIn(ms: seq<Msg>) {
    forall i :: 0 <= i < |ms| ==> ms[i].kind != Intro
  }

  lemma SameNoIntros(a: map<Sid, seq<Msg>>)
    ensures NoIntros(a, a)
  {
  }

  lemma NoIntrosTrans(a: map<Sid, seq<Msg>>, b: map<Sid, seq<Msg>>, c: map<Sid, seq<Msg>>)
    requires NoIntros(a, b) && NoIntros(b, c)
    ensures NoIntros(a, c)
  {
    forall x, i | x in a && |a[x]| <= i < |c[x]| ensures c[x][i].kind != Intro {
      if i < |b[x]| {
        assert c[x][i] == b[x][i];
      }
    }
  }

  lemma AppendNoIntros(log: map<Sid, seq<Msg>>, add: map<Sid, seq<Msg>>)
    requires forall x :: x in add ==> NoneIn(add[x])
    ensures NoIntros(log, Append(log, add))
  {
    forall x, i | x in log && |log[x]| <= i < |Append(log, add)[x]| ensures Append(log, add)[x][i].kind != Intro {
      assert Append(log, add)[x][i] == add[x][i - |log[x]|];
    }
  }

  lemma BroadcastNoIntros(c: Core<Sid>, p: Packet, kind: Kind, reached: set<Sid>)
    requires kind != Intro
    ensures NoIntros(c.log, Broadcast(c, p, kind, reached).log)
  {
    hide Append, Resize, NoIntros;
    AppendNoIntros(c.log, To(reached, [Msg(Resize(p), kind)]));
  }

  lemma LeaveNoIntros(c: Core<Sid>, g: Guid, undone: set<Sid>, bye: bool)
    ensures NoIntros(c.log, Leave(c, g, undone, bye).core.log)
  {
    hide Append, Resize, NoIntros, Broadcast;
    SameNoIntros(c.log);
    if g in c.toClients {
      var c1 := Broadcast(Unregister(c, g), DisconnectPacket(g), Notice, undone);
      var notice := To({c.toClients[g]}, [Msg(DisconnectPacket(g), Notice)]);
      BroadcastNoIntros(Unregister(c, g), DisconnectPacket(g), Notice, undone);
      AppendNoIntros(c1.log, notice);
      NoIntrosTrans(c.log, c1.log, Append(c1.log, notice));
    }
  }

  lemma SyncNoIntros(c: Core<Sid>, shines: map<Sid, seq<i32>>)
    ensures NoIntros(c.log, SyncAll(c, shines).log)
  {
    hide Append, NoIntros;
    AppendNoIntros(c.log, ShineSends(shines));
  }

  lemma PacketNoIntros(c: Core<Sid>, from: Sid, p: Packet, ch: Choice)
    requires LegalPacket(c, p, ch)
    ensures NoIntros(c.log, HandlePacket(c, from, p, ch).core.log)
  {
    hide NoIntros, SyncAll, IsReset, IsWaterfall, BeforeBroadcast, Broadcast, Synced, LegalShines, Resize;
    SameNoIntros(c.log);
    if p.data.Shine? {
      SyncNoIntros(Collect(c, p.data.shineId), ch.shines);
    } else if p.data.CostumeData? && !Synced(c, ch.shines) {
      SyncNoIntros(c, ch.shines);
    } else if !((IsReset(p.data) || IsWaterfall(p.data)) && p.id !in c.clients) {
      var c1 := BeforeBroadcast(c, p, ch);
      BeforeNoIntros(c, p, ch);
      BroadcastNoIntros(c1, p, Relayed(from), ch.reached);
      NoIntrosTrans(c.log, c1.log, Broadcast(c1, p, Relayed(from), ch.reached).log);
    }
  }

  lemma BeforeNoIntros(c: Core<Sid>, p: Packet, ch: Choice)
    requires HandlesLive(c) && Coherent(c)
    requires IsReset(p.data) || IsWaterfall(p.data) ==> p.id in c.clients
    ensures NoIntros(c.log, BeforeBroadcast(c, p, ch).log)
  {
    hide NoIntros, SyncAll, IsReset, IsWaterfall;
    SameNoIntros(c.log);
    SyncNoIntros(c, ch.shines);
  }

  /** After a join the newcomer's log starts with its introductions, and nobody else got any. */
  lemma JoinIntros(c: Core<Sid>, settings: Settings, cli: Joiner<Sid>, connect: Packet, ch: Choice)
    requires LegalJoin(c, settings, cli, connect, ch) && Admission(c, settings, cli) == None
    requires cli.sid in c.log && c.log[cli.sid] == []
    ensures var log' := Join(c, settings, cli, connect, ch).core.log;
            && log'.Keys == c.log.Keys && IntrosFirst(log'[cli.sid], ch.cut)
            && NoIntros(c.log[cli.sid := []], log'[cli.sid := []])
  {
    hide IntroAll, NoIntros, Leave, Broadcast, Setup, Append, Admission, IntrosFirst;
    var c1 := Register(c, cli, connect.data.cType);
    var log1 := Introduce(c1, cli.sid, settings.maxPlayers, ch.order, ch.cut).log;
    var setup := Setup(c1, cli.sid, connect, settings.maxPlayers, ch).core;
    IntroducedLog(c1, cli.sid, settings.maxPlayers, ch.order, ch.cut);
    SetupAfterIntros(c1, cli.sid, connect, settings.maxPlayers, ch);
    LeaveNoIntros(setup, cli.guid, ch.undone, ch.bye);
    NoIntrosTrans(log1, setup.log, Leave(setup, cli.guid, ch.undone, ch.bye).core.log);
    NoIntrosKeys(log1, Join(c, settings, cli, connect, ch).core.log);
    IntrosStayFirst(log1, Join(c, settings, cli, connect, ch).core.log, cli.sid, ch.cut);
    OthersGrow(c.log, log1, Join(c, settings, cli, connect, ch).core.log, cli.sid);
  }

  lemma IntroducedLog(c: Core<Sid>, sid: Sid, maxPlayers: u16, order: seq<Guid>, cut: nat)
    requires HandlesLive(c) && LegalOrder(c, order) && cut <= |IntroAll(c, order, maxPlayers)|
    requires sid in c.log && c.log[sid] == []
    ensures var log1 := Introduce(c, sid, maxPlayers, order, cut).log;
            && log1.Keys == c.log.Keys && IntrosFirst(log1[sid], cut)
            && forall x :: x in c.log && x != sid ==> log1[x] == c.log[x]
  {
    hide IntroAll;
    IntrosAreIntros(c, order, maxPlayers);
  }

  lemma SetupAfterIntros(c: Core<Sid>, sid: Sid, connect: Packet, maxPlayers: u16, ch: Choice)
    requires HandlesLive(c) && LegalOrder(c, ch.order) && ch.cut <= |IntroAll(c, ch.order, maxPlayers)|
    ensures NoIntros(Introduce(c, sid, maxPlayers, ch.order, ch.cut).log, Setup(c, sid, connect, maxPlayers, ch).core.log)
  {
    hide IntroAll, NoIntros, Broadcast, Append;
    var c1 := Introduce(c, sid, maxPlayers, ch.order, ch.cut);
    SameNoIntros(c1.log);
    BroadcastNoIntros(c1, connect, Notice, ch.reached);
  }

  lemma IntrosStayFirst(a: map<Sid, seq<Msg>>, b: map<Sid, seq<Msg>>, x: Sid, k: nat)
    requires NoIntros(a, b) && x in a && IntrosFirst(a[x], k)
    ensures IntrosFirst(b[x], k)
  {
    forall i | 0 <= i < |b[x]| ensures b[x][i].kind == Intro <==> i < k {
      if i < |a[x]| {
        assert b[x][i] == a[x][i];
      }
    }
  }

  lemma OthersGrow(log: map<Sid, seq<Msg>>, a: map<Sid, seq<Msg>>, b: map<Sid, seq<Msg>>, sid: Sid)
    requires log.Keys == a.Keys && (forall x :: x in log && x != sid ==> a[x] == log[x]) && NoIntros(a, b)
    requires sid in log
    ensures NoIntros(log[sid := []], b[sid := []])
  {
    var log0, b0 := log[sid := []], b[sid := []];
    forall x | x in log0 ensures log0[x] <= b0[x] && forall i :: |log0[x]| <= i < |b0[x]| ==> b0[x][i].kind != Intro {
      if x != sid {
        assert a[x] == log[x];
      }
    }
  }

  // ---- whole runs ----

  ghost predicate HistoryInv(s: Sys) {
    forall x :: x in s.sessions ==> x in s.core.log && IntrosFirst(s.core.log[x], s.sessions[x].introLen)
  }

  lemma SameHistory(s: Sys, s': Sys)
    requires HistoryInv(s) && s'.sessions.Keys == s.sessions.Keys && NoIntros(s.core.log, s'.core.log)
    requires forall x :: x in s.sessions ==> s'.sessions[x].introLen == s.sessions[x].introLen
    ensures HistoryInv(s')
  {
    hide NoIntros, IntrosFirst;
    forall x | x in s'.sessions ensures x in s'.core.log && IntrosFirst(s'.core.log[x], s'.sessions[x].introLen) {
      NoIntrosKeys(s.core.log, s'.core.log);
      IntrosStayFirst(s.core.log, s'.core.log, x, s.sessions[x].introLen);
    }
  }

  lemma NoIntrosKeys(a: map<Sid, seq<Msg>>, b: map<Sid, seq<Msg>>)
    requires NoIntros(a, b)
    ensures a.Keys == b.Keys
  {
  }

  lemma ServedJoinHistory(s: Sys, cli: Joiner<Sid>, connect: Packet, ch: Choice)
    requires HistoryInv(s) && cli.sid in s.sessions && LegalJoin(s.core, s.settings, cli, connect, ch)
    requires cli.sid in s.core.log && s.core.log[cli.sid] == []
    ensures HistoryInv(ServeJoin(s, cli, connect, ch))
  {
    hide Join, LegalJoin, Admission, DataFor, NoIntros, IntrosFirst;
    var s' := ServeJoin(s, cli, connect, ch);
    if Admission(s.core, s.settings, cli).Some? {
      JoinRefused(s.core, s.settings, cli, connect, ch);
      SameNoIntros(s.core.log);
      SameHistory(s, s');
    } else {
      JoinIntros(s.core, s.settings, cli, connect, ch);
      var log, log' := s.core.log[cli.sid := []], s'.core.log[cli.sid := []];
      forall x | x in s'.sessions ensures x in s'.core.log && IntrosFirst(s'.core.log[x], s'.sessions[x].introLen) {
        if x != cli.sid {
          IntrosStayFirst(log, log', x, s.sessions[x].introLen);
        }
      }
    }
  }

  lemma ServedPacketHistory(s: Sys, from: Sid, p: Packet, ch: Choice)
    requires HistoryInv(s) && LegalPacket(s.core, p, ch) && from in s.sessions
    ensures HistoryInv(ServePacket(s, from, p, ch))
  {
    hide HandlePacket, LegalPacket, NoIntros, HistoryInv;
    ServePacketShape(s, from, p, ch);
    PacketNoIntros(s.core, from, p, ch);
    SameHistory(s, ServePacket(s, from, p, ch));
  }

  lemma ServedLeaveHistory(s: Sys, g: Guid, undone: set<Sid>, bye: bool)
    requires HistoryInv(s)
    ensures HistoryInv(ServeLeave(s, g, undone, bye))
  {
    hide Leave, NoIntros, HistoryInv;
    LeaveNoIntros(s.core, g, undone, bye);
    SameHistory(s, ServeLeave(s, g, undone, bye));
  }

  lemma DequeuedHistory(s: Sys, mode: Mode)
    requires HistoryInv(s)
    ensures HistoryInv(s.(mode := mode)) && (s.core.queue != [] ==> HistoryInv(Dequeued(s)))
  {
    hide IntrosFirst;
  }

  lemma ServedHistory(s: Sys, ch: Choice)
    requires Wf(s) && HistoryInv(s) && CanServe(s, ch)
    ensures HistoryInv(ServedHead(s, ch))
  {
    hide Wf, LegalPacket, LegalJoin, HistoryInv, ServePacket, ServeJoin, ServeLeave;
    DequeueKeepsWf(s);
    DequeuedHistory(s, s.mode);
    var s1 := Dequeued(s);
    match s.core.queue[0]
    case PacketCommand(from, p) => ServedPacketHistory(s1, from, p, ch);
    case NewPlayer(cli, connect) =>
      FreshSession(s, cli.sid);
      ServedJoinHistory(s1, cli, connect, ch);
    case DisconnectPlayer(g) => ServedLeaveHistory(s1, g, ch.undone, ch.bye);
    case Shutdown => DequeuedHistory(s1, Draining(s1.core.toClients.Keys));
  }

  lemma ArrivedHistory(s: Sys, sid: Sid, ip: Ip, connect: Packet)
    requires HistoryInv(s) && sid !in s.sessions && connect.data.Connect?
    ensures HistoryInv(Arrived(s, sid, ip, connect))
  {
    hide NewProfile;
    var s' := Arrived(s, sid, ip, connect);
    forall x | x in s'.sessions ensures x in s'.core.log && IntrosFirst(s'.core.log[x], s'.sessions[x].introLen) {
      if x != sid {
        assert IntrosFirst(s.core.log[x], s.sessions[x].introLen);
      }
    }
  }

  lemma FiredNoIntros(c: Core<Sid>, i: nat, ids: seq<i32>)
    requires i < |c.delayed|
    ensures NoIntros(c.log, Fire(c, i, ids).log)
  {
    hide NoIntros, Append;
    AppendNoIntros(c.log, To({c.delayed[i].chan}, ShineMsgs(c.delayed[i].guid, ids)));
  }

  /** The same sessions, introduced as before. */
  ghost predicate SameIntros(a: map<Sid, Session>, b: map<Sid, Session>) {
    a.Keys == b.Keys && forall x :: x in a ==> b[x].introLen == a[x].introLen
  }

  lemma UpdateIntros(a: map<Sid, Session>, x: Sid, session: Session)
    requires x in a && session.introLen == a[x].introLen
    ensures SameIntros(a, a[x := session]) && SameIntros(a, a)
  {
  }

  lemma QuietSessions(s: Sys, l: Label)
    requires Enabled(s, l) && !l.Serve? && !l.Arrive?
    ensures SameIntros(s.sessions, Step(s, l).sessions)
  {
    hide Leave, OnPacket, LegalShines, Fire, SameIntros, CanServe, Writes, EndsSession;
    match l
    case Take(x, _) => UpdateIntros(s.sessions, x, Step(s, l).sessions[x]);
    case Forward(x) => UpdateIntros(s.sessions, x, Step(s, l).sessions[x]);
    case Deliver(x, _) => UpdateIntros(s.sessions, x, Step(s, l).sessions[x]);
    case End(x) => UpdateIntros(s.sessions, x, Step(s, l).sessions[x]);
    case _ => NoUpdate(s.sessions);
  }

  lemma NoUpdate(a: map<Sid, Session>)
    ensures SameIntros(a, a)
  {
  }

  lemma StepHistory(s: Sys, l: Label)
    requires Wf(s) && HistoryInv(s) && Enabled(s, l)
    ensures HistoryInv(Step(s, l))
  {
    hide Wf, CanServe, ServedHead, Leave, Arrived, System.Took, Forwarded, Delivered, Finished, Fire, NoIntros,
      HistoryInv, LegalShines;
    match l
    case Arrive(sid, ip, connect) => ArrivedHistory(s, sid, ip, connect);
    case Serve(ch) => ServedHistory(s, ch);
    case FireSync(i, ids) =>
      QuietSessions(s, l);
      FiredNoIntros(s.core, i, ids);
      SameHistory(s, Step(s, l));
    case Drain(g, undone, bye) =>
      QuietSessions(s, l);
      LeaveNoIntros(s.core, g, undone, bye);
      SameHistory(s, Step(s, l));
    case _ =>
      QuietSessions(s, l);
      QuietStep(s, l);
      SameNoIntros(s.core.log);
      SameHistory(s, Step(s, l));
  }

  lemma {:induction false} RunHistory(run: seq<Sys>, labels: seq<Label>, n: nat)
    requires IsRun(run, labels) && n < |run|
    ensures HistoryInv(run[n])
  {
    if n > 0 {
      hide Step, Enabled, Wf, HistoryInv;
      RunHistory(run, labels, n - 1);
      RunWf(run, labels, n - 1);
      StepHistory(run[n - 1], labels[n - 1]);
    }
  }

  /** Leaving out introductions and syncs comes to the same as leaving out the first messages and all shines. */
  lemma {:induction false} PublicIsNoShine(ms: seq<Msg>, unpadded: bool)
    requires AllIn(ms, IsSendable(unpadded)) && NoneIn(ms)
    ensures Map(PacketOf(), Public(ms)) == Filter(NotShine(), Map(PacketOf(), ms))
  {
    hide Filter, Readable, Map;
    if ms == [] {
      FilterNone(IsPublic(), ms);
      EmptyMap();
      FilterNone(NotShine(), []);
    } else {
      var n := |ms| - 1;
      PublicIsNoShine(ms[..n], unpadded);
      assert ms == ms[..n] + [ms[n]];
      FilterConcat(IsPublic(), ms[..n], [ms[n]]);
      MapConcat(PacketOf(), ms[..n], [ms[n]]);
      FilterConcat(NotShine(), Map(PacketOf(), ms[..n]), Map(PacketOf(), [ms[n]]));
      MapConcat(PacketOf(), Public(ms[..n]), Filter(IsPublic(), [ms[n]]));
      PublicOne(ms[n], unpadded);
    }
  }

  lemma EmptyMap()
    ensures Map(PacketOf(), []) == []
  {
  }

  lemma PublicOne(m: Msg, unpadded: bool)
    requires Sendable(m, unpadded) && m.kind != Intro
    ensures Map(PacketOf(), Filter(IsPublic(), [m])) == Filter(NotShine(), Map(PacketOf(), [m]))
  {
    hide Filter, Readable, Canonical;
    SingleFilter(IsPublic(), m);
    SingleFilter(NotShine(), m.packet);
    assert Map(PacketOf(), [m]) == [m.packet];
  }

  lemma PublicAfterIntros(log: seq<Msg>, k: nat)
    requires IntrosFirst(log, k)
    ensures NoneIn(log[k..]) && Public(log) == Public(log[k..])
  {
    hide Filter;
    assert log == log[..k] + log[k..];
    FilterConcat(IsPublic(), log[..k], log[k..]);
    FilterNone(IsPublic(), log[..k]);
    assert [] + Public(log[k..]) == Public(log[k..]);
  }

  /** The history of a session that has joined, without notes on messages: take away its introductions, then leave out
      the shines; what is left is, packet for packet and in order, part of what was broadcast since it joined.  If no
      broadcast has missed the session while it was registered, it is the beginning of that; and while the session is
      registered it is all of that exactly if none has.  What was not sent to others does not matter. */
  lemma HistoryIsBroadcasts(run: seq<Sys>, labels: seq<Label>, n: nat, x: Sid)
    requires IsRun(run, labels) && n < |run| && AllFromWire(labels, false) && x in Known(run[n].sessions)
    ensures var s := run[n];
            && x in s.sessions && x in s.core.log
            && s.sessions[x].introLen <= |s.core.log[x]| && s.sessions[x].joinedAt <= |s.core.broadcasts|
            && var history := Filter(NotShine(), Map(PacketOf(), s.core.log[x][s.sessions[x].introLen..]));
               var since := Map(PacketOf(), s.core.broadcasts[s.sessions[x].joinedAt..]);
            && Subseq(history, since)
            && (x !in s.missed ==> history <= since)
            && (x in Everyone(s.core) ==> (history == since <==> x !in s.missed))
  {
    hide IsRun, AllFromWire;
    RunHistory(run, labels, n);
    BroadcastOrderHolds(run, labels, n);
    RunSendable(run, labels, n, false);
    HistoryAt(run[n], x);
  }

  lemma HistoryAt(s: Sys, x: Sid)
    requires HistoryInv(s) && OrderInv(s) && SendableInv(s, false) && x in Known(s.sessions)
    ensures x in s.sessions && x in s.core.log
    ensures s.sessions[x].introLen <= |s.core.log[x]| && s.sessions[x].joinedAt <= |s.core.broadcasts|
    ensures var history := Filter(NotShine(), Map(PacketOf(), s.core.log[x][s.sessions[x].introLen..]));
            var since := Map(PacketOf(), s.core.broadcasts[s.sessions[x].joinedAt..]);
            && Subseq(history, since)
            && (x !in s.missed ==> history <= since)
            && (x in Everyone(s.core) ==> (history == since <==> x !in s.missed))
  {
    JoinedAtKnown(s.sessions);
    hide Filter, Map, Readable, Canonical, Sendable, HeapOk, QueueOk, Subseq, Public, IsSendable;
    var log, k, at := s.core.log[x], s.sessions[x].introLen, s.sessions[x].joinedAt;
    assert AllIn(log, IsSendable(false)) && IntrosFirst(log, k) && OrderAt(s.core, x, at);
    PublicAfterIntros(log, k);
    PublicIsNoShine(log[k..], false);
    var since := s.core.broadcasts[at..];
    SubseqMap(PacketOf(), Public(log), since);
    if x !in s.missed {
      assert CompleteAt(s.core, x, at);
      PrefixMap(Public(log), since);
      if x in Everyone(s.core) {
        assert Public(log) == since;
      }
    } else {
      assert LacksAt(s.core, x, at);
      MapLength(Public(log));
      MapLength(since);
    }
  }

  lemma MapLength(ms: seq<Msg>)
    ensures |Map(PacketOf(), ms)| == |ms|
  {
  }

  lemma PrefixMap(a: seq<Msg>, b: seq<Msg>)
    requires a <= b
    ensures Map(PacketOf(), a) <= Map(PacketOf(), b)
  {
  }
}
