/** Membership views agree: replaying what a registered session was sent gives exactly the registered players. */
module Membership {
  import opened Utf8
  import opened Wire
  import opened Packets
  import opened Protocol
  import opened ClientTask
  import opened System
  import opened Structure

  /** What a game makes of a message: who is connected. */
  function See(view: set<Guid>, m: Msg): set<Guid> {
    if m.packet.data.Connect? then view + {m.packet.id}
    else if m.packet.data.Disconnect? then view - {m.packet.id}
    else view
  }

  function ReplayFrom(view: set<Guid>, ms: seq<Msg>): set<Guid> {
    if ms == [] then view else See(ReplayFrom(view, ms[..|ms| - 1]), ms[|ms| - 1])
  }

  function Replay(ms: seq<Msg>): set<Guid> {
    ReplayFrom({}, ms)
  }

  predicate ViewIs(log: map<Sid, seq<Msg>>, sid: Sid, players: set<Guid>) {
    sid in log && Replay(log[sid]) == players
  }

  /** If a session is registered, it has been told exactly who is. */
  ghost predicate AgreesAt(c: Core<Sid>, x: Sid) {
    x in Everyone(c) ==> ViewIs(c.log, x, c.clients.Keys)
  }

  ghost predicate Agrees(c: Core<Sid>) {
    forall x :: AgreesAt(c, x)
  }

  /** The same but for one player. */
  ghost predicate AgreesBut(c: Core<Sid>, x: Sid, g: Guid) {
    x in Everyone(c) ==> x in c.log && Replay(c.log[x]) - {g} == c.clients.Keys - {g}
  }

  predicate IsMembership(p: Packet) {
    p.data.Connect? || p.data.Disconnect?
  }

  lemma ReplaySnoc(ms: seq<Msg>, m: Msg)
    ensures Replay(ms + [m]) == See(Replay(ms), m)
  {
    assert (ms + [m])[..|ms|] == ms;
  }

  lemma {:induction false} ReplayConcat(a: seq<Msg>, b: seq<Msg>)
    ensures Replay(a + b) == ReplayFrom(Replay(a), b)
  {
    if b == [] {
      assert a + b == a;
    } else {
      var n := |b| - 1;
      ReplayConcat(a, b[..n]);
      assert a + b == (a + b[..n]) + [b[n]];
      ReplaySnoc(a + b[..n], b[n]);
    }
  }

  lemma {:induction false} ReplayQuiet(view: set<Guid>, ms: seq<Msg>)
    requires forall i :: 0 <= i < |ms| ==> !IsMembership(ms[i].packet)
    ensures ReplayFrom(view, ms) == view
  {
    if ms != [] {
      ReplayQuiet(view, ms[..|ms| - 1]);
    }
  }

  /** Remembered game packets are game packets. */
  ghost predicate GamesOnly(heap: map<Sid, Profile>) {
    forall r :: r in heap && heap[r].lastGame.Some? ==> heap[r].lastGame.value.data.Game?
  }

  lemma ReplayIntro(view: set<Guid>, g: Guid, d: Profile, maxPlayers: u16)
    requires d.lastGame.Some? ==> d.lastGame.value.data.Game?
    ensures ReplayFrom(view, IntroOf(g, d, maxPlayers)) == view + {g}
  {
    var ms := IntroOf(g, d, maxPlayers);
    assert ms[..|ms| - 1][..1] == ms[..1] && ms[..1][..0] == [];
    assert ReplayFrom(view, ms[..1]) == view + {g};
    assert ms[..2][..1] == ms[..1];
    assert ReplayFrom(view, ms[..2]) == view + {g};
    if |ms| == 3 {
      assert ms[..3] == ms;
    } else {
      assert ms[..2] == ms;
    }
  }

  lemma {:induction false} ReplayIntros(c: Core<Sid>, order: seq<Guid>, maxPlayers: u16)
    requires HandlesLive(c) && GamesOnly(c.heap)
    requires forall i :: 0 <= i < |order| ==> order[i] in c.clients
    ensures Replay(IntroAll(c, order, maxPlayers)) == set g | g in order
  {
    if order != [] {
      var n := |order| - 1;
      var init, intro := IntroAll(c, order[..n], maxPlayers), IntroOf(order[n], c.heap[c.clients[order[n]]], maxPlayers);
      ReplayIntros(c, order[..n], maxPlayers);
      ReplayConcat(init, intro);
      ReplayIntro(Replay(init), order[n], c.heap[c.clients[order[n]]], maxPlayers);
      assert order == order[..n] + [order[n]];
    }
  }

  // ---- each operation ----

  /** A broadcast changes every view it reaches in the same way. */
  lemma BroadcastView(c: Core<Sid>, p: Packet, kind: Kind, reached: set<Sid>, x: Sid)
    requires x in reached && x in c.log
    ensures var c' := Broadcast(c, p, kind, reached);
            x in c'.log && Replay(c'.log[x]) == See(Replay(c.log[x]), Msg(Resize(p), kind))
  {
    hide Replay, See, Resize;
    ReplaySnoc(c.log[x], Msg(Resize(p), kind));
  }

  lemma StaysRegistered(c: Core<Sid>, g: Guid, x: Sid, who: map<Sid, Guid>)
    requires TablesWf(c.clients, c.toClients, c.delayed, who) && x in Everyone(Unregister(c, g))
    ensures x in Everyone(c) && (g in c.toClients ==> x != c.toClients[g])
  {
    var h :| h in Unregister(c, g).toClients && Unregister(c, g).toClients[h] == x;
    assert h in c.toClients && c.toClients[h] == x;
    if g in c.toClients {
      OtherSid(c, g, h, who);
    }
  }

  /** A session that stays agrees after a departure if it was told, whatever it thought of the leaver before. */
  lemma LeaveAgreesAt(c: Core<Sid>, g: Guid, undone: set<Sid>, bye: bool, who: map<Sid, Guid>, x: Sid)
    requires TablesWf(c.clients, c.toClients, c.delayed, who)
    requires undone <= Everyone(Unregister(c, g)) && x !in LeaveMissed(c, g, undone)
    requires if g in c.toClients then AgreesBut(c, x, g) else AgreesAt(c, x)
    ensures AgreesAt(Leave(c, g, undone, bye).core, x)
  {
    hide TablesWf, Replay;
    if g !in c.toClients {
      assert c.clients - {g} == c.clients && c.toClients - {g} == c.toClients by { SameKeys(c, who); }
    } else if x in Everyone(Unregister(c, g)) {
      StaysRegistered(c, g, x, who);
      ResizeKeeps(DisconnectPacket(g));
      BroadcastView(Unregister(c, g), DisconnectPacket(g), Notice, undone, x);
    }
  }

  lemma SameKeys(c: Core<Sid>, who: map<Sid, Guid>)
    requires TablesWf(c.clients, c.toClients, c.delayed, who)
    ensures c.clients.Keys == c.toClients.Keys
  {
  }

  lemma LeaveAgrees(c: Core<Sid>, g: Guid, bye: bool, who: map<Sid, Guid>)
    requires TablesWf(c.clients, c.toClients, c.delayed, who) && Agrees(c)
    ensures Agrees(Leave(c, g, Everyone(Unregister(c, g)), bye).core)
  {
    hide TablesWf, Replay, Leave;
    forall x ensures AgreesAt(Leave(c, g, Everyone(Unregister(c, g)), bye).core, x) {
      assert AgreesAt(c, x);
      LeaveAgreesAt(c, g, Everyone(Unregister(c, g)), bye, who, x);
    }
  }

  /** The views still agree after a departure exactly when everyone who stays was told about it. */
  lemma LeaveAgreesExactly(c: Core<Sid>, g: Guid, undone: set<Sid>, bye: bool, who: map<Sid, Guid>)
    requires TablesWf(c.clients, c.toClients, c.delayed, who) && Agrees(c)
    requires g in c.toClients && undone <= Everyone(Unregister(c, g))
    ensures Agrees(Leave(c, g, undone, bye).core) <==> undone == Everyone(Unregister(c, g))
  {
    if undone == Everyone(Unregister(c, g)) {
      LeaveAgrees(c, g, bye, who);
    } else {
      var x :| x in Everyone(Unregister(c, g)) && x !in undone;
      UntoldDisagrees(c, g, undone, bye, who, x);
    }
  }

  lemma UntoldDisagrees(c: Core<Sid>, g: Guid, undone: set<Sid>, bye: bool, who: map<Sid, Guid>, x: Sid)
    requires TablesWf(c.clients, c.toClients, c.delayed, who) && AgreesAt(c, x)
    requires g in c.toClients && x in Everyone(Unregister(c, g)) && x !in undone
    ensures !AgreesAt(Leave(c, g, undone, bye).core, x)
  {
    SameKeys(c, who);
    StaysRegistered(c, g, x, who);
    hide TablesWf, Replay;
    var c' := Leave(c, g, undone, bye).core;
    assert c'.log[x] == c.log[x];
    assert g in c.clients.Keys && g !in c'.clients.Keys;
  }

  lemma OtherSid(c: Core<Sid>, g: Guid, x: Guid, who: map<Sid, Guid>)
    requires TablesWf(c.clients, c.toClients, c.delayed, who) && g in c.toClients && x in c.toClients && x != g
    ensures c.toClients[x] != c.toClients[g]
  {
    assert g in c.clients && x in c.clients;
  }

  /** After a join in which no send fails, the newcomer sees everyone and everyone sees the newcomer. */
  lemma JoinAgrees(c: Core<Sid>, settings: Settings, cli: Joiner<Sid>, connect: Packet, ch: Choice, who: map<Sid, Guid>)
    requires TablesWf(c.clients, c.toClients, c.delayed, who) && Agrees(c) && GamesOnly(c.heap)
    requires cli.sid !in who && cli.data == cli.sid && cli.sid in c.log && c.log[cli.sid] == []
    requires connect.id == cli.guid && connect.data.Connect?
    requires LegalJoin(c, settings, cli, connect, ch) && Admission(c, settings, cli) == None
    requires Join(c, settings, cli, connect, ch).result == Continue
    ensures Agrees(Join(c, settings, cli, connect, ch).core)
  {
    NothingMissed(c, settings, cli, connect, ch);
    hide TablesWf, Replay, Join, JoinMissed, LegalJoin, GamesOnly, Admission;
    forall x ensures AgreesAt(Join(c, settings, cli, connect, ch).core, x) {
      assert AgreesAt(c, x);
      JoinAgreesAt(c, settings, cli, connect, ch, who, x);
    }
  }

  lemma NothingMissed(c: Core<Sid>, settings: Settings, cli: Joiner<Sid>, connect: Packet, ch: Choice)
    requires LegalJoin(c, settings, cli, connect, ch) && Admission(c, settings, cli) == None
    requires Join(c, settings, cli, connect, ch).result == Continue
    ensures JoinMissed(c, settings, cli, connect, ch) == {}
  {
    hide IntroAll, Leave, Setup, AllIntroduced, LeaveMissed, HandlesLive, LegalOrder, Register;
    var c1 := Register(c, cli, connect.data.cType);
    AllReached(c1, cli.sid, connect, settings.maxPlayers, ch);
  }

  lemma AllReached(c: Core<Sid>, sid: Sid, connect: Packet, maxPlayers: u16, ch: Choice)
    requires HandlesLive(c) && LegalOrder(c, ch.order) && ch.cut <= |IntroAll(c, ch.order, maxPlayers)|
    ensures Setup(c, sid, connect, maxPlayers, ch).result == Continue
            <==> AllIntroduced(c, maxPlayers, ch) && ch.reached == Everyone(c)
  {
    hide IntroAll, AllIntroduced, Broadcast, HandlesLive, LegalOrder;
  }

  /** Whatever fails during a join, a session that was reached by what was broadcast agrees afterwards: with the
      newcomer if the join succeeded, and without it otherwise. */
  lemma JoinAgreesAt(c: Core<Sid>, settings: Settings, cli: Joiner<Sid>, connect: Packet, ch: Choice,
                     who: map<Sid, Guid>, x: Sid)
    requires TablesWf(c.clients, c.toClients, c.delayed, who) && AgreesAt(c, x) && GamesOnly(c.heap)
    requires cli.sid !in who && cli.data == cli.sid && cli.sid in c.log && c.log[cli.sid] == []
    requires connect.id == cli.guid && connect.data.Connect?
    requires LegalJoin(c, settings, cli, connect, ch) && Admission(c, settings, cli) == None
    requires x !in JoinMissed(c, settings, cli, connect, ch)
    ensures AgreesAt(Join(c, settings, cli, connect, ch).core, x)
  {
    hide Replay, IntroAll, Setup, Leave, LegalOrder, AllIntroduced, GamesOnly, HandlesLive, Admission, Register,
      AgreesAt,
      AgreesBut, LeaveMissed, TablesWf;
    var c1 := Register(c, cli, connect.data.cType);
    var setup := Setup(c1, cli.sid, connect, settings.maxPlayers, ch);
    RegisterTables(c, cli, connect.data.cType, who);
    RegisterAgrees(c, cli, connect.data.cType, x);
    SetupFrame(c1, cli.sid, connect, settings.maxPlayers, ch);
    if x == cli.sid {
      RegisteredNow(c, cli, connect.data.cType);
      if setup.result == Continue {
        NewcomerView(c1, cli, connect, settings.maxPlayers, ch);
        assert AgreesAt(setup.core, x) by { ViewAgrees(setup.core, x); }
      } else {
        LeaverGone(setup.core, cli.guid, ch.undone, ch.bye, who[cli.sid := cli.guid]);
      }
    } else {
      OldView(c1, cli, connect, settings.maxPlayers, ch, x);
      if setup.result != Continue {
        RegisteredNow(c, cli, connect.data.cType);
        LeaveAgreesAt(setup.core, cli.guid, ch.undone, ch.bye, who[cli.sid := cli.guid], x);
      }
    }
  }

  lemma ViewAgrees(c: Core<Sid>, x: Sid)
    requires ViewIs(c.log, x, c.clients.Keys)
    ensures AgreesAt(c, x)
  {
  }

  lemma RegisteredNow(c: Core<Sid>, cli: Joiner<Sid>, cType: ConnectionType)
    ensures var c' := Register(c, cli, cType);
            && cli.guid in c'.clients && cli.guid in c'.toClients && c'.toClients[cli.guid] == cli.sid
            && c'.log == c.log && c'.heap == c.heap
  {
    hide DataFor;
  }

  lemma RegisterAgrees(c: Core<Sid>, cli: Joiner<Sid>, cType: ConnectionType, x: Sid)
    requires AgreesAt(c, x)
    ensures x != cli.sid ==> AgreesBut(Register(c, cli, cType), x, cli.guid)
    ensures cli.guid in Register(c, cli, cType).clients
  {
    hide Replay, DataFor;
    var c' := Register(c, cli, cType);
    if x != cli.sid && x in Everyone(c') {
      var h :| h in c'.toClients && c'.toClients[h] == x;
      assert h in c.toClients && c.toClients[h] == x;
    }
  }

  /** The leaver itself is not registered any more. */
  lemma LeaverGone(c: Core<Sid>, g: Guid, undone: set<Sid>, bye: bool, who: map<Sid, Guid>)
    requires TablesWf(c.clients, c.toClients, c.delayed, who) && g in c.toClients
    ensures AgreesAt(Leave(c, g, undone, bye).core, c.toClients[g])
  {
    LeaveFrame(c, g, undone, bye);
    hide Leave, TablesWf, Replay;
    if c.toClients[g] in Everyone(Unregister(c, g)) {
      StaysRegistered(c, g, c.toClients[g], who);
    }
  }

  lemma NewcomerView(c: Core<Sid>, cli: Joiner<Sid>, connect: Packet, maxPlayers: u16, ch: Choice)
    requires HandlesLive(c) && LegalOrder(c, ch.order) && ch.cut <= |IntroAll(c, ch.order, maxPlayers)|
    requires GamesOnly(c.heap) && connect.data.Connect? && connect.id == cli.guid
    requires cli.guid in c.clients && cli.guid in c.toClients && c.toClients[cli.guid] == cli.sid
    requires cli.sid in c.log && c.log[cli.sid] == []
    requires Setup(c, cli.sid, connect, maxPlayers, ch).result == Continue
    ensures ViewIs(Setup(c, cli.sid, connect, maxPlayers, ch).core.log, cli.sid, c.clients.Keys)
  {
    hide Replay, IntroAll, Resize, Setup, Introduce, Broadcast, GamesOnly, LegalOrder, Introduced, HandlesLive;
    var c1 := Introduce(c, cli.sid, maxPlayers, ch.order, ch.cut);
    SetupSteps(c, cli.sid, connect, maxPlayers, ch);
    IntroducedAll(c, cli.sid, maxPlayers, ch);
    OrderMembers(c, ch.order);
    ReplayIntros(c, ch.order, maxPlayers);
    ResizeKeeps(connect);
    BroadcastView(c1, connect, Notice, Everyone(c1), cli.sid);
  }

  /** When nothing fails, the newcomer is sent all the introductions. */
  lemma IntroducedAll(c: Core<Sid>, sid: Sid, maxPlayers: u16, ch: Choice)
    requires HandlesLive(c) && LegalOrder(c, ch.order) && ch.cut == |IntroAll(c, ch.order, maxPlayers)|
    requires sid in c.log && c.log[sid] == []
    ensures var c1 := Introduce(c, sid, maxPlayers, ch.order, ch.cut);
            c1.toClients == c.toClients && sid in c1.log && c1.log[sid] == IntroAll(c, ch.order, maxPlayers)
  {
    hide IntroAll;
    var intro := IntroAll(c, ch.order, maxPlayers);
    assert intro[..ch.cut] == intro && [] + intro == intro;
  }

  lemma OrderMembers(c: Core<Sid>, order: seq<Guid>)
    requires LegalOrder(c, order) && Introduced(c, order)
    ensures (set g | g in order) == c.clients.Keys
    ensures forall i :: 0 <= i < |order| ==> order[i] in c.clients
  {
  }

  lemma SetupSteps(c: Core<Sid>, sid: Sid, connect: Packet, maxPlayers: u16, ch: Choice)
    requires HandlesLive(c) && LegalOrder(c, ch.order) && ch.cut <= |IntroAll(c, ch.order, maxPlayers)|
    requires Setup(c, sid, connect, maxPlayers, ch).result == Continue
    ensures var c1 := Introduce(c, sid, maxPlayers, ch.order, ch.cut);
            && ch.cut == |IntroAll(c, ch.order, maxPlayers)| && Introduced(c, ch.order)
            && Setup(c, sid, connect, maxPlayers, ch).core == Broadcast(c1, connect, Notice, Everyone(c1))
  {
    hide IntroAll, Broadcast;
  }

  /** Seen by a session that was there before: the newcomer is told of to everyone, or to nobody. */
  lemma OldView(c: Core<Sid>, cli: Joiner<Sid>, connect: Packet, maxPlayers: u16, ch: Choice, x: Sid)
    requires HandlesLive(c) && LegalOrder(c, ch.order) && ch.cut <= |IntroAll(c, ch.order, maxPlayers)|
    requires connect.data.Connect? && connect.id == cli.guid && cli.guid in c.clients
    requires x != cli.sid && AgreesBut(c, x, cli.guid)
    requires AllIntroduced(c, maxPlayers, ch) ==> x !in Everyone(c) - ch.reached
    ensures var h := Setup(c, cli.sid, connect, maxPlayers, ch);
            AgreesBut(h.core, x, cli.guid) && (h.result == Continue ==> AgreesAt(h.core, x))
  {
    hide Replay, IntroAll, Resize, Introduce, Broadcast, AllIntroduced, HandlesLive, LegalOrder;
    var c1 := Introduce(c, cli.sid, maxPlayers, ch.order, ch.cut);
    OldLog(c, cli.sid, maxPlayers, ch, x);
    BroadcastFrame(c1, connect, Notice, ch.reached);
    if AllIntroduced(c, maxPlayers, ch) && x in Everyone(c) {
      var c2 := Broadcast(c1, connect, Notice, ch.reached);
      BroadcastView(c1, connect, Notice, ch.reached, x);
      ResizeKeeps(connect);
      assert Replay(c2.log[x]) == Replay(c.log[x]) + {cli.guid};
      WithOne(Replay(c.log[x]), c.clients.Keys, cli.guid);
    }
  }

  lemma WithOne(view: set<Guid>, players: set<Guid>, g: Guid)
    requires view - {g} == players - {g} && g in players
    ensures view + {g} == players && (view + {g}) - {g} == players - {g}
  {
    assert view + {g} == (view - {g}) + {g} && players == (players - {g}) + {g};
  }

  lemma OldLog(c: Core<Sid>, sid: Sid, maxPlayers: u16, ch: Choice, x: Sid)
    requires HandlesLive(c) && LegalOrder(c, ch.order) && ch.cut <= |IntroAll(c, ch.order, maxPlayers)|
    requires x != sid
    ensures var c1 := Introduce(c, sid, maxPlayers, ch.order, ch.cut);
            && c1.toClients == c.toClients && c1.clients == c.clients && c1.log.Keys == c.log.Keys
            && (x in c.log ==> c1.log[x] == c.log[x])
  {
    hide IntroAll;
  }

  /** Messages that are not about membership leave every view alone, however many of them get through. */
  ghost predicate QuietGrowth(log: map<Sid, seq<Msg>>, log': map<Sid, seq<Msg>>) {
    && log'.Keys == log.Keys
    && forall x :: x in log ==> log[x] <= log'[x] && Replay(log'[x]) == Replay(log[x])
  }

  lemma AppendQuiet(log: map<Sid, seq<Msg>>, add: map<Sid, seq<Msg>>)
    requires forall x :: x in add ==> forall i :: 0 <= i < |add[x]| ==> !IsMembership(add[x][i].packet)
    ensures QuietGrowth(log, Append(log, add))
  {
    hide Replay;
    forall x | x in log ensures Replay(Append(log, add)[x]) == Replay(log[x]) {
      if x in add {
        ReplayConcat(log[x], add[x]);
        ReplayQuiet(Replay(log[x]), add[x]);
      }
    }
  }

  lemma QuietTrans(a: map<Sid, seq<Msg>>, b: map<Sid, seq<Msg>>, c: map<Sid, seq<Msg>>)
    requires QuietGrowth(a, b) && QuietGrowth(b, c)
    ensures QuietGrowth(a, c)
  {
    hide Replay;
    forall x | x in a ensures a[x] <= c[x] {
      assert x in b;
    }
  }

  lemma ShinesQuiet(log: map<Sid, seq<Msg>>, shines: map<Sid, seq<i32>>)
    ensures QuietGrowth(log, Append(log, ShineSends(shines)))
  {
    hide QuietGrowth;
    AppendQuiet(log, ShineSends(shines));
  }

  lemma RelayQuiet(c: Core<Sid>, p: Packet, kind: Kind, reached: set<Sid>)
    requires !IsMembership(p)
    ensures QuietGrowth(c.log, Broadcast(c, p, kind, reached).log)
  {
    hide QuietGrowth, Resize;
    ResizeKeeps(p);
    AppendQuiet(c.log, To(reached, [Msg(Resize(p), kind)]));
  }

  lemma NoGrowth(log: map<Sid, seq<Msg>>)
    ensures QuietGrowth(log, log)
  {
    hide Replay;
  }

  lemma PacketQuiet(c: Core<Sid>, from: Sid, p: Packet, ch: Choice)
    requires LegalPacket(c, p, ch) && !IsMembership(p)
    ensures QuietGrowth(c.log, HandlePacket(c, from, p, ch).core.log)
  {
    hide QuietGrowth, Append, ShineSends, LegalShines, Synced, Broadcast, IsReset, IsWaterfall;
    NoGrowth(c.log);
    ShinesQuiet(c.log, ch.shines);
    if !p.data.Shine? && ((IsReset(p.data) || IsWaterfall(p.data)) ==> p.id in c.clients) {
      var c1 := BeforeBroadcast(c, p, ch);
      RelayQuiet(c1, p, Relayed(from), ch.reached);
      QuietTrans(c.log, c1.log, Broadcast(c1, p, Relayed(from), ch.reached).log);
    }
  }

  lemma QuietAgrees(c: Core<Sid>, c': Core<Sid>, missed: set<Sid>)
    requires Informed(c, missed) && QuietGrowth(c.log, c'.log) && c'.clients == c.clients && c'.toClients == c.toClients
    ensures Informed(c', missed)
  {
    hide Replay;
  }

  // ---- whole runs ----

  /** Every session that no broadcast has missed agrees. */
  ghost predicate Informed(c: Core<Sid>, missed: set<Sid>) {
    forall x :: x !in missed ==> AgreesAt(c, x)
  }

  lemma FewerInformed(c: Core<Sid>, missed: set<Sid>, missed': set<Sid>)
    requires Informed(c, missed) && missed <= missed'
    ensures Informed(c, missed')
  {
    hide AgreesAt;
  }

  ghost predicate QuietQueue(queue: seq<Command<Sid>>) {
    forall i :: 0 <= i < |queue| && queue[i].PacketCommand? ==> !IsMembership(queue[i].packet)
  }

  /** In a run in which games send no connect or disconnect once they have joined. */
  ghost predicate QuietLabel(l: Label) {
    l.Take? ==> !IsMembership(l.packet)
  }

  ghost predicate QuietHands(sessions: map<Sid, Session>) {
    forall x :: x in sessions && sessions[x].hand.Some? ==> !IsMembership(sessions[x].hand.value)
  }

  ghost predicate MembershipInv(s: Sys) {
    && GamesOnly(s.core.heap) && QuietQueue(s.core.queue) && QuietHands(s.sessions)
    && Informed(s.core, s.missed)
  }

  lemma PacketGames(c: Core<Sid>, from: Sid, p: Packet, ch: Choice)
    requires LegalPacket(c, p, ch) && GamesOnly(c.heap)
    ensures GamesOnly(HandlePacket(c, from, p, ch).core.heap)
  {
    hide LegalShines, Synced, IsReset, IsWaterfall, Append, To, ShineSends, Resize;
  }

  lemma ServePacketMembership(s: Sys, from: Sid, p: Packet, ch: Choice)
    requires MembershipInv(s) && LegalPacket(s.core, p, ch) && from in s.sessions && !IsMembership(p)
    ensures MembershipInv(ServePacket(s, from, p, ch))
  {
    hide HandlePacket, LegalPacket, PassedOn, Everyone, Informed, QuietGrowth, GamesOnly;
    ServePacketShape(s, from, p, ch);
    PacketGames(s.core, from, p, ch);
    PacketQuiet(s.core, from, p, ch);
    PacketFrame(s.core, from, p, ch);
    FewerInformed(s.core, s.missed, ServePacket(s, from, p, ch).missed);
    QuietAgrees(s.core, HandlePacket(s.core, from, p, ch).core, ServePacket(s, from, p, ch).missed);
  }

  lemma ServeJoinMembership(s: Sys, cli: Joiner<Sid>, connect: Packet, ch: Choice)
    requires Wf(s) && MembershipInv(s) && cli.sid in s.sessions && LegalJoin(s.core, s.settings, cli, connect, ch)
    requires CommandWf(NewPlayer(cli, connect), Known(s.sessions), Newcomers(s.sessions))
    ensures MembershipInv(ServeJoin(s, cli, connect, ch))
  {
    WaitingShape(s, cli.sid);
    assert cli.sid in s.core.log && s.core.log[cli.sid] == [];
    hide Join, LegalJoin, Informed, GamesOnly, Admission, Wf, Known, Newcomers, QuietHands, DataFor, JoinMissed;
    SameHands(s.sessions, cli.sid, ServeJoin(s, cli, connect, ch).sessions[cli.sid]);
    if Admission(s.core, s.settings, cli).Some? {
      JoinRefused(s.core, s.settings, cli, connect, ch);
      QuietRefuse(s.core, cli.guid, s.missed);
      FewerInformed(Refuse(s.core, cli.guid), s.missed, ServeJoin(s, cli, connect, ch).missed);
    } else {
      JoinFrame(s.core, s.settings, cli, connect, ch);
      JoinInformed(s, cli, connect, ch);
    }
  }

  lemma JoinInformed(s: Sys, cli: Joiner<Sid>, connect: Packet, ch: Choice)
    requires LegalJoin(s.core, s.settings, cli, connect, ch) && Admission(s.core, s.settings, cli) == None
    requires Informed(s.core, s.missed) && GamesOnly(s.core.heap)
    requires CommandWf(NewPlayer(cli, connect), Known(s.sessions), Newcomers(s.sessions))
    requires Wf(s)
    ensures Informed(Join(s.core, s.settings, cli, connect, ch).core,
                     s.missed + JoinMissed(s.core, s.settings, cli, connect, ch))
  {
    WaitingShape(s, cli.sid);
    TablesOf(s);
    assert cli.sid in s.core.log && s.core.log[cli.sid] == [];
    hide Join, LegalJoin, AgreesAt, GamesOnly, Admission, Wf, JoinMissed, TablesWf;
    forall x | x !in s.missed + JoinMissed(s.core, s.settings, cli, connect, ch)
      ensures AgreesAt(Join(s.core, s.settings, cli, connect, ch).core, x)
    {
      JoinAgreesAt(s.core, s.settings, cli, connect, ch, Known(s.sessions), x);
    }
  }

  lemma SameHands(sessions: map<Sid, Session>, x: Sid, session: Session)
    requires QuietHands(sessions) && x in sessions && session.hand == sessions[x].hand
    ensures QuietHands(sessions[x := session])
  {
  }

  lemma LogKeys(s: Sys)
    requires Wf(s)
    ensures s.core.log.Keys == s.sessions.Keys
  {
  }

  lemma TablesOf(s: Sys)
    requires Wf(s)
    ensures TablesWf(s.core.clients, s.core.toClients, s.core.delayed, Known(s.sessions))
  {
  }

  lemma QuietRefuse(c: Core<Sid>, g: Guid, missed: set<Sid>)
    requires QuietQueue(c.queue) && Informed(c, missed)
    ensures QuietQueue(Refuse(c, g).queue) && Informed(Refuse(c, g), missed)
  {
    hide Replay;
    SameViews(c, Refuse(c, g), missed);
  }

  lemma ServeLeaveMembership(s: Sys, g: Guid, undone: set<Sid>, bye: bool)
    requires Wf(s) && MembershipInv(s) && undone <= Everyone(Unregister(s.core, g))
    ensures MembershipInv(ServeLeave(s, g, undone, bye))
  {
    hide Leave, LeaveMissed, AgreesAt, GamesOnly, Wf, Known;
    LeaveFrame(s.core, g, undone, bye);
    TablesOf(s);
    var s' := ServeLeave(s, g, undone, bye);
    forall x | x !in s'.missed ensures AgreesAt(s'.core, x) {
      AgreesButOne(s.core, x, g);
      LeaveAgreesAt(s.core, g, undone, bye, Known(s.sessions), x);
    }
  }

  lemma AgreesButOne(c: Core<Sid>, x: Sid, g: Guid)
    requires AgreesAt(c, x)
    ensures AgreesBut(c, x, g)
  {
    hide Replay;
  }

  lemma ServedMembership(s: Sys, ch: Choice)
    requires Wf(s) && MembershipInv(s) && CanServe(s, ch)
    ensures MembershipInv(ServedHead(s, ch))
  {
    var s1 := Dequeued(s);
    DequeueKeepsWf(s);
    DequeueMembership(s);
    hide Wf, MembershipInv, ServePacket, ServeJoin, ServeLeave, LegalPacket, LegalJoin, Known, Newcomers;
    match s.core.queue[0]
    case PacketCommand(from, p) => ServePacketMembership(s1, from, p, ch);
    case NewPlayer(cli, connect) => ServeJoinMembership(s1, cli, connect, ch);
    case DisconnectPlayer(g) => ServeLeaveMembership(s1, g, ch.undone, ch.bye);
    case Shutdown => SameCoreMembership(s1, ServedHead(s, ch));
  }

  lemma DequeueMembership(s: Sys)
    requires MembershipInv(s) && s.core.queue != []
    ensures MembershipInv(Dequeued(s))
    ensures s.core.queue[0].PacketCommand? ==> !IsMembership(s.core.queue[0].packet)
  {
    hide Replay, GamesOnly;
  }

  lemma SameCoreMembership(s: Sys, s': Sys)
    requires MembershipInv(s) && s'.core == s.core && s'.missed == s.missed && QuietHands(s'.sessions)
    ensures MembershipInv(s')
  {
  }

  lemma SameViews(c: Core<Sid>, c': Core<Sid>, missed: set<Sid>)
    requires Informed(c, missed) && c'.clients == c.clients && c'.toClients == c.toClients
    requires forall x :: x in c.log ==> x in c'.log && c'.log[x] == c.log[x]
    ensures Informed(c', missed)
  {
    hide Replay;
    forall x | x !in missed ensures AgreesAt(c', x) {
      assert AgreesAt(c, x);
    }
  }

  lemma TookGames(heap: map<Sid, Profile>, x: Sid, p: Packet)
    requires GamesOnly(heap) && x in heap
    ensures GamesOnly(heap[x := OnPacket(heap[x], p)])
  {
    hide IsReset;
  }

  lemma TookMembership(s: Sys, sid: Sid, p: Packet)
    requires MembershipInv(s) && Enabled(s, Take(sid, p)) && !IsMembership(p)
    ensures MembershipInv(Took(s, sid, p))
  {
    hide Informed, GamesOnly, OnPacket, QuietQueue;
    TookGames(s.core.heap, s.sessions[sid].data, p);
    SameViews(s.core, Took(s, sid, p).core, s.missed);
  }

  lemma ForwardedMembership(s: Sys, sid: Sid)
    requires MembershipInv(s) && Enabled(s, Forward(sid))
    ensures MembershipInv(Forwarded(s, sid))
  {
    hide Informed, GamesOnly;
    SameViews(s.core, Forwarded(s, sid).core, s.missed);
  }

  lemma FinishedMembership(s: Sys, sid: Sid)
    requires MembershipInv(s) && Enabled(s, End(sid))
    ensures MembershipInv(Finished(s, sid))
  {
    hide Informed, GamesOnly;
    SameViews(s.core, Finished(s, sid).core, s.missed);
  }

  lemma ArrivedGames(heap: map<Sid, Profile>, sid: Sid, name: Text)
    requires GamesOnly(heap)
    ensures GamesOnly(heap[sid := NewProfile(name)])
  {
  }

  lemma ArrivedMembership(s: Sys, sid: Sid, ip: Ip, connect: Packet)
    requires s.core.log.Keys == s.sessions.Keys && sid !in s.sessions && connect.data.Connect?
    requires MembershipInv(s)
    ensures MembershipInv(Arrived(s, sid, ip, connect))
  {
    hide GamesOnly, Informed, NewProfile;
    ArrivedGames(s.core.heap, sid, connect.data.clientName);
    SameViews(s.core, Arrived(s, sid, ip, connect).core, s.missed);
  }

  lemma FiredMembership(s: Sys, i: nat, ids: seq<i32>)
    requires MembershipInv(s) && i < |s.core.delayed|
    ensures MembershipInv(s.(core := Fire(s.core, i, ids)))
  {
    hide QuietGrowth, Informed, GamesOnly;
    var d := s.core.delayed[i];
    AppendQuiet(s.core.log, To({d.chan}, ShineMsgs(d.guid, ids)));
    QuietAgrees(s.core, Fire(s.core, i, ids), s.missed);
  }

  lemma StepMembership(s: Sys, l: Label)
    requires Wf(s) && MembershipInv(s) && Enabled(s, l) && QuietLabel(l)
    ensures MembershipInv(Step(s, l))
  {
    hide Wf, MembershipInv, CanServe, ServedHead, ServeLeave;
    match l
    case Arrive(sid, ip, connect) =>
      LogKeys(s);
      ArrivedMembership(s, sid, ip, connect);
    case Take(sid, p) => TookMembership(s, sid, p);
    case Forward(sid) => ForwardedMembership(s, sid);
    case Deliver(sid, wrote) =>
      HandsStay(s, l);
      SameCoreMembership(s, Step(s, l));
    case End(sid) => FinishedMembership(s, sid);
    case Serve(ch) => ServedMembership(s, ch);
    case FireSync(i, ids) => FiredMembership(s, i, ids);
    case AskShutdown => EnqueuedMembership(s, Step(s, l), Shutdown);
    case Drain(g, undone, bye) =>
      HandsStay(s, l);
      var s1 := s.(mode := Draining(s.mode.todo - {g}));
      ModeKeepsWf(s, s1.mode);
      SameCoreMembership(s, s1);
      ServeLeaveMembership(s1, g, undone, bye);
  }

  lemma HandsStay(s: Sys, l: Label)
    requires MembershipInv(s) && Enabled(s, l) && (l.Deliver? || l.Drain?)
    ensures QuietHands(s.sessions) && QuietHands(Step(s, l).sessions)
  {
    hide Leave, Informed, GamesOnly, QuietQueue, Writes, EndsSession;
  }

  lemma EnqueuedMembership(s: Sys, s': Sys, cmd: Command<Sid>)
    requires MembershipInv(s) && !cmd.PacketCommand? && s'.missed == s.missed
    requires s'.core == s.core.(queue := s.core.queue + [cmd]) && s'.sessions == s.sessions
    ensures MembershipInv(s')
  {
    hide Replay;
    SameViews(s.core, s'.core, s.missed);
  }

  lemma InitialMembership(s: Sys)
    requires Initial(s)
    ensures MembershipInv(s)
  {
  }

  /** In every state of every run in which games do not fake membership packets: each registered session that no
      broadcast has missed has been told exactly who is registered, whatever sends to others have failed. */
  lemma {:induction false} ViewsAgree(run: seq<Sys>, labels: seq<Label>, n: nat)
    requires IsRun(run, labels) && n < |run|
    requires forall i :: 0 <= i < n ==> QuietLabel(labels[i])
    ensures MembershipInv(run[n])
    ensures forall g :: g in run[n].core.toClients && run[n].core.toClients[g] !in run[n].missed ==>
              ViewIs(run[n].core.log, run[n].core.toClients[g], run[n].core.clients.Keys)
  {
    hide Wf, Step, Informed, GamesOnly, QuietQueue, QuietHands, Enabled;
    if n == 0 {
      InitialMembership(run[0]);
    } else {
      ViewsAgree(run, labels, n - 1);
      RunWf(run, labels, n - 1);
      StepMembership(run[n - 1], labels[n - 1]);
    }
    InformedViews(run[n].core, run[n].missed);
  }

  lemma InformedViews(c: Core<Sid>, missed: set<Sid>)
    requires Informed(c, missed)
    ensures forall g :: g in c.toClients && c.toClients[g] !in missed ==>
              ViewIs(c.log, c.toClients[g], c.clients.Keys)
  {
    forall g | g in c.toClients && c.toClients[g] !in missed
      ensures ViewIs(c.log, c.toClients[g], c.clients.Keys)
    {
      assert AgreesAt(c, c.toClients[g]);
    }
  }
}
