/** The structure of every reachable state: which tables, queues and handles name which sessions. */
module Structure {
  import opened Utf8
  import opened Wire
  import opened Packets
  import opened Protocol
  import opened ClientTask
  import opened System

  /** The sessions whose join has been handled, with their guids. */
  function Known(sessions: map<Sid, Session>): map<Sid, Guid> {
    map x | x in sessions && sessions[x].phase != Waiting :: sessions[x].guid
  }

  /** More sessions are known, under the same guids as before. */
  ghost predicate KnowsMore(who: map<Sid, Guid>, who': map<Sid, Guid>) {
    forall x :: x in who ==> x in who' && who'[x] == who[x]
  }

  datatype Newcomer = Newcomer(guid: Guid, ip: Ip)

  /** The sessions that still wait for the coordinator to let them in. */
  function Newcomers(sessions: map<Sid, Session>): map<Sid, Newcomer> {
    map x | x in sessions && sessions[x].phase == Waiting :: Newcomer(sessions[x].guid, sessions[x].ip)
  }

  /** Both tables have the same keys and name known sessions, each under its own guid; so does a delayed sync. */
  ghost predicate TablesWf(clients: map<Guid, Sid>, toClients: map<Guid, Sid>, delayed: seq<Delayed<Sid>>,
                           who: map<Sid, Guid>) {
    && clients.Keys == toClients.Keys
    && (forall g :: g in clients ==>
          && toClients[g] in who && who[toClients[g]] == g
          && clients[g] in who && who[clients[g]] == g)
    && (forall i :: 0 <= i < |delayed| ==> DelayedWf(delayed[i], who))
  }

  ghost predicate DelayedWf(d: Delayed<Sid>, who: map<Sid, Guid>) {
    d.chan in who && who[d.chan] == d.guid && d.data in who && who[d.data] == d.guid
  }

  /** A queued packet comes from a known session, a join from a waiting one, and no session joins twice. */
  ghost predicate CommandWf(cmd: Command<Sid>, who: map<Sid, Guid>, waiting: map<Sid, Newcomer>) {
    match cmd
    case PacketCommand(from, _) => from in who
    case NewPlayer(cli, connect) =>
      && cli.sid in waiting && cli == Joiner(cli.sid, waiting[cli.sid].guid, waiting[cli.sid].ip, cli.sid)
      && connect.id == cli.guid && connect.data.Connect?
    case _ => true
  }

  predicate SameJoin(a: Command<Sid>, b: Command<Sid>) {
    a.NewPlayer? && b.NewPlayer? && a.cli.sid == b.cli.sid
  }

  ghost predicate QueueWf(queue: seq<Command<Sid>>, who: map<Sid, Guid>, waiting: map<Sid, Newcomer>) {
    && (forall i :: 0 <= i < |queue| ==> CommandWf(queue[i], who, waiting))
    && (forall i, j :: 0 <= i < j < |queue| ==> !SameJoin(queue[i], queue[j]))
  }

  /** A known session shares the data of a session of the same guid; a waiting one has done nothing yet. */
  ghost predicate SessionWf(x: Sid, session: Session, who: map<Sid, Guid>) {
    if session.phase == Waiting then
      session == Session(session.guid, session.ip, x, Waiting, 0, [], 0, [], 0, 0, 0, None)
    else session.data in who && who[session.data] == session.guid
  }

  ghost predicate SessionsWf(sessions: map<Sid, Session>, who: map<Sid, Guid>) {
    forall x :: x in sessions ==> SessionWf(x, sessions[x], who)
  }

  predicate Fresh(d: Profile) {
    d.shineSync == {} && d.lastGame == None
  }

  /** Nobody has written to a waiting session or touched its data. */
  ghost predicate FreshWf(waiting: map<Sid, Newcomer>, log: map<Sid, seq<Msg>>, heap: map<Sid, Profile>) {
    forall x :: x in waiting ==> x in log && log[x] == [] && x in heap && Fresh(heap[x])
  }

  ghost predicate Wf(s: Sys) {
    var who, waiting := Known(s.sessions), Newcomers(s.sessions);
    && s.core.log.Keys == s.sessions.Keys && s.core.heap.Keys == s.sessions.Keys
    && TablesWf(s.core.clients, s.core.toClients, s.core.delayed, who)
    && QueueWf(s.core.queue, who, waiting)
    && SessionsWf(s.sessions, who)
    && FreshWf(waiting, s.core.log, s.core.heap)
  }

  // ---- the tables ----

  lemma UnregisterTables(c: Core<Sid>, g: Guid, who: map<Sid, Guid>)
    requires TablesWf(c.clients, c.toClients, c.delayed, who)
    ensures var c' := Unregister(c, g); TablesWf(c'.clients, c'.toClients, c'.delayed, who)
  {
  }

  lemma RegisterTables(c: Core<Sid>, cli: Joiner<Sid>, cType: ConnectionType, who: map<Sid, Guid>)
    requires TablesWf(c.clients, c.toClients, c.delayed, who) && cli.sid !in who && cli.data == cli.sid
    ensures var c' := Register(c, cli, cType);
            TablesWf(c'.clients, c'.toClients, c'.delayed, who[cli.sid := cli.guid])
  {
  }

  lemma EveryoneKnown(c: Core<Sid>, who: map<Sid, Guid>)
    requires TablesWf(c.clients, c.toClients, c.delayed, who)
    ensures Everyone(c) <= who.Keys
  {
    forall sid | sid in Everyone(c) ensures sid in who {
      var g :| g in c.toClients && c.toClients[g] == sid;
      assert g in c.clients;
    }
  }

  /** Everything but the tables and messages is untouched. */
  lemma LeaveFrame(c: Core<Sid>, g: Guid, undone: set<Sid>, bye: bool)
    ensures var c' := Leave(c, g, undone, bye).core;
            c' == Unregister(c, g).(log := c'.log, broadcasts := c'.broadcasts) && c'.log.Keys == c.log.Keys
  {
  }

  lemma SetupFrame(c: Core<Sid>, sid: Sid, connect: Packet, maxPlayers: u16, ch: Choice)
    requires HandlesLive(c) && LegalOrder(c, ch.order) && ch.cut <= |IntroAll(c, ch.order, maxPlayers)|
    ensures var c' := Setup(c, sid, connect, maxPlayers, ch).core;
            c' == c.(log := c'.log, broadcasts := c'.broadcasts) && c'.log.Keys == c.log.Keys
  {
  }

  /** A join that is let in either registers the newcomer or, when a send fails, leaves it unregistered. */
  lemma JoinFrame(c: Core<Sid>, settings: Settings, cli: Joiner<Sid>, connect: Packet, ch: Choice)
    requires LegalJoin(c, settings, cli, connect, ch)
    requires Admission(c, settings, cli) == None
    ensures var c1 := Register(c, cli, connect.data.cType);
            var h := Join(c, settings, cli, connect, ch);
            && (h.result == Continue || h.result == SendFailed)
            && h.core == (if h.result == Continue then c1 else Unregister(c1, cli.guid))
                           .(log := h.core.log, broadcasts := h.core.broadcasts)
            && h.core.log.Keys == c.log.Keys
  {
    hide IntroAll, Append, To, Setup, Leave;
    var c1 := Register(c, cli, connect.data.cType);
    SetupFrame(c1, cli.sid, connect, settings.maxPlayers, ch);
    var setup := Setup(c1, cli.sid, connect, settings.maxPlayers, ch);
    LeaveFrame(setup.core, cli.guid, ch.undone, ch.bye);
  }

  lemma JoinTables(c: Core<Sid>, settings: Settings, cli: Joiner<Sid>, connect: Packet, ch: Choice, who: map<Sid, Guid>)
    requires TablesWf(c.clients, c.toClients, c.delayed, who) && cli.sid !in who && cli.data == cli.sid
    requires LegalJoin(c, settings, cli, connect, ch)
    requires Admission(c, settings, cli) == None
    ensures var c' := Join(c, settings, cli, connect, ch).core;
            TablesWf(c'.clients, c'.toClients, c'.delayed, who[cli.sid := cli.guid])
  {
    hide IntroAll, Join, TablesWf;
    JoinFrame(c, settings, cli, connect, ch);
    var who', c1 := who[cli.sid := cli.guid], Register(c, cli, connect.data.cType);
    RegisterTables(c, cli, connect.data.cType, who);
    UnregisterTables(c1, cli.guid, who');
  }

  lemma BroadcastFrame(c: Core<Sid>, p: Packet, kind: Kind, reached: set<Sid>)
    ensures var c' := Broadcast(c, p, kind, reached);
            c' == c.(log := c'.log, broadcasts := c'.broadcasts) && c'.log.Keys == c.log.Keys
  {
    hide Resize;
  }

  lemma SyncFrame(c: Core<Sid>, shines: map<Sid, seq<i32>>)
    ensures var c' := SyncAll(c, shines); c' == c.(log := c'.log) && c'.log.Keys == c.log.Keys
  {
  }

  lemma BeforeFrame(c: Core<Sid>, p: Packet, ch: Choice)
    requires HandlesLive(c) && Coherent(c)
    requires IsReset(p.data) || IsWaterfall(p.data) ==> p.id in c.clients
    ensures var c' := BeforeBroadcast(c, p, ch);
            && c'.clients == c.clients && c'.toClients == c.toClients && c'.queue == c.queue && c'.started == c.started
            && c'.broadcasts == c.broadcasts
            && c'.log.Keys == c.log.Keys && c'.heap.Keys == c.heap.Keys
            && (c'.delayed == c.delayed
                || (p.id in c.clients
                    && c'.delayed == c.delayed + [Delayed(c.toClients[p.id], p.id, c.clients[p.id])]))
  {
    hide SyncAll, IsReset, IsWaterfall, StartSpeedrun;
    SyncFrame(c, ch.shines);
  }

  lemma PacketFrame(c: Core<Sid>, from: Sid, p: Packet, ch: Choice)
    requires LegalPacket(c, p, ch)
    ensures var c' := HandlePacket(c, from, p, ch).core;
            && c'.clients == c.clients && c'.toClients == c.toClients && c'.queue == c.queue && c'.started == c.started
            && c'.log.Keys == c.log.Keys && c'.heap.Keys == c.heap.Keys
            && (c'.delayed == c.delayed
                || (p.id in c.clients
                    && c'.delayed == c.delayed + [Delayed(c.toClients[p.id], p.id, c.clients[p.id])]))
  {
    hide LegalShines, Synced, SyncAll, Broadcast, BeforeBroadcast, IsReset, IsWaterfall;
    if p.data.Shine? {
      SyncFrame(Collect(c, p.data.shineId), ch.shines);
    } else if p.data.CostumeData? && !Synced(c, ch.shines) {
      SyncFrame(c, ch.shines);
    } else if !((IsReset(p.data) || IsWaterfall(p.data)) && p.id !in c.clients) {
      BeforeFrame(c, p, ch);
      BroadcastFrame(BeforeBroadcast(c, p, ch), p, Relayed(from), ch.reached);
    }
  }

  lemma PacketTables(c: Core<Sid>, from: Sid, p: Packet, ch: Choice, who: map<Sid, Guid>)
    requires TablesWf(c.clients, c.toClients, c.delayed, who) && LegalPacket(c, p, ch)
    ensures var c' := HandlePacket(c, from, p, ch).core; TablesWf(c'.clients, c'.toClients, c'.delayed, who)
  {
    hide LegalPacket, HandlePacket;
    PacketFrame(c, from, p, ch);
  }

  // ---- messages reach known sessions only ----

  lemma LeaveReaches(c: Core<Sid>, g: Guid, undone: set<Sid>, bye: bool, who: map<Sid, Guid>, x: Sid)
    requires TablesWf(c.clients, c.toClients, c.delayed, who)
    requires undone <= Everyone(Unregister(c, g)) && x in c.log && x !in who
    ensures Leave(c, g, undone, bye).core.log[x] == c.log[x]
  {
    UnregisterTables(c, g, who);
    EveryoneKnown(Unregister(c, g), who);
    EveryoneKnown(c, who);
  }

  lemma SetupReaches(c: Core<Sid>, sid: Sid, connect: Packet, maxPlayers: u16, ch: Choice, who: map<Sid, Guid>, x: Sid)
    requires HandlesLive(c) && LegalOrder(c, ch.order) && ch.cut <= |IntroAll(c, ch.order, maxPlayers)|
    requires TablesWf(c.clients, c.toClients, c.delayed, who) && ch.reached <= Everyone(c)
    requires x in c.log && x !in who && sid in who
    ensures Setup(c, sid, connect, maxPlayers, ch).core.log[x] == c.log[x]
  {
    hide IntroAll;
    EveryoneKnown(c, who);
  }

  lemma JoinReaches(c: Core<Sid>, settings: Settings, cli: Joiner<Sid>, connect: Packet, ch: Choice,
                    who: map<Sid, Guid>, x: Sid)
    requires TablesWf(c.clients, c.toClients, c.delayed, who) && cli.sid !in who && cli.data == cli.sid
    requires LegalJoin(c, settings, cli, connect, ch)
    requires Admission(c, settings, cli) == None
    requires x in c.log && x !in who && x != cli.sid
    ensures var h := Join(c, settings, cli, connect, ch); x in h.core.log && h.core.log[x] == c.log[x]
  {
    hide TablesWf, IntroAll, Setup, Leave;
    var who', c1 := who[cli.sid := cli.guid], Register(c, cli, connect.data.cType);
    RegisterTables(c, cli, connect.data.cType, who);
    SetupFrame(c1, cli.sid, connect, settings.maxPlayers, ch);
    SetupReaches(c1, cli.sid, connect, settings.maxPlayers, ch, who', x);
    var setup := Setup(c1, cli.sid, connect, settings.maxPlayers, ch);
    LeaveReaches(setup.core, cli.guid, ch.undone, ch.bye, who', x);
    LeaveFrame(setup.core, cli.guid, ch.undone, ch.bye);
  }

  lemma PacketReaches(c: Core<Sid>, from: Sid, p: Packet, ch: Choice, who: map<Sid, Guid>, x: Sid)
    requires TablesWf(c.clients, c.toClients, c.delayed, who) && LegalPacket(c, p, ch) && x in c.log && x !in who
    ensures var c' := HandlePacket(c, from, p, ch).core; x in c'.log && c'.log[x] == c.log[x]
    ensures var c' := HandlePacket(c, from, p, ch).core; x in c.heap ==> x in c'.heap && c'.heap[x] == c.heap[x]
  {
    hide Synced, Resize, LegalShines;
    EveryoneKnown(c, who);
  }

  // ---- the steps ----

  lemma ArrivedViews(sessions: map<Sid, Session>, sid: Sid, session: Session)
    requires sid !in sessions && session.phase == Waiting
    ensures var sessions' := sessions[sid := session];
            && Known(sessions') == Known(sessions)
            && Newcomers(sessions') == Newcomers(sessions)[sid := Newcomer(session.guid, session.ip)]
  {
  }

  lemma ArrivedQueue(queue: seq<Command<Sid>>, who: map<Sid, Guid>, waiting: map<Sid, Newcomer>,
                     sid: Sid, ip: Ip, connect: Packet)
    requires QueueWf(queue, who, waiting) && sid !in waiting && connect.data.Connect?
    ensures QueueWf(queue + [NewPlayer(Joiner(sid, connect.id, ip, sid), connect)], who,
                    waiting[sid := Newcomer(connect.id, ip)])
  {
    var waiting' := waiting[sid := Newcomer(connect.id, ip)];
    var q' := queue + [NewPlayer(Joiner(sid, connect.id, ip, sid), connect)];
    forall i | 0 <= i < |queue| ensures CommandWf(q'[i], who, waiting') && !SameJoin(q'[i], q'[|queue|]) {
      assert CommandWf(queue[i], who, waiting);
    }
  }

  lemma ArrivedWf(s: Sys, sid: Sid, ip: Ip, connect: Packet)
    requires Wf(s) && sid !in s.sessions && connect.data.Connect?
    ensures Wf(Arrived(s, sid, ip, connect))
  {
    hide TablesWf, QueueWf, FreshWf, SessionsWf, Known, Newcomers;
    var s' := Arrived(s, sid, ip, connect);
    var waiting := Newcomers(s.sessions);
    ArrivedViews(s.sessions, sid, s'.sessions[sid]);
    assert sid !in waiting by { NewcomersAreSessions(s.sessions); }
    ArrivedQueue(s.core.queue, Known(s.sessions), waiting, sid, ip, connect);
    ArrivedSessions(s.sessions, Known(s.sessions), sid, s'.sessions[sid]);
    ArrivedFresh(waiting, s.core.log, s.core.heap, sid, Newcomer(connect.id, ip), NewProfile(connect.data.clientName));
  }

  lemma ArrivedSessions(sessions: map<Sid, Session>, who: map<Sid, Guid>, sid: Sid, session: Session)
    requires SessionsWf(sessions, who) && session == Session(session.guid, session.ip, sid, Waiting, 0, [], 0, [], 0, 0, 0, None)
    ensures SessionsWf(sessions[sid := session], who)
  {
  }

  lemma ArrivedFresh(waiting: map<Sid, Newcomer>, log: map<Sid, seq<Msg>>, heap: map<Sid, Profile>,
                     sid: Sid, n: Newcomer, d: Profile)
    requires FreshWf(waiting, log, heap) && Fresh(d)
    ensures FreshWf(waiting[sid := n], log[sid := []], heap[sid := d])
  {
  }

  lemma NewcomersAreSessions(sessions: map<Sid, Session>)
    ensures Newcomers(sessions).Keys <= sessions.Keys && Known(sessions).Keys <= sessions.Keys
  {
  }

  lemma CounterViews(sessions: map<Sid, Session>, x: Sid, session: Session)
    requires x in sessions && sessions[x].phase != Waiting && session.phase != Waiting
    requires session.guid == sessions[x].guid
    ensures Known(sessions[x := session]) == Known(sessions)
    ensures Newcomers(sessions[x := session]) == Newcomers(sessions)
  {
  }

  /** Changing a known session's counters keeps everything in place. */
  lemma SessionsKeepWf(s: Sys, x: Sid, session: Session)
    requires Wf(s) && x in s.sessions && s.sessions[x].phase != Waiting
    requires session.guid == s.sessions[x].guid && session.data == s.sessions[x].data && session.phase != Waiting
    ensures Wf(s.(sessions := s.sessions[x := session]))
  {
    hide TablesWf, QueueWf, FreshWf, Known, Newcomers;
    CounterViews(s.sessions, x, session);
    assert SessionWf(x, s.sessions[x], Known(s.sessions));
  }

  lemma HeapKeepsWf(s: Sys, x: Sid, d: Profile)
    requires Wf(s) && x in s.sessions && s.sessions[x].phase != Waiting
    ensures Wf(s.(core := s.core.(heap := s.core.heap[x := d])))
  {
    hide TablesWf, QueueWf, SessionsWf;
  }

  lemma EnqueueKeepsWf(s: Sys, cmd: Command<Sid>)
    requires Wf(s) && !cmd.NewPlayer? && (cmd.PacketCommand? ==> cmd.from in Known(s.sessions))
    ensures Wf(s.(core := s.core.(queue := s.core.queue + [cmd])))
  {
    hide TablesWf, SessionsWf, FreshWf;
  }

  lemma TookWf(s: Sys, sid: Sid, p: Packet)
    requires Wf(s) && Enabled(s, Take(sid, p))
    ensures Wf(Took(s, sid, p))
  {
    var x := s.sessions[sid];
    assert SessionWf(sid, x, Known(s.sessions));
    hide Wf, OnPacket;
    var d := OnPacket(s.core.heap[x.data], p);
    HeapKeepsWf(s, x.data, d);
    var s1 := s.(core := s.core.(heap := s.core.heap[x.data := d]));
    SessionsKeepWf(s1, sid, x.(hand := if Forwards(p) then Some(p) else None));
  }

  lemma ForwardedWf(s: Sys, sid: Sid)
    requires Wf(s) && Enabled(s, Forward(sid))
    ensures Wf(Forwarded(s, sid))
  {
    hide Wf;
    var x, p := s.sessions[sid], s.sessions[sid].hand.value;
    if CoordinatorUp(s) {
      EnqueueKeepsWf(s, PacketCommand(sid, p));
      var s1 := s.(core := s.core.(queue := s.core.queue + [PacketCommand(sid, p)]));
      SessionsKeepWf(s1, sid, x.(hand := None, forwarded := x.forwarded + [p]));
    } else {
      SessionsKeepWf(s, sid, x.(hand := None));
    }
  }

  lemma DeliveredWf(s: Sys, s': Sys, sid: Sid, wrote: bool)
    requires Enabled(s, Deliver(sid, wrote)) && s' == Delivered(s, sid, wrote)
    requires Wf(s)
    ensures Wf(s')
  {
    hide Wf;
    SessionsKeepWf(s, sid, s'.sessions[sid]);
  }

  lemma FinishedWf(s: Sys, sid: Sid)
    requires Wf(s) && Enabled(s, End(sid))
    ensures Wf(Finished(s, sid))
  {
    hide Wf;
    var x := s.sessions[sid];
    if CoordinatorUp(s) {
      EnqueueKeepsWf(s, DisconnectPlayer(x.guid));
      SessionsKeepWf(s.(core := s.core.(queue := s.core.queue + [DisconnectPlayer(x.guid)])), sid, x.(phase := Ended));
    } else {
      SessionsKeepWf(s, sid, x.(phase := Ended));
    }
  }

  lemma DequeueKeepsWf(s: Sys)
    requires Wf(s) && s.core.queue != []
    ensures Wf(s.(core := WithoutHead(s.core)))
    ensures CommandWf(s.core.queue[0], Known(s.sessions), Newcomers(s.sessions))
    ensures forall i :: 0 <= i < |s.core.queue| - 1 ==> !SameJoin(s.core.queue[0], WithoutHead(s.core).queue[i])
  {
    hide TablesWf, SessionsWf, FreshWf;
  }

  /** A change of the coordinator's state that leaves the queue and the data of waiting sessions alone. */
  lemma CoreKeepsWf(s: Sys, c: Core<Sid>)
    requires Wf(s)
    requires TablesWf(c.clients, c.toClients, c.delayed, Known(s.sessions)) && c.queue == s.core.queue
    requires c.log.Keys == s.core.log.Keys && c.heap.Keys == s.core.heap.Keys
    requires forall x :: x in Newcomers(s.sessions) ==> c.log[x] == s.core.log[x] && c.heap[x] == s.core.heap[x]
    ensures Wf(s.(core := c))
  {
    hide TablesWf, QueueWf, SessionsWf;
  }

  lemma ServedPacketWf(s: Sys, from: Sid, p: Packet, ch: Choice)
    requires Wf(s) && LegalPacket(s.core, p, ch) && from in Known(s.sessions)
    ensures Wf(s.(core := HandlePacket(s.core, from, p, ch).core))
  {
    hide HandlePacket, LegalPacket, TablesWf, QueueWf, SessionsWf;
    var c' := HandlePacket(s.core, from, p, ch).core;
    PacketFrame(s.core, from, p, ch);
    PacketTables(s.core, from, p, ch, Known(s.sessions));
    forall x | x in Newcomers(s.sessions) ensures c'.log[x] == s.core.log[x] && c'.heap[x] == s.core.heap[x] {
      PacketReaches(s.core, from, p, ch, Known(s.sessions), x);
    }
    CoreKeepsWf(s, c');
  }

  lemma LeftWf(s: Sys, g: Guid, undone: set<Sid>, bye: bool)
    requires Wf(s) && undone <= Everyone(Unregister(s.core, g))
    ensures Wf(s.(core := Leave(s.core, g, undone, bye).core))
  {
    hide Leave, TablesWf, QueueWf, SessionsWf;
    var c' := Leave(s.core, g, undone, bye).core;
    LeaveFrame(s.core, g, undone, bye);
    UnregisterTables(s.core, g, Known(s.sessions));
    forall x | x in Newcomers(s.sessions) ensures c'.log[x] == s.core.log[x] && c'.heap[x] == s.core.heap[x] {
      LeaveReaches(s.core, g, undone, bye, Known(s.sessions), x);
    }
    CoreKeepsWf(s, c');
  }

  /** A waiting session becomes known: let in, or refused. */
  lemma AdmittedViews(sessions: map<Sid, Session>, sid: Sid, session: Session)
    requires sid in Newcomers(sessions) && session.phase != Waiting
    ensures Known(sessions[sid := session]) == Known(sessions)[sid := session.guid]
    ensures Newcomers(sessions[sid := session]) == Newcomers(sessions) - {sid}
  {
  }

  lemma AdmittedSessions(sessions: map<Sid, Session>, who: map<Sid, Guid>, sid: Sid, session: Session)
    requires SessionsWf(sessions, who) && sid !in who && session.phase != Waiting
    requires session.data == sid || (session.data in who && who[session.data] == session.guid)
    ensures SessionsWf(sessions[sid := session], who[sid := session.guid])
  {
    var sessions', who' := sessions[sid := session], who[sid := session.guid];
    forall x | x in sessions' ensures SessionWf(x, sessions'[x], who') {
      if x != sid {
        assert SessionWf(x, sessions[x], who);
      }
    }
  }

  lemma AdmittedQueue(queue: seq<Command<Sid>>, who: map<Sid, Guid>, waiting: map<Sid, Newcomer>, sid: Sid, guid: Guid)
    requires QueueWf(queue, who, waiting)
    requires forall i :: 0 <= i < |queue| && queue[i].NewPlayer? ==> queue[i].cli.sid != sid
    ensures QueueWf(queue, who[sid := guid], waiting - {sid})
  {
    forall i | 0 <= i < |queue| ensures CommandWf(queue[i], who[sid := guid], waiting - {sid}) {
      assert CommandWf(queue[i], who, waiting);
    }
  }

  /** The join of a waiting session that no other queued command asks for. */
  ghost predicate JoinReady(s: Sys, cli: Joiner<Sid>, connect: Packet) {
    && CommandWf(NewPlayer(cli, connect), Known(s.sessions), Newcomers(s.sessions))
    && forall i :: 0 <= i < |s.core.queue| && s.core.queue[i].NewPlayer? ==> s.core.queue[i].cli.sid != cli.sid
  }

  lemma RefusedWf(s: Sys, cli: Joiner<Sid>, connect: Packet)
    requires Wf(s) && JoinReady(s, cli, connect)
    ensures Wf(s.(core := Refuse(s.core, cli.guid),
                  sessions := s.sessions[cli.sid := s.sessions[cli.sid].(phase := Ended)]))
  {
    hide TablesWf, QueueWf, SessionsWf;
    var session := s.sessions[cli.sid].(phase := Ended);
    var s1 := s.(sessions := s.sessions[cli.sid := session]);
    assert session.data == cli.sid by { WaitingShape(s, cli.sid); }
    AdmittedViews(s.sessions, cli.sid, session);
    AdmittedSessions(s.sessions, Known(s.sessions), cli.sid, session);
    AdmittedQueue(s.core.queue, Known(s.sessions), Newcomers(s.sessions), cli.sid, cli.guid);
    MoreKnownTables(s.core, Known(s.sessions), cli.sid, cli.guid);
    assert Wf(s1);
    hide Wf;
    EnqueueKeepsWf(s1, DisconnectPlayer(cli.guid));
  }

  lemma WaitingShape(s: Sys, sid: Sid)
    requires Wf(s) && sid in Newcomers(s.sessions)
    ensures s.sessions[sid].data == sid && sid !in Known(s.sessions)
    ensures Newcomers(s.sessions)[sid] == Newcomer(s.sessions[sid].guid, s.sessions[sid].ip)
  {
    assert SessionWf(sid, s.sessions[sid], Known(s.sessions));
  }

  lemma MoreKnownTables(c: Core<Sid>, who: map<Sid, Guid>, sid: Sid, guid: Guid)
    requires TablesWf(c.clients, c.toClients, c.delayed, who) && sid !in who
    ensures TablesWf(c.clients, c.toClients, c.delayed, who[sid := guid])
  {
  }

  lemma JoinedWf(s: Sys, cli: Joiner<Sid>, connect: Packet, ch: Choice, session: Session)
    requires Wf(s) && JoinReady(s, cli, connect)
    requires LegalJoin(s.core, s.settings, cli, connect, ch) && Admission(s.core, s.settings, cli) == None
    requires session.guid == cli.guid && session.phase != Waiting
    requires session.data == DataFor(s.core, cli, connect.data.cType)
    ensures Wf(s.(core := Join(s.core, s.settings, cli, connect, ch).core,
                  sessions := s.sessions[cli.sid := session]))
  {
    hide LegalJoin, Join, Known, Newcomers, QueueWf, SessionsWf, Admission, FreshWf;
    var who, waiting := Known(s.sessions), Newcomers(s.sessions);
    WaitingShape(s, cli.sid);
    DataForKnown(s, cli, connect.data.cType);
    hide TablesWf, DataFor;
    NewcomersAreSessions(s.sessions);
    AdmittedViews(s.sessions, cli.sid, session);
    AdmittedSessions(s.sessions, who, cli.sid, session);
    AdmittedQueue(s.core.queue, who, waiting, cli.sid, cli.guid);
    JoinTables(s.core, s.settings, cli, connect, ch, who);
    JoinFrame(s.core, s.settings, cli, connect, ch);
    JoinedFresh(s, cli, connect, ch);
    var c' := Join(s.core, s.settings, cli, connect, ch).core;
    assert c'.queue == s.core.queue;
    assert c'.heap == s.core.heap;
  }

  lemma DataForKnown(s: Sys, cli: Joiner<Sid>, cType: ConnectionType)
    requires Wf(s) && cli.data == cli.sid
    ensures var d := DataFor(s.core, cli, cType);
            d == cli.sid || (d in Known(s.sessions) && Known(s.sessions)[d] == cli.guid)
  {
  }

  lemma JoinedFresh(s: Sys, cli: Joiner<Sid>, connect: Packet, ch: Choice)
    requires Wf(s) && cli.data == cli.sid && cli.sid in Newcomers(s.sessions)
    requires LegalJoin(s.core, s.settings, cli, connect, ch) && Admission(s.core, s.settings, cli) == None
    ensures var c' := Join(s.core, s.settings, cli, connect, ch).core;
            FreshWf(Newcomers(s.sessions) - {cli.sid}, c'.log, c'.heap)
  {
    hide LegalJoin, Join, QueueWf, SessionsWf, Admission, TablesWf;
    JoinFrame(s.core, s.settings, cli, connect, ch);
    forall x | x in Newcomers(s.sessions) - {cli.sid}
      ensures Join(s.core, s.settings, cli, connect, ch).core.log[x] == s.core.log[x]
    {
      JoinReaches(s.core, s.settings, cli, connect, ch, Known(s.sessions), x);
    }
  }

  /** What is noted about a step does not matter for the structure. */
  lemma NotesKeepWf(s: Sys, s': Sys)
    requires Wf(s) && s'.core == s.core && s'.sessions == s.sessions
    ensures Wf(s')
  {
  }

  lemma ModeKeepsWf(s: Sys, mode: Mode)
    requires Wf(s)
    ensures Wf(s.(mode := mode))
  {
  }

  lemma ServePacketWf(s: Sys, from: Sid, p: Packet, ch: Choice)
    requires Wf(s) && LegalPacket(s.core, p, ch) && from in Known(s.sessions) && from in s.sessions
    ensures Wf(ServePacket(s, from, p, ch))
  {
    hide *;
    KnownSession(s.sessions, from);
    ServePacketShape(s, from, p, ch);
    ServedPacketWf(s, from, p, ch);
    var s1 := s.(core := HandlePacket(s.core, from, p, ch).core);
    CounterWf(s1, ServePacket(s, from, p, ch), from, s.sessions[from].(served := s.sessions[from].served + 1));
  }

  lemma CounterWf(s: Sys, s': Sys, x: Sid, session: Session)
    requires Wf(s) && x in s.sessions && s.sessions[x].phase != Waiting
    requires session.guid == s.sessions[x].guid && session.data == s.sessions[x].data && session.phase != Waiting
    requires s'.core == s.core && s'.sessions == s.sessions[x := session]
    ensures Wf(s')
  {
    hide TablesWf, QueueWf, FreshWf, SessionsWf, Known, Newcomers;
    SessionsKeepWf(s, x, session);
  }

  lemma ServePacketShape(s: Sys, from: Sid, p: Packet, ch: Choice)
    requires LegalPacket(s.core, p, ch) && from in s.sessions
    ensures var h, x' := HandlePacket(s.core, from, p, ch), s.sessions[from].(served := s.sessions[from].served + 1);
            && ServePacket(s, from, p, ch).core == h.core
            && ServePacket(s, from, p, ch).sessions == s.sessions[from := x']
  {
    hide HandlePacket, LegalPacket;
  }

  lemma KnownSession(sessions: map<Sid, Session>, x: Sid)
    requires x in Known(sessions)
    ensures x in sessions && sessions[x].phase != Waiting
  {
  }

  lemma ServeJoinWf(s: Sys, cli: Joiner<Sid>, connect: Packet, ch: Choice)
    requires Wf(s) && JoinReady(s, cli, connect) && cli.sid in s.sessions
    requires LegalJoin(s.core, s.settings, cli, connect, ch)
    ensures Wf(ServeJoin(s, cli, connect, ch))
  {
    hide Wf, Join, LegalJoin, Admission, DataFor, JoinMissed;
    var h := Join(s.core, s.settings, cli, connect, ch);
    var x' := ServeJoin(s, cli, connect, ch).sessions[cli.sid];
    assert s.sessions[cli.sid].guid == cli.guid by { JoinerGuid(s, cli, connect); }
    if Admission(s.core, s.settings, cli).Some? {
      RefusedWf(s, cli, connect);
      JoinRefused(s.core, s.settings, cli, connect, ch);
    } else {
      JoinedWf(s, cli, connect, ch, x');
    }
    NotesKeepWf(s.(core := h.core, sessions := s.sessions[cli.sid := x']), ServeJoin(s, cli, connect, ch));
  }

  lemma JoinerGuid(s: Sys, cli: Joiner<Sid>, connect: Packet)
    requires Wf(s) && JoinReady(s, cli, connect)
    ensures cli.sid in s.sessions && s.sessions[cli.sid].guid == cli.guid
  {
    WaitingShape(s, cli.sid);
  }

  lemma JoinRefused(c: Core<Sid>, settings: Settings, cli: Joiner<Sid>, connect: Packet, ch: Choice)
    requires LegalJoin(c, settings, cli, connect, ch) && Admission(c, settings, cli).Some?
    ensures Join(c, settings, cli, connect, ch)
         == Handled(Refuse(c, cli.guid), Refused(Admission(c, settings, cli).value))
  {
  }

  lemma ServeLeaveWf(s: Sys, g: Guid, undone: set<Sid>, bye: bool)
    requires Wf(s) && undone <= Everyone(Unregister(s.core, g))
    ensures Wf(ServeLeave(s, g, undone, bye))
  {
    hide Wf, Leave, LeaveMissed;
    LeftWf(s, g, undone, bye);
    NotesKeepWf(s.(core := Leave(s.core, g, undone, bye).core), ServeLeave(s, g, undone, bye));
  }

  lemma ServedWf(s: Sys, cmd: Command<Sid>, ch: Choice)
    requires Wf(s) && Servable(s, cmd, ch)
    requires CommandWf(cmd, Known(s.sessions), Newcomers(s.sessions))
    requires forall i :: 0 <= i < |s.core.queue| ==> !SameJoin(cmd, s.core.queue[i])
    ensures Wf(Served(s, cmd, ch))
  {
    hide Wf, LegalPacket, LegalJoin, ServePacket, ServeJoin, ServeLeave, Known, Newcomers;
    match cmd
    case PacketCommand(from, p) => ServePacketWf(s, from, p, ch);
    case NewPlayer(cli, connect) => ServeJoinWf(s, cli, connect, ch);
    case DisconnectPlayer(g) => ServeLeaveWf(s, g, ch.undone, ch.bye);
    case Shutdown => ModeKeepsWf(s, Draining(s.core.toClients.Keys));
  }

  lemma KnownNotNew(sessions: map<Sid, Session>, x: Sid)
    requires x in Known(sessions)
    ensures x !in Newcomers(sessions)
  {
  }

  lemma FiredWf(s: Sys, i: nat, ids: seq<i32>)
    requires Wf(s) && Enabled(s, FireSync(i, ids))
    ensures Wf(s.(core := Fire(s.core, i, ids)))
  {
    hide QueueWf, SessionsWf, FreshWf, LegalShines, Known, Newcomers;
    var c' := Fire(s.core, i, ids);
    assert DelayedWf(s.core.delayed[i], Known(s.sessions));
    KnownNotNew(s.sessions, s.core.delayed[i].chan);
    assert TablesWf(c'.clients, c'.toClients, c'.delayed, Known(s.sessions));
    CoreKeepsWf(s, c');
  }

  /** Only arrivals, packets and the coordinator change the data of players, and only the coordinator the bag. */
  lemma SameHeap(s: Sys, l: Label)
    requires Enabled(s, l) && !l.Take? && !l.Arrive? && !l.Serve?
    ensures Step(s, l).core.heap == s.core.heap && Step(s, l).core.bag == s.core.bag
  {
    hide CanServe, ServedHead, Leave, LegalShines, Append, Writes, EndsSession, LeaveMissed, Arrived, Took, OnPacket, To,
      ShineMsgs;
    if l.Drain? {
      LeaveFrame(s.core, l.leaver, l.undone, l.bye);
    }
  }

  lemma StepWf(s: Sys, l: Label)
    requires Wf(s) && Enabled(s, l)
    ensures Wf(Step(s, l))
  {
    hide Wf, Servable, Served, Known, Newcomers;
    match l
    case Arrive(sid, ip, connect) => ArrivedWf(s, sid, ip, connect);
    case Take(sid, p) => TookWf(s, sid, p);
    case Forward(sid) => ForwardedWf(s, sid);
    case Deliver(sid, wrote) => DeliveredWf(s, Delivered(s, sid, wrote), sid, wrote);
    case End(sid) => FinishedWf(s, sid);
    case Serve(ch) =>
      DequeueKeepsWf(s);
      ServedWf(Dequeued(s), s.core.queue[0], ch);
    case FireSync(i, ids) => FiredWf(s, i, ids);
    case AskShutdown => EnqueueKeepsWf(s, Shutdown);
    case Drain(g, undone, bye) =>
      ModeKeepsWf(s, Draining(s.mode.todo - {g}));
      ServeLeaveWf(s.(mode := Draining(s.mode.todo - {g})), g, undone, bye);
  }

  lemma {:induction false} RunWf(run: seq<Sys>, labels: seq<Label>, n: nat)
    requires IsRun(run, labels) && n < |run|
    ensures Wf(run[n])
  {
    hide Wf;
    if n == 0 {
      InitialWf(run[0]);
    } else {
      RunWf(run, labels, n - 1);
      StepWf(run[n - 1], labels[n - 1]);
    }
  }

  lemma InitialWf(s: Sys)
    requires Initial(s)
    ensures Wf(s)
  {
  }
}
