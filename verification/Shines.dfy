/** Shines: what clients are thought to have, what the bag holds, and what syncs send. */
module Shines {
  import opened Utf8
  import opened Wire
  import opened Packets
  import opened Protocol
  import opened ClientTask
  import opened Sequences
  import opened System
  import opened Structure
  import opened Membership
  import opened TotalOrder
  import opened Fifo
  import opened Admission

  // ---- a sync is exact ----

  /** A sync in which no send fails appends to each inbox one message for every shine of the bag that its client
      lacks, and nothing for a client that is speedrunning; each shine once; and it changes nothing else. */
  lemma SyncIsExact(c: Core<Sid>, shines: map<Sid, seq<i32>>, g: Guid, who: map<Sid, Guid>)
    requires HandlesLive(c) && LegalSync(c, shines) && Synced(c, shines)
    requires TablesWf(c.clients, c.toClients, c.delayed, who)
    requires g in c.clients && c.toClients[g] in c.log
    ensures var c', x, d := SyncAll(c, shines), c.toClients[g], c.heap[c.clients[g]];
            var sent := c'.log[x][|c.log[x]|..];
            var lacked := if d.speedrunStart then {} else c.bag - d.shineSync;
            && c.log[x] <= c'.log[x]
            && |sent| == |lacked|
            && (forall k :: k in lacked <==> exists i :: 0 <= i < |sent| && sent[i].packet.data == Shine(k, false))
            && (forall i :: 0 <= i < |sent| ==> sent[i].kind == Sync && sent[i].packet.id == DEFAULT_GUID)
            && (d.speedrunStart ==> sent == [])
            && c' == c.(log := c'.log)
  {
    var c', x, d := SyncAll(c, shines), c.toClients[g], c.heap[c.clients[g]];
    var ids := shines[x];
    assert LegalShines(ids, d, c.bag) && AllSent(ids, d, c.bag);
    assert c'.log[x] == c.log[x] + ShineMsgs(DEFAULT_GUID, ids);
    var sent := c'.log[x][|c.log[x]|..];
    assert sent == ShineMsgs(DEFAULT_GUID, ids);
    IdsAreMissing(ids, d, c.bag);
    forall k ensures k in Missing(d, c.bag) <==> exists i :: 0 <= i < |sent| && sent[i].packet.data == Shine(k, false) {
      if k in Missing(d, c.bag) {
        var i :| 0 <= i < |ids| && ids[i] == k;
        assert sent[i].packet.data == Shine(k, false);
      }
    }
  }

  function Elements(ids: seq<i32>): set<i32> {
    set k | k in ids
  }

  lemma IdsAreMissing(ids: seq<i32>, d: Profile, bag: set<i32>)
    requires LegalShines(ids, d, bag) && AllSent(ids, d, bag)
    ensures |ids| == |Missing(d, bag)|
  {
    hide Missing;
    NoDuplicatesSize(ids);
    assert Elements(ids) == Missing(d, bag);
  }

  lemma {:induction false} NoDuplicatesSize(ids: seq<i32>)
    requires NoDuplicates(ids)
    ensures |Elements(ids)| == |ids|
  {
    if ids != [] {
      var n := |ids| - 1;
      NoDuplicatesSize(ids[..n]);
      assert ids == ids[..n] + [ids[n]];
      assert Elements(ids) == Elements(ids[..n]) + {ids[n]};
      assert ids[n] !in Elements(ids[..n]);
    }
  }

  // ---- agreement ----

  function ShineOf(cmd: Command<Sid>, g: Guid, who: map<Sid, Guid>): set<i32> {
    if cmd.PacketCommand? && cmd.from in who && who[cmd.from] == g && cmd.packet.data.Shine? then
      {cmd.packet.data.shineId}
    else {}
  }

  /** The shines that sessions of one player have reported and the coordinator has not handled yet. */
  function QueuedShines(queue: seq<Command<Sid>>, g: Guid, who: map<Sid, Guid>): set<i32> {
    if queue == [] then {} else ShineOf(queue[0], g, who) + QueuedShines(queue[1..], g, who)
  }

  /** The shines that sessions of one player have reported and are about to send to the coordinator. */
  function HandShines(sessions: map<Sid, Session>, g: Guid): set<i32> {
    set x | x in sessions && sessions[x].guid == g && sessions[x].hand.Some? && sessions[x].hand.value.data.Shine?
      :: sessions[x].hand.value.data.shineId
  }

  /** The shines of a player that are on their way into the bag. */
  function OnTheWay(s: Sys, g: Guid): set<i32> {
    QueuedShines(s.core.queue, g, Known(s.sessions)) + HandShines(s.sessions, g)
  }

  /** Whatever a registered player is thought to have is in the bag or on its way there, or has been lost. */
  ghost predicate ShinesAgreeFor(s: Sys, g: Guid, lost: set<i32>) {
    && g in s.core.clients && s.core.clients[g] in s.core.heap
    && s.core.heap[s.core.clients[g]].shineSync <= s.core.bag + OnTheWay(s, g) + lost
  }

  ghost predicate ShinesAgree(s: Sys, lost: set<i32>) {
    forall g :: g in s.core.clients ==> ShinesAgreeFor(s, g, lost)
  }

  // ---- what is on its way ----

  lemma {:induction false} QueuedAppend(queue: seq<Command<Sid>>, cmd: Command<Sid>, g: Guid, who: map<Sid, Guid>)
    ensures QueuedShines(queue + [cmd], g, who) == QueuedShines(queue, g, who) + ShineOf(cmd, g, who)
  {
    if queue == [] {
      assert [cmd][1..] == [];
      assert queue + [cmd] == [cmd];
    } else {
      assert (queue + [cmd])[1..] == queue[1..] + [cmd];
      QueuedAppend(queue[1..], cmd, g, who);
    }
  }

  lemma {:induction false} QueuedMore(queue: seq<Command<Sid>>, g: Guid, who: map<Sid, Guid>, who': map<Sid, Guid>)
    requires KnowsMore(who, who')
    ensures QueuedShines(queue, g, who) <= QueuedShines(queue, g, who')
  {
    if queue != [] {
      QueuedMore(queue[1..], g, who, who');
    }
  }

  lemma HeadShines(queue: seq<Command<Sid>>, g: Guid, who: map<Sid, Guid>)
    requires queue != []
    ensures QueuedShines(queue, g, who) == ShineOf(queue[0], g, who) + QueuedShines(queue[1..], g, who)
  {
  }

  /** A change to one session that leaves its hand alone, or a new session. */
  lemma SameHandShines(sessions: map<Sid, Session>, x: Sid, session: Session, g: Guid)
    requires if x in sessions then session.guid == sessions[x].guid && session.hand == sessions[x].hand
             else session.hand == None
    ensures HandShines(sessions[x := session], g) == HandShines(sessions, g)
  {
    var sessions' := sessions[x := session];
    forall k ensures k in HandShines(sessions', g) <==> k in HandShines(sessions, g) {
      if k in HandShines(sessions, g) {
        var y :| y in sessions && sessions[y].guid == g && sessions[y].hand.Some? && sessions[y].hand.value.data.Shine?
                 && sessions[y].hand.value.data.shineId == k;
        assert sessions'[y].hand == sessions[y].hand && sessions'[y].guid == g;
      }
    }
  }

  /** A session's hand is filled or emptied. */
  lemma OneHand(sessions: map<Sid, Session>, x: Sid, session: Session, g: Guid)
    requires x in sessions && session.guid == sessions[x].guid
    ensures HandShines(sessions, g) <= HandShines(sessions[x := session], g) + HandOf(sessions[x], g)
    ensures HandOf(session, g) <= HandShines(sessions[x := session], g)
  {
    var sessions' := sessions[x := session];
    forall k | k in HandShines(sessions, g) ensures k in HandShines(sessions', g) + HandOf(sessions[x], g) {
      var y :| y in sessions && sessions[y].guid == g && sessions[y].hand.Some? && sessions[y].hand.value.data.Shine?
               && sessions[y].hand.value.data.shineId == k;
      if y != x {
        assert sessions'[y].hand == sessions[y].hand && sessions'[y].guid == g;
      }
    }
    if HandOf(session, g) != {} {
      assert sessions'[x] == session;
    }
  }

  function HandOf(x: Session, g: Guid): set<i32> {
    if x.guid == g && x.hand.Some? && x.hand.value.data.Shine? then {x.hand.value.data.shineId} else {}
  }

  lemma PendingGrows(s: Sys, s': Sys, g: Guid)
    requires KnowsMore(Known(s.sessions), Known(s'.sessions))
    requires s'.core.queue == s.core.queue || exists cmd :: s'.core.queue == s.core.queue + [cmd]
    requires HandShines(s.sessions, g) <= HandShines(s'.sessions, g)
    ensures OnTheWay(s, g) <= OnTheWay(s', g)
  {
    hide QueuedShines, ShineOf, Known, HandShines;
    var who, who' := Known(s.sessions), Known(s'.sessions);
    QueuedMore(s.core.queue, g, who, who');
    if s'.core.queue != s.core.queue {
      var cmd :| s'.core.queue == s.core.queue + [cmd];
      QueuedAppend(s.core.queue, cmd, g, who');
    }
  }

  // ---- one step ----

  /** What a step must keep for one player: it starts out with no shines, or nothing it has is forgotten. */
  ghost predicate Kept(s: Sys, s': Sys, g: Guid, cleared: set<i32>) {
    g in s'.core.clients ==>
      var r := s'.core.clients[g];
      && r in s'.core.heap
      && (s'.core.heap[r].shineSync == {}
          || (&& g in s.core.clients && s.core.clients[g] == r && r in s.core.heap
              && s'.core.heap[r].shineSync <= s.core.heap[r].shineSync + OnTheWay(s', g)
              && s.core.bag + OnTheWay(s, g) <= s'.core.bag + OnTheWay(s', g) + cleared))
  }

  lemma KeptAgrees(s: Sys, s': Sys, lost: set<i32>, cleared: set<i32>)
    requires ShinesAgree(s, lost) && forall g :: g in s'.core.clients ==> Kept(s, s', g, cleared)
    ensures ShinesAgree(s', lost + cleared)
  {
    hide OnTheWay;
    forall g | g in s'.core.clients ensures ShinesAgreeFor(s', g, lost + cleared) {
      assert Kept(s, s', g, cleared);
      if g in s.core.clients {
        assert ShinesAgreeFor(s, g, lost);
      }
    }
  }

  /** Players, data and bag are as before, and nothing on its way is forgotten. */
  lemma SameKept(s: Sys, s': Sys, g: Guid)
    requires g in s'.core.clients ==> g in s.core.clients && s'.core.clients[g] == s.core.clients[g]
    requires g in s'.core.clients ==>
               && s.core.clients[g] in s.core.heap && s.core.clients[g] in s'.core.heap
               && s'.core.heap[s.core.clients[g]].shineSync <= s.core.heap[s.core.clients[g]].shineSync
    requires s.core.bag <= s'.core.bag && OnTheWay(s, g) <= OnTheWay(s', g)
    ensures Kept(s, s', g, {})
  {
    hide OnTheWay;
  }

  /** What is no longer on its way is in the bag now, and what is no longer in the bag has been cleared. */
  lemma Moves(bag: set<i32>, pending: set<i32>, bag': set<i32>, pending': set<i32>, arrived: set<i32>,
              cleared: set<i32>)
    requires pending <= pending' + arrived && arrived <= bag' && bag <= bag' + cleared
    ensures bag + pending <= bag' + pending' + cleared
  {
  }

  lemma MovesKept(s: Sys, s': Sys, g: Guid, arrived: set<i32>, cleared: set<i32>)
    requires OnTheWay(s, g) <= OnTheWay(s', g) + arrived && arrived <= s'.core.bag && s.core.bag <= s'.core.bag + cleared
    requires g in s'.core.clients ==> g in s.core.clients && s'.core.clients[g] == s.core.clients[g]
    requires g in s'.core.clients ==> var r := s.core.clients[g];
               && r in s.core.heap && r in s'.core.heap
               && s'.core.heap[r].shineSync <= s.core.heap[r].shineSync + OnTheWay(s', g)
    ensures Kept(s, s', g, cleared)
  {
    hide OnTheWay;
    Moves(s.core.bag, OnTheWay(s, g), s'.core.bag, OnTheWay(s', g), arrived, cleared);
  }

  lemma StartsEmpty(s: Sys, s': Sys, g: Guid)
    requires g in s'.core.clients && s'.core.clients[g] in s'.core.heap
    requires s'.core.heap[s'.core.clients[g]].shineSync == {}
    ensures Kept(s, s', g, {})
  {
  }

  lemma PlayerData(s: Sys, g: Guid)
    requires Wf(s) && g in s.core.clients
    ensures s.core.clients[g] in Known(s.sessions) && Known(s.sessions)[s.core.clients[g]] == g
    ensures s.core.clients[g] in s.core.heap && s.core.clients[g] in s.sessions
  {
    NewcomersAreSessions(s.sessions);
  }

  lemma KnowsSelf(who: map<Sid, Guid>)
    ensures KnowsMore(who, who)
  {
  }

  lemma ArrivedKept(s: Sys, sid: Sid, ip: Ip, connect: Packet, g: Guid)
    requires Wf(s) && Enabled(s, Arrive(sid, ip, connect))
    ensures Kept(s, Arrived(s, sid, ip, connect), g, {})
  {
    hide Wf, NewProfile, Known, Newcomers, OnTheWay, HandShines, QueuedShines, Kept, KnowsMore;
    var s' := Arrived(s, sid, ip, connect);
    ArrivedViews(s.sessions, sid, s'.sessions[sid]);
    SameHandShines(s.sessions, sid, s'.sessions[sid], g);
    KnowsSelf(Known(s.sessions));
    PendingGrows(s, s', g);
    if g in s.core.clients {
      PlayerData(s, g);
    }
    SameKept(s, s', g);
  }

  lemma TookShines(d: Profile, p: Packet)
    ensures OnPacket(d, p).shineSync <= d.shineSync + if p.data.Shine? then {p.data.shineId} else {}
  {
    hide IsReset;
  }

  lemma TookPending(s: Sys, sid: Sid, p: Packet, g: Guid)
    requires Enabled(s, Take(sid, p))
    ensures OnTheWay(s, g) <= OnTheWay(Took(s, sid, p), g)
    ensures p.data.Shine? && s.sessions[sid].guid == g ==> p.data.shineId in OnTheWay(Took(s, sid, p), g)
  {
    hide Known, HandShines, OnPacket, QueuedShines;
    var s' := Took(s, sid, p);
    SameKnown(s.sessions, sid, s'.sessions[sid]);
    OneHand(s.sessions, sid, s'.sessions[sid], g);
    KnowsSelf(Known(s.sessions));
    PendingGrows(s, s', g);
  }

  lemma SameKnown(sessions: map<Sid, Session>, x: Sid, session: Session)
    requires x in sessions && sessions[x].phase != Waiting && session.phase != Waiting
    requires session.guid == sessions[x].guid
    ensures Known(sessions[x := session]) == Known(sessions)
  {
  }

  /** A player's own report goes to its data first and to the session's hand. */
  lemma TookKept(s: Sys, s': Sys, sid: Sid, p: Packet, g: Guid)
    requires Enabled(s, Take(sid, p)) && s' == Took(s, sid, p)
    requires Wf(s)
    ensures Kept(s, s', g, {})
  {
    SharesOwnData(s, sid);
    hide Wf, Known, OnPacket, OnTheWay, Kept;
    TookPending(s, sid, p, g);
    TookShines(s.core.heap[s.sessions[sid].data], p);
    if g in s.core.clients {
      PlayerData(s, g);
      TookData(s, s', sid, p, g);
    }
    MovesKept(s, s', g, {}, {});
  }

  lemma TookData(s: Sys, s': Sys, sid: Sid, p: Packet, g: Guid)
    requires Enabled(s, Take(sid, p)) && s' == Took(s, sid, p) && g in s.core.clients && s.core.clients[g] in s.core.heap
    requires s.core.clients[g] == s.sessions[sid].data ==> s.sessions[sid].guid == g
    requires p.data.Shine? && s.sessions[sid].guid == g ==> p.data.shineId in OnTheWay(s', g)
    ensures var r := s.core.clients[g];
            r in s'.core.heap && s'.core.heap[r].shineSync <= s.core.heap[r].shineSync + OnTheWay(s', g)
  {
    hide OnPacket, OnTheWay;
    TookShines(s.core.heap[s.sessions[sid].data], p);
  }

  lemma SharesOwnData(s: Sys, sid: Sid)
    requires Wf(s) && sid in s.sessions && s.sessions[sid].phase != Waiting
    ensures s.sessions[sid].data in Known(s.sessions) && Known(s.sessions)[s.sessions[sid].data] == s.sessions[sid].guid
  {
    assert SessionWf(sid, s.sessions[sid], Known(s.sessions));
  }

  lemma ForwardedKept(s: Sys, sid: Sid, g: Guid)
    requires Wf(s) && Enabled(s, Forward(sid)) && CoordinatorUp(s)
    ensures Kept(s, Forwarded(s, sid), g, {})
  {
    var s', x := Forwarded(s, sid), s.sessions[sid];
    CounterViews(s.sessions, sid, s'.sessions[sid]);
    KnownHere(s.sessions, sid);
    hide Wf, Known, HandShines, QueuedShines, Newcomers;
    OneHand(s.sessions, sid, s'.sessions[sid], g);
    QueuedAppend(s.core.queue, PacketCommand(sid, x.hand.value), g, Known(s.sessions));
    if g in s.core.clients {
      PlayerData(s, g);
    }
    SameKept(s, s', g);
  }

  lemma KnownHere(sessions: map<Sid, Session>, x: Sid)
    requires x in sessions && sessions[x].phase != Waiting
    ensures x in Known(sessions) && Known(sessions)[x] == sessions[x].guid
  {
  }

  /** A session's counters change, and perhaps a command is queued. */
  lemma CounterKept(s: Sys, s': Sys, x: Sid, g: Guid)
    requires x in s.sessions && s.sessions[x].phase != Waiting && s'.sessions.Keys == s.sessions.Keys
    requires var y := s'.sessions[x];
             && y.phase != Waiting && y.guid == s.sessions[x].guid && y.hand == s.sessions[x].hand
             && s'.sessions == s.sessions[x := y]
    requires s'.core == s.core || exists cmd :: s'.core == s.core.(queue := s.core.queue + [cmd])
    requires Wf(s)
    ensures Kept(s, s', g, {})
  {
    CounterViews(s.sessions, x, s'.sessions[x]);
    hide Wf, Known, HandShines, QueuedShines, Newcomers, OnTheWay;
    SameHandShines(s.sessions, x, s'.sessions[x], g);
    KnowsSelf(Known(s.sessions));
    PendingGrows(s, s', g);
    if g in s.core.clients {
      PlayerData(s, g);
    }
    SameKept(s, s', g);
  }

  /** The tables may shrink and messages be sent, and perhaps a command is queued. */
  lemma LeftKept(s: Sys, s': Sys, g: Guid)
    requires s'.sessions == s.sessions && s'.core.heap == s.core.heap && s'.core.bag == s.core.bag
    requires forall h :: h in s'.core.clients ==> h in s.core.clients && s'.core.clients[h] == s.core.clients[h]
    requires s'.core.queue == s.core.queue || exists cmd :: s'.core.queue == s.core.queue + [cmd]
    requires Wf(s)
    ensures Kept(s, s', g, {})
  {
    hide Wf, Known, HandShines, QueuedShines, OnTheWay;
    KnowsSelf(Known(s.sessions));
    PendingGrows(s, s', g);
    if g in s.core.clients {
      PlayerData(s, g);
    }
    SameKept(s, s', g);
  }

  // ---- serving ----

  /** The step handles a game start that clears the bag. */
  ghost predicate Clears(s: Sys, l: Label) {
    && l.Serve? && s.core.queue != [] && s.core.queue[0].PacketCommand?
    && IsReset(s.core.queue[0].packet.data) && s.core.queue[0].packet.id in s.core.clients
  }

  /** What handling a packet may do to the bag and to what players are thought to have. */
  lemma PacketShines(c: Core<Sid>, from: Sid, p: Packet, ch: Choice)
    requires LegalPacket(c, p, ch)
    ensures var c' := HandlePacket(c, from, p, ch).core;
            && (p.data.Shine? ==> c'.bag == c.bag + {p.data.shineId})
            && (!p.data.Shine? && !(IsReset(p.data) && p.id in c.clients) ==> c'.bag == c.bag)
            && c'.heap.Keys == c.heap.Keys
            && forall r :: r in c.heap ==> c'.heap[r].shineSync <= c.heap[r].shineSync
  {
    hide LegalShines, Synced, IsWaterfall, CAP_STAGE, Append, ShineSends, Resize, Missing;
  }

  lemma ServedPacketShape(s: Sys, ch: Choice)
    requires CanServe(s, ch) && s.core.queue[0].PacketCommand?
    ensures var from, p, s' := s.core.queue[0].from, s.core.queue[0].packet, ServedHead(s, ch);
            && LegalPacket(WithoutHead(s.core), p, ch) && from in s.sessions
            && s'.core == HandlePacket(WithoutHead(s.core), from, p, ch).core
            && from in s'.sessions && s'.sessions == s.sessions[from := s'.sessions[from]]
            && s'.sessions[from] == s.sessions[from].(served := s.sessions[from].served + 1)
  {
    hide HandlePacket, LegalPacket;
    ServePacketShape(Dequeued(s), s.core.queue[0].from, s.core.queue[0].packet, ch);
  }

  lemma SenderKnown(s: Sys)
    requires Wf(s) && s.core.queue != [] && s.core.queue[0].PacketCommand?
    ensures s.core.queue[0].from in Known(s.sessions)
  {
    hide TablesWf, SessionsWf, FreshWf;
    assert CommandWf(s.core.queue[0], Known(s.sessions), Newcomers(s.sessions));
  }

  lemma ServedPacketPending(s: Sys, ch: Choice, g: Guid)
    requires CanServe(s, ch) && s.core.queue[0].PacketCommand?
    requires Wf(s)
    ensures var d := s.core.queue[0].packet.data;
            OnTheWay(s, g) <= OnTheWay(ServedHead(s, ch), g) + if d.Shine? then {d.shineId} else {}
  {
    var s1, s', from, p := Dequeued(s), ServedHead(s, ch), s.core.queue[0].from, s.core.queue[0].packet;
    SenderKnown(s);
    KnownSession(s.sessions, from);
    ServedPacketShape(s, ch);
    hide Wf, HandlePacket, LegalPacket, Known, Newcomers, HandShines, QueuedShines, ServedHead, CanServe;
    SameKnown(s.sessions, from, s'.sessions[from]);
    SameHandShines(s.sessions, from, s'.sessions[from], g);
    PacketFrame(s1.core, from, p, ch);
    HeadShines(s.core.queue, g, Known(s.sessions));
  }

  /** Handling the packet at the head of the queue moves its shine, if it has one, into the bag; a reset clears it. */
  lemma ServedPacketKept(s: Sys, ch: Choice, g: Guid)
    requires CanServe(s, ch) && s.core.queue[0].PacketCommand?
    requires Wf(s)
    ensures Kept(s, ServedHead(s, ch), g, if Clears(s, Serve(ch)) then s.core.bag else {})
  {
    var s1, from, p := Dequeued(s), s.core.queue[0].from, s.core.queue[0].packet;
    ServedPacketPending(s, ch, g);
    ServedPacketShape(s, ch);
    hide Wf, HandlePacket, LegalPacket, IsReset, OnTheWay, ServedHead, CanServe, Kept;
    PacketShines(s1.core, from, p, ch);
    PacketFrame(s1.core, from, p, ch);
    if g in s.core.clients {
      PlayerData(s, g);
    }
    MovesKept(s, ServedHead(s, ch), g, if p.data.Shine? then {p.data.shineId} else {},
              if Clears(s, Serve(ch)) then s.core.bag else {});
  }

  /** A join changes neither bag nor data, and registers nobody but the newcomer. */
  lemma JoinShines(c: Core<Sid>, settings: Settings, cli: Joiner<Sid>, connect: Packet, ch: Choice)
    requires LegalJoin(c, settings, cli, connect, ch)
    ensures var c' := Join(c, settings, cli, connect, ch).core;
            && c'.bag == c.bag && c'.heap == c.heap
            && (c'.queue == c.queue || c'.queue == c.queue + [DisconnectPlayer(cli.guid)])
            && forall g :: g in c'.clients ==>
                 (g in c.clients && c'.clients[g] == c.clients[g]) || c'.clients[g] == cli.data
  {
    hide Join, LegalJoin, Protocol.Admission;
    if Protocol.Admission(c, settings, cli).Some? {
      JoinRefused(c, settings, cli, connect, ch);
    } else {
      JoinFrame(c, settings, cli, connect, ch);
    }
  }

  lemma JoiningGuid(s: Sys, cli: Joiner<Sid>, connect: Packet)
    requires Wf(s) && CommandWf(NewPlayer(cli, connect), Known(s.sessions), Newcomers(s.sessions))
    ensures cli.sid in Newcomers(s.sessions) && cli.data == cli.sid && cli.sid in s.sessions
    ensures cli.sid in s.core.heap && s.core.heap[cli.sid].shineSync == {}
  {
    NewcomersAreSessions(s.sessions);
  }

  lemma ServedJoinKnows(s: Sys, ch: Choice)
    requires CanServe(s, ch) && s.core.queue[0].NewPlayer?
    requires s.core.queue[0].cli.sid in Newcomers(s.sessions)
    ensures KnowsMore(Known(s.sessions), Known(ServedHead(s, ch).sessions))
  {
    hide Join, LegalJoin, Protocol.Admission, DataFor;
    AdmittedViews(s.sessions, s.core.queue[0].cli.sid, ServedHead(s, ch).sessions[s.core.queue[0].cli.sid]);
  }

  lemma ServedJoinShape(s: Sys, ch: Choice)
    requires CanServe(s, ch) && s.core.queue[0].NewPlayer?
    ensures var x, s' := s.core.queue[0].cli.sid, ServedHead(s, ch);
            && x in s.sessions && x in s'.sessions && s'.sessions == s.sessions[x := s'.sessions[x]]
            && s'.sessions[x].guid == s.sessions[x].guid && s'.sessions[x].hand == s.sessions[x].hand
            && LegalJoin(WithoutHead(s.core), s.settings, s.core.queue[0].cli, s.core.queue[0].connect, ch)
            && s'.core == Join(WithoutHead(s.core), s.settings, s.core.queue[0].cli, s.core.queue[0].connect, ch).core
  {
    hide Join, LegalJoin, Protocol.Admission, DataFor;
  }

  lemma ServedJoinPending(s: Sys, ch: Choice, g: Guid)
    requires CanServe(s, ch) && s.core.queue[0].NewPlayer? && s.core.queue[0].cli.sid in Newcomers(s.sessions)
    ensures OnTheWay(s, g) <= OnTheWay(ServedHead(s, ch), g)
  {
    var s1, s', cli, connect := Dequeued(s), ServedHead(s, ch), s.core.queue[0].cli, s.core.queue[0].connect;
    ServedJoinKnows(s, ch);
    ServedJoinShape(s, ch);
    hide Join, LegalJoin, Known, Newcomers, Protocol.Admission, KnowsMore, HandShines, QueuedShines, ServedHead,
      CanServe;
    JoinShines(s1.core, s.settings, cli, connect, ch);
    SameHandShines(s.sessions, cli.sid, s'.sessions[cli.sid], g);
    HeadShines(s.core.queue, g, Known(s.sessions));
    assert OnTheWay(s, g) == OnTheWay(s1, g);
    PendingGrows(s1, s', g);
  }

  lemma ServedJoinKept(s: Sys, ch: Choice, g: Guid)
    requires CanServe(s, ch) && s.core.queue[0].NewPlayer?
    requires Wf(s)
    ensures Kept(s, ServedHead(s, ch), g, {})
  {
    var s1, cli, connect := Dequeued(s), s.core.queue[0].cli, s.core.queue[0].connect;
    DequeueKeepsWf(s);
    JoiningGuid(s1, cli, connect);
    ServedJoinPending(s, ch, g);
    ServedJoinShape(s, ch);
    hide Join, LegalJoin, Wf, Known, Newcomers, ServedHead, OnTheWay, Kept, CanServe;
    JoinShines(s1.core, s.settings, cli, connect, ch);
    var s' := ServedHead(s, ch);
    if g in s'.core.clients && s'.core.clients[g] == cli.data {
      StartsEmpty(s, s', g);
    } else {
      if g in s.core.clients {
        PlayerData(s, g);
      }
      SameKept(s, s', g);
    }
  }

  lemma ServedOtherKept(s: Sys, ch: Choice, g: Guid)
    requires CanServe(s, ch) && (s.core.queue[0].DisconnectPlayer? || s.core.queue[0].Shutdown?)
    requires Wf(s)
    ensures Kept(s, ServedHead(s, ch), g, {})
  {
    hide Leave, Wf, Known, HandShines, QueuedShines;
    var s1 := Dequeued(s);
    DequeueKeepsWf(s);
    HeadShines(s.core.queue, g, Known(s.sessions));
    assert OnTheWay(s, g) == OnTheWay(s1, g);
    hide OnTheWay;
    if s.core.queue[0].DisconnectPlayer? {
      LeaveFrame(s1.core, s.core.queue[0].guid, ch.undone, ch.bye);
    }
    LeftKept(s1, ServedHead(s, ch), g);
  }

  lemma ServedKept(s: Sys, ch: Choice, g: Guid)
    requires CanServe(s, ch)
    requires Wf(s)
    ensures Kept(s, ServedHead(s, ch), g, if Clears(s, Serve(ch)) then s.core.bag else {})
  {
    hide Wf, Servable, ServedHead, Kept;
    match s.core.queue[0]
    case PacketCommand(from, p) => ServedPacketKept(s, ch, g);
    case NewPlayer(_, _) => ServedJoinKept(s, ch, g);
    case _ => ServedOtherKept(s, ch, g);
  }

  /** No step but a reset forgets anything.  Once the coordinator is gone, nobody is registered. */
  lemma StepKept(s: Sys, l: Label, g: Guid)
    requires Enabled(s, l) && DrainInv(s)
    requires Wf(s)
    ensures Kept(s, Step(s, l), g, if Clears(s, l) then s.core.bag else {})
  {
    hide Wf, Kept, CanServe, ServedHead, Leave, OnPacket, IsReset, NewProfile, LegalShines, ShineMsgs, Writes,
      EndsSession;
    var s' := Step(s, l);
    match l
    case Arrive(sid, ip, connect) => ArrivedKept(s, sid, ip, connect, g);
    case Take(sid, p) => TookKept(s, s', sid, p, g);
    case Forward(sid) =>
      if CoordinatorUp(s) {
        ForwardedKept(s, sid, g);
      } else {
        NobodyKept(s, s', g);
      }
    case Deliver(sid, wrote) => CounterKept(s, s', sid, g);
    case End(sid) => CounterKept(s, s', sid, g);
    case Serve(ch) => ServedKept(s, ch, g);
    case FireSync(i, ids) => LeftKept(s, s', g);
    case AskShutdown => LeftKept(s, s', g);
    case Drain(h, undone, bye) =>
      LeaveFrame(s.core, h, undone, bye);
      LeftKept(s, s', g);
  }

  lemma NobodyKept(s: Sys, s': Sys, g: Guid)
    requires !CoordinatorUp(s) && DrainInv(s) && s'.core == s.core
    ensures Kept(s, s', g, {})
  {
    hide OnTheWay;
  }

  // ---- whole runs ----

  /** The shines that were in the bag when a game start cleared it. */
  ghost function Cleared(run: seq<Sys>, labels: seq<Label>, n: nat): set<i32>
    requires n < |run| && n <= |labels|
  {
    if n == 0 then {}
    else Cleared(run, labels, n - 1) + if Clears(run[n - 1], labels[n - 1]) then run[n - 1].core.bag else {}
  }

  lemma {:induction false} NothingCleared(run: seq<Sys>, labels: seq<Label>, n: nat)
    requires n < |run| && n <= |labels| && forall i :: 0 <= i < n ==> !Clears(run[i], labels[i])
    ensures Cleared(run, labels, n) == {}
  {
    if n > 0 {
      NothingCleared(run, labels, n - 1);
    }
  }

  /** In every run, every registered player is thought to have only shines that are in the bag, or that one of its own
      sessions has reported and that are still on their way to the coordinator, or that a reset has cleared from the
      bag.  Without resets only the first two are left. */
  lemma {:induction false} ShinesAgreeInRuns(run: seq<Sys>, labels: seq<Label>, n: nat)
    requires IsRun(run, labels) && n < |run|
    ensures ShinesAgree(run[n], Cleared(run, labels, n))
    ensures (forall i :: 0 <= i < n ==> !Clears(run[i], labels[i])) ==> ShinesAgree(run[n], {})
  {
    hide Wf, ShinesAgree, Step, Enabled, Clears, DrainInv, Kept;
    if n == 0 {
      InitialAgrees(run[0]);
    } else {
      var s, s', l := run[n - 1], run[n], labels[n - 1];
      ShinesAgreeInRuns(run, labels, n - 1);
      RunWf(run, labels, n - 1);
      ShutdownDrains(run, labels, n - 1);
      var cleared := if Clears(s, l) then s.core.bag else {};
      forall g | g in s'.core.clients ensures Kept(s, s', g, cleared) {
        StepKept(s, l, g);
      }
      KeptAgrees(s, s', Cleared(run, labels, n - 1), cleared);
    }
    if forall i :: 0 <= i < n ==> !Clears(run[i], labels[i]) {
      NothingCleared(run, labels, n);
    }
  }

  lemma InitialAgrees(s: Sys)
    requires Initial(s)
    ensures ShinesAgree(s, {})
  {
  }

  /** A reset keeps the full agreement exactly when every other player is thought to have only shines that are still
      on their way; for the player that resets it always holds afterwards. */
  lemma ResetAgreesExactly(s: Sys, g: Guid)
    requires HandlesLive(s.core) && g in s.core.clients
    requires Wf(s)
    ensures var s' := s.(core := Reset(s.core, g));
            && ShinesAgreeFor(s', g, {})
            && (ShinesAgree(s', {}) <==>
                forall h :: h in s.core.clients && h != g ==> s.core.heap[s.core.clients[h]].shineSync <= OnTheWay(s, h))
  {
    hide Wf, OnTheWay, ShinesAgreeFor;
    var s' := s.(core := Reset(s.core, g));
    forall h | h in s.core.clients
      ensures if h == g then ShinesAgreeFor(s', h, {})
              else ShinesAgreeFor(s', h, {}) <==> s.core.heap[s.core.clients[h]].shineSync <= OnTheWay(s, h)
    {
      ResetAgreesFor(s, g, h);
    }
    assert forall h :: h in s'.core.clients <==> h in s.core.clients;
  }

  lemma ResetAgreesFor(s: Sys, g: Guid, h: Guid)
    requires HandlesLive(s.core) && g in s.core.clients && h in s.core.clients
    requires Wf(s)
    ensures var s' := s.(core := Reset(s.core, g));
            if h == g then ShinesAgreeFor(s', h, {})
            else ShinesAgreeFor(s', h, {}) <==> s.core.heap[s.core.clients[h]].shineSync <= OnTheWay(s, h)
  {
    ResetPending(s, g, h);
    ResetData(s, g, h);
    hide *;
    var s' := s.(core := Reset(s.core, g));
    AgreesForIs(s', h);
  }

  lemma AgreesForIs(s: Sys, h: Guid)
    requires h in s.core.clients && s.core.clients[h] in s.core.heap && s.core.bag == {}
    ensures ShinesAgreeFor(s, h, {}) <==> s.core.heap[s.core.clients[h]].shineSync <= OnTheWay(s, h)
  {
    hide OnTheWay;
    var sync, pending := s.core.heap[s.core.clients[h]].shineSync, OnTheWay(s, h);
    assert s.core.bag + pending + {} == pending;
  }

  lemma ResetData(s: Sys, g: Guid, h: Guid)
    requires HandlesLive(s.core) && g in s.core.clients && h in s.core.clients
    requires Wf(s)
    ensures var c, c' := s.core, Reset(s.core, g);
            && c'.clients == c.clients && c'.bag == {} && c.clients[h] in c.heap && c.clients[h] in c'.heap
            && c'.heap[c.clients[h]].shineSync == if h == g then {} else c.heap[c.clients[h]].shineSync
  {
    PlayerData(s, g);
    PlayerData(s, h);
    hide Wf;
  }

  lemma ResetPending(s: Sys, g: Guid, h: Guid)
    requires HandlesLive(s.core) && g in s.core.clients
    ensures OnTheWay(s.(core := Reset(s.core, g)), h) == OnTheWay(s, h)
  {
  }
}
