/** Where shines come from, and whom syncs are sent to, over whole runs. */
module Provenance {
  import opened Utf8
  import opened Wire
  import opened Packets
  import opened Protocol
  import opened ClientTask
  import opened Sequences
  import opened System
  import opened Structure
  import opened Membership
  import opened TotalOrder
  import opened Messages
  import opened Fifo
  import opened Shines

  // ---- the bag ----

  /** The step handles a report of the given shine. */
  ghost predicate Reports(s: Sys, l: Label, k: i32) {
    && l.Serve? && s.core.queue != [] && s.core.queue[0].PacketCommand?
    && s.core.queue[0].packet.data.Shine? && s.core.queue[0].packet.data.shineId == k
  }

  lemma PacketBag(c: Core<Sid>, from: Sid, p: Packet, ch: Choice, k: i32)
    requires LegalPacket(c, p, ch)
    requires k in HandlePacket(c, from, p, ch).core.bag && k !in c.bag
    ensures p.data.Shine? && p.data.shineId == k
  {
    hide LegalShines, Synced, IsWaterfall, IsReset, Append, ShineSends, Resize, Missing;
  }

  lemma StepBag(s: Sys, l: Label, k: i32)
    requires Enabled(s, l) && k in Step(s, l).core.bag && k !in s.core.bag
    ensures Reports(s, l, k)
  {
    hide HandlePacket, Join, Leave, LegalPacket, LegalJoin, OnPacket, Protocol.Admission, DataFor,
      NewProfile, LegalShines, Append, Writes, EndsSession;
    match l
    case Serve(ch) =>
      var c := WithoutHead(s.core);
      match s.core.queue[0] {
        case PacketCommand(from, p) => PacketBag(c, from, p, ch, k);
        case NewPlayer(cli, connect) => JoinShines(c, s.settings, cli, connect, ch);
        case DisconnectPlayer(g) => LeaveFrame(c, g, ch.undone, ch.bye);
        case Shutdown =>
      }
    case Drain(g, undone, bye) => LeaveFrame(s.core, g, undone, bye);
    case _ =>
  }

  /** Every shine in the bag was reported by some session in a packet that has been handled, and has been in the bag
      ever since. */
  ghost predicate ReportedAt(run: seq<Sys>, labels: seq<Label>, n: nat, k: i32, j: nat)
    requires |run| == |labels| + 1 && n < |run|
  {
    && j < n && Reports(run[j], labels[j], k)
    && forall m :: j < m <= n ==> k in run[m].core.bag
  }

  lemma {:induction false} BagProvenance(run: seq<Sys>, labels: seq<Label>, n: nat, k: i32)
    requires IsRun(run, labels) && n < |run| && k in run[n].core.bag
    ensures exists j :: ReportedAt(run, labels, n, k, j)
  {
    hide Step, Enabled, Reports;
    if n == 0 {
      assert false;
    } else if k in run[n - 1].core.bag {
      BagProvenance(run, labels, n - 1, k);
      var j :| ReportedAt(run, labels, n - 1, k, j);
      assert ReportedAt(run, labels, n, k, j);
    } else {
      StepBag(run[n - 1], labels[n - 1], k);
      assert ReportedAt(run, labels, n, k, n - 1);
    }
  }

  // ---- syncs ----

  /** A sync message is due: its shine is in the bag, and the player it goes to lacks it and is not speedrunning. */
  ghost predicate DueTo(c: Core<Sid>, m: Msg, r: Sid) {
    && m.packet.data.Shine? && m.packet.data.shineId in c.bag
    && r in c.heap && !c.heap[r].speedrunStart && m.packet.data.shineId !in c.heap[r].shineSync
  }

  /** A sync of all players sends to the inbox of a registered player under the default guid. */
  ghost predicate DueAtOnce(c: Core<Sid>, x: Sid, m: Msg) {
    m.packet.id == DEFAULT_GUID &&
    exists g :: g in c.clients && g in c.toClients && c.toClients[g] == x && DueTo(c, m, c.clients[g])
  }

  /** A delayed sync sends to the inbox it was started for, under that player's own guid. */
  ghost predicate DueLater(c: Core<Sid>, d: Delayed<Sid>, x: Sid, m: Msg) {
    m.packet.id == d.guid && x == d.chan && DueTo(c, m, d.data)
  }

  /** Every sync message that the inboxes have just been given is due. */
  ghost predicate AtOnce(log: map<Sid, seq<Msg>>, c: Core<Sid>) {
    forall x, i :: x in log && x in c.log && |log[x]| <= i < |c.log[x]| && c.log[x][i].kind == Sync ==>
      DueAtOnce(c, x, c.log[x][i])
  }

  ghost predicate NoSyncs(log: map<Sid, seq<Msg>>, log': map<Sid, seq<Msg>>) {
    forall x, i :: x in log && x in log' && |log[x]| <= i < |log'[x]| ==> log'[x][i].kind != Sync
  }

  lemma AppendNoSyncs(log: map<Sid, seq<Msg>>, add: map<Sid, seq<Msg>>)
    requires forall x :: x in add ==> forall i :: 0 <= i < |add[x]| ==> add[x][i].kind != Sync
    ensures NoSyncs(log, Append(log, add))
  {
    forall x, i | x in log && |log[x]| <= i < |Append(log, add)[x]| ensures Append(log, add)[x][i].kind != Sync {
      assert x in add;
      assert Append(log, add)[x][i] == add[x][i - |log[x]|];
    }
  }

  lemma NoSyncsTrans(a: map<Sid, seq<Msg>>, b: map<Sid, seq<Msg>>, c: map<Sid, seq<Msg>>)
    requires NoSyncs(a, b) && NoSyncs(b, c) && Grows(a, b) && Grows(b, c)
    ensures NoSyncs(a, c)
  {
    forall x, i | x in a && x in c && |a[x]| <= i < |c[x]| ensures c[x][i].kind != Sync {
      assert x in b && b[x] <= c[x];
      if i < |b[x]| {
        assert c[x][i] == b[x][i];
      }
    }
  }

  /** A sync of all players only sends what is due. */
  lemma SyncAtOnce(c: Core<Sid>, shines: map<Sid, seq<i32>>)
    requires HandlesLive(c) && Coherent(c) && LegalSync(c, shines)
    ensures AtOnce(c.log, SyncAll(c, shines))
  {
    hide ShineMsgs;
    var c' := SyncAll(c, shines);
    forall x, i | x in c.log && |c.log[x]| <= i < |c'.log[x]| ensures DueAtOnce(c', x, c'.log[x][i]) {
      assert x in shines;
      SyncEntryDue(c, shines, x, i - |c.log[x]|);
      assert c'.log[x][i] == ShineMsgs(DEFAULT_GUID, shines[x])[i - |c.log[x]|];
    }
  }

  lemma SyncEntryDue(c: Core<Sid>, shines: map<Sid, seq<i32>>, x: Sid, j: nat)
    requires HandlesLive(c) && Coherent(c) && LegalSync(c, shines) && x in shines && j < |shines[x]|
    ensures DueAtOnce(SyncAll(c, shines), x, ShineMsgs(DEFAULT_GUID, shines[x])[j])
  {
    hide Append, ShineSends, NoDuplicates;
    assert x in Everyone(c);
    var g :| g in c.toClients && c.toClients[g] == x;
    assert g in c.clients;
    assert LegalShines(shines[x], c.heap[c.clients[g]], c.bag);
    assert shines[x][j] in Missing(c.heap[c.clients[g]], c.bag);
    assert DueTo(SyncAll(c, shines), ShineMsgs(DEFAULT_GUID, shines[x])[j], c.clients[g]);
  }

  /** Passing on a packet afterwards adds no sync messages and leaves bag and data as they are. */
  lemma AtOnceThen(log: map<Sid, seq<Msg>>, c: Core<Sid>, c': Core<Sid>)
    requires AtOnce(log, c) && NoSyncs(c.log, c'.log) && Grows(log, c.log) && Grows(c.log, c'.log)
    requires c'.bag == c.bag && c'.heap == c.heap && c'.clients == c.clients && c'.toClients == c.toClients
    ensures AtOnce(log, c')
  {
    forall x, i | x in log && x in c'.log && |log[x]| <= i < |c'.log[x]| && c'.log[x][i].kind == Sync
      ensures DueAtOnce(c', x, c'.log[x][i])
    {
      assert x in c.log && c.log[x] <= c'.log[x];
      assert i < |c.log[x]|;
      assert c'.log[x][i] == c.log[x][i];
      assert DueAtOnce(c, x, c.log[x][i]);
      DueSame(c, c', x, c.log[x][i]);
    }
  }

  lemma DueSame(c: Core<Sid>, c': Core<Sid>, x: Sid, m: Msg)
    requires DueAtOnce(c, x, m)
    requires c'.bag == c.bag && c'.heap == c.heap && c'.clients == c.clients && c'.toClients == c.toClients
    ensures DueAtOnce(c', x, m)
  {
    var g :| g in c.clients && g in c.toClients && c.toClients[g] == x && DueTo(c, m, c.clients[g]);
    assert DueTo(c', m, c'.clients[g]);
  }

  lemma NoSyncsAtOnce(log: map<Sid, seq<Msg>>, c: Core<Sid>)
    requires NoSyncs(log, c.log)
    ensures AtOnce(log, c)
  {
  }

  lemma RelayNoSyncs(c: Core<Sid>, p: Packet, kind: Kind, reached: set<Sid>)
    requires kind != Sync
    ensures NoSyncs(c.log, Broadcast(c, p, kind, reached).log) && Grows(c.log, Broadcast(c, p, kind, reached).log)
  {
    hide Resize, NoSyncs, Grows;
    var m := Msg(Resize(p), kind);
    AppendNoSyncs(c.log, To(reached, [m]));
    AppendGrows(c.log, To(reached, [m]));
  }

  lemma BeforeAtOnce(c: Core<Sid>, p: Packet, ch: Choice)
    requires HandlesLive(c) && Coherent(c) && (p.data.CostumeData? ==> LegalSync(c, ch.shines))
    requires IsReset(p.data) || IsWaterfall(p.data) ==> p.id in c.clients
    ensures AtOnce(c.log, BeforeBroadcast(c, p, ch)) && Grows(c.log, BeforeBroadcast(c, p, ch).log)
  {
    hide IsReset, IsWaterfall, StartSpeedrun, LegalSync, AtOnce, Grows, Append, ShineSends;
    GrowsSelf(c.log);
    AppendGrows(c.log, ShineSends(ch.shines));
    if p.data.CostumeData? {
      SyncAtOnce(c, ch.shines);
    } else {
      SameLogAtOnce(c.log, BeforeBroadcast(c, p, ch));
    }
  }

  lemma SameLogAtOnce(log: map<Sid, seq<Msg>>, c: Core<Sid>)
    requires c.log == log
    ensures AtOnce(log, c)
  {
  }

  lemma PacketAtOnce(c: Core<Sid>, from: Sid, p: Packet, ch: Choice)
    requires LegalPacket(c, p, ch)
    ensures AtOnce(c.log, HandlePacket(c, from, p, ch).core)
  {
    hide LegalShines, Synced, IsReset, IsWaterfall, AtOnce, NoSyncs, Grows, SyncAll, Broadcast, BeforeBroadcast;
    if p.data.Shine? {
      var c1 := Collect(c, p.data.shineId);
      SyncAtOnce(c1, ch.shines);
    } else if p.data.CostumeData? && !Synced(c, ch.shines) {
      SyncAtOnce(c, ch.shines);
    } else if (IsReset(p.data) || IsWaterfall(p.data)) && p.id !in c.clients {
      SameLogAtOnce(c.log, c);
    } else {
      var c1 := BeforeBroadcast(c, p, ch);
      BeforeAtOnce(c, p, ch);
      RelayNoSyncs(c1, p, Relayed(from), ch.reached);
      BroadcastSame(c1, p, Relayed(from), ch.reached);
      AtOnceThen(c.log, c1, Broadcast(c1, p, Relayed(from), ch.reached));
    }
  }

  lemma BroadcastSame(c: Core<Sid>, p: Packet, kind: Kind, reached: set<Sid>)
    ensures var c' := Broadcast(c, p, kind, reached);
            && c'.bag == c.bag && c'.heap == c.heap && c'.clients == c.clients && c'.toClients == c.toClients
            && c'.log.Keys == c.log.Keys
  {
  }

  lemma LeaveNoSyncs(c: Core<Sid>, g: Guid, undone: set<Sid>, bye: bool)
    ensures NoSyncs(c.log, Leave(c, g, undone, bye).core.log)
  {
    hide NoSyncs, Grows, Resize, Append, To;
    if g in c.toClients {
      var c1 := Unregister(c, g);
      RelayNoSyncs(c1, DisconnectPacket(g), Notice, undone);
      var log1 := Broadcast(c1, DisconnectPacket(g), Notice, undone).log;
      var notice := To({c.toClients[g]}, [Msg(DisconnectPacket(g), Notice)]);
      AppendNoSyncs(log1, notice);
      AppendGrows(log1, notice);
      NoSyncsTrans(c.log, log1, Append(log1, notice));
    } else {
      SameLogNoSyncs(c.log);
    }
  }

  lemma SameLogNoSyncs(log: map<Sid, seq<Msg>>)
    ensures NoSyncs(log, log)
  {
  }

  lemma SetupNoSyncs(c: Core<Sid>, sid: Sid, connect: Packet, maxPlayers: u16, ch: Choice)
    requires HandlesLive(c) && LegalOrder(c, ch.order) && ch.cut <= |IntroAll(c, ch.order, maxPlayers)|
    ensures NoSyncs(c.log, Setup(c, sid, connect, maxPlayers, ch).core.log)
  {
    hide NoSyncs, Grows, Resize, Append, IntroAll, Broadcast;
    var intro := IntroAll(c, ch.order, maxPlayers)[..ch.cut];
    var c1 := Introduce(c, sid, maxPlayers, ch.order, ch.cut);
    IntrosAreIntros(c, ch.order, maxPlayers);
    AppendNoSyncs(c.log, To({sid}, intro));
    AppendGrows(c.log, To({sid}, intro));
    RelayNoSyncs(c1, connect, Notice, ch.reached);
    NoSyncsTrans(c.log, c1.log, Broadcast(c1, connect, Notice, ch.reached).log);
  }

  lemma JoinNoSyncs(c: Core<Sid>, settings: Settings, cli: Joiner<Sid>, connect: Packet, ch: Choice)
    requires LegalJoin(c, settings, cli, connect, ch)
    ensures NoSyncs(c.log, Join(c, settings, cli, connect, ch).core.log)
  {
    hide NoSyncs, Grows, Setup, Leave, IntroAll, Protocol.Admission;
    SameLogNoSyncs(c.log);
    if Protocol.Admission(c, settings, cli) == None {
      var c1 := Register(c, cli, connect.data.cType);
      var setup := Setup(c1, cli.sid, connect, settings.maxPlayers, ch);
      SetupNoSyncs(c1, cli.sid, connect, settings.maxPlayers, ch);
      SetupGrows(c1, cli.sid, connect, settings.maxPlayers, ch);
      LeaveNoSyncs(setup.core, cli.guid, ch.undone, ch.bye);
      LeaveGrows(setup.core, cli.guid, ch.undone, ch.bye);
      NoSyncsTrans(c.log, setup.core.log, Leave(setup.core, cli.guid, ch.undone, ch.bye).core.log);
    }
  }

  /** The step from `s` put this sync message into the inbox of `x`, and it was due then. */
  ghost predicate SyncSent(s: Sys, l: Label, s': Sys, x: Sid, i: nat, m: Msg) {
    && x in s.core.log && x in s'.core.log && |s.core.log[x]| <= i < |s'.core.log[x]| && s'.core.log[x][i] == m
    && (DueAtOnce(s'.core, x, m)
        || (l.FireSync? && l.index < |s.core.delayed| && DueLater(s.core, s.core.delayed[l.index], x, m)))
  }

  lemma FiredSyncs(s: Sys, i: nat, ids: seq<i32>, x: Sid, j: nat)
    requires Enabled(s, FireSync(i, ids)) && x in s.core.log
    requires var s' := Step(s, FireSync(i, ids));
             x in s'.core.log && |s.core.log[x]| <= j < |s'.core.log[x]|
    ensures var s' := Step(s, FireSync(i, ids)); SyncSent(s, FireSync(i, ids), s', x, j, s'.core.log[x][j])
  {
    hide DueAtOnce, DueLater, LegalShines, ShineMsgs, Fire;
    var d := s.core.delayed[i];
    FiredLog(s.core, i, ids, x);
    FiredDue(s.core, d, ids, j - |s.core.log[x]|);
  }

  lemma FiredLog(c: Core<Sid>, i: nat, ids: seq<i32>, x: Sid)
    requires i < |c.delayed| && x in c.log
    ensures Fire(c, i, ids).log.Keys == c.log.Keys
    ensures Fire(c, i, ids).log[x]
         == if x == c.delayed[i].chan then c.log[x] + ShineMsgs(c.delayed[i].guid, ids) else c.log[x]
  {
    hide ShineMsgs;
  }

  lemma FiredDue(c: Core<Sid>, d: Delayed<Sid>, ids: seq<i32>, j: nat)
    requires d.data in c.heap && LegalShines(ids, c.heap[d.data], c.bag) && j < |ids|
    ensures DueLater(c, d, d.chan, ShineMsgs(d.guid, ids)[j])
  {
    assert ids[j] in Missing(c.heap[d.data], c.bag);
  }

  lemma ServedSyncs(s: Sys, ch: Choice)
    requires CanServe(s, ch)
    ensures AtOnce(s.core.log, ServedHead(s, ch).core)
  {
    var c, c' := WithoutHead(s.core), ServedHead(s, ch).core;
    hide HandlePacket, Join, Leave, LegalPacket, LegalJoin, AtOnce, NoSyncs;
    match s.core.queue[0]
    case PacketCommand(from, p) => PacketAtOnce(c, from, p, ch);
    case NewPlayer(cli, connect) =>
      JoinNoSyncs(c, s.settings, cli, connect, ch);
      NoSyncsAtOnce(c.log, c');
    case DisconnectPlayer(g) =>
      LeaveNoSyncs(c, g, ch.undone, ch.bye);
      NoSyncsAtOnce(c.log, c');
    case Shutdown => SameLogAtOnce(c.log, c');
  }

  lemma StepSyncs(s: Sys, l: Label, x: Sid, i: nat)
    requires Enabled(s, l) && x in Step(s, l).core.log && i < |Step(s, l).core.log[x]|
    requires x in s.core.log ==> |s.core.log[x]| <= i
    requires Step(s, l).core.log[x][i].kind == Sync
    ensures SyncSent(s, l, Step(s, l), x, i, Step(s, l).core.log[x][i])
  {
    hide CanServe, ServedHead, Leave, OnPacket, NewProfile, DueAtOnce, DueLater, Append, LegalShines;
    match l
    case Serve(ch) =>
      ServedSyncs(s, ch);
      ServedLogKeys(s, ch);
    case FireSync(j, ids) => FiredSyncs(s, j, ids, x, i);
    case Drain(g, undone, bye) =>
      LeaveNoSyncs(s.core, g, undone, bye);
      LeaveFrame(s.core, g, undone, bye);
      assert false;
    case _ =>
  }

  lemma ServedLogKeys(s: Sys, ch: Choice)
    requires CanServe(s, ch)
    ensures ServedHead(s, ch).core.log.Keys == s.core.log.Keys
  {
    var c := WithoutHead(s.core);
    hide HandlePacket, Join, Leave, LegalPacket, LegalJoin, Protocol.Admission;
    match s.core.queue[0]
    case PacketCommand(from, p) => PacketFrame(c, from, p, ch);
    case NewPlayer(cli, connect) =>
      if Protocol.Admission(c, s.settings, cli).Some? {
        JoinRefused(c, s.settings, cli, connect, ch);
      } else {
        JoinFrame(c, s.settings, cli, connect, ch);
      }
    case DisconnectPlayer(g) => LeaveFrame(c, g, ch.undone, ch.bye);
    case Shutdown =>
  }

  lemma StepGrows(s: Sys, l: Label)
    requires Enabled(s, l) && (l.Arrive? ==> l.newcomer !in s.core.log)
    ensures Grows(s.core.log, Step(s, l).core.log)
  {
    hide CanServe, ServedHead, Leave, OnPacket, NewProfile, Append, LegalShines;
    match l
    case Serve(ch) => ServedGrows(s, ch);
    case FireSync(i, ids) =>
      var d := s.core.delayed[i];
      AppendGrows(s.core.log, To({d.chan}, ShineMsgs(d.guid, ids)));
    case Drain(g, undone, bye) => LeaveGrows(s.core, g, undone, bye);
    case _ =>
  }

  ghost predicate SentAt(run: seq<Sys>, labels: seq<Label>, x: Sid, i: nat, m: Msg, j: nat)
    requires |run| == |labels| + 1
  {
    j < |labels| && SyncSent(run[j], labels[j], run[j + 1], x, i, m)
  }

  /** A shine only ever comes from a sync. */
  function IsShineSync(): Msg -> bool {
    (m: Msg) => m.packet.data.Shine? ==> m.kind == Sync
  }

  lemma OwnShineSync(heap: map<Sid, Profile>)
    requires GamesOnly(heap)
    ensures AllowsOwn(heap, IsShineSync())
  {
    hide AllIn;
    forall r, g: Guid, n: u16 | r in heap ensures AllIn(IntroOf(g, heap[r], n), IsShineSync()) {
      IntroShineSync(g, heap[r], n);
    }
  }

  lemma IntroShineSync(g: Guid, d: Profile, n: u16)
    requires d.lastGame.Some? ==> d.lastGame.value.data.Game?
    ensures AllIn(IntroOf(g, d, n), IsShineSync())
  {
  }

  lemma CommandShineSync(s: Sys)
    requires Wf(s) && s.core.queue != []
    ensures AllowsCommand(s.core.queue[0], IsShineSync())
  {
    assert CommandWf(s.core.queue[0], Known(s.sessions), Newcomers(s.sessions));
    hide Wf, Known, Newcomers;
  }

  lemma StepGames(s: Sys, l: Label)
    requires Enabled(s, l) && GamesOnly(s.core.heap)
    ensures GamesOnly(Step(s, l).core.heap)
  {
    hide GamesOnly, CanServe, ServedHead, Leave, OnPacket, NewProfile, LegalShines, Append;
    match l
    case Arrive(sid, ip, connect) => ArrivedGames(s.core.heap, sid, connect.data.clientName);
    case Take(sid, p) => TookGames(s.core.heap, s.sessions[sid].data, p);
    case Serve(ch) => ServedGames(s, ch);
    case Drain(g, undone, bye) => LeaveFrame(s.core, g, undone, bye);
    case _ =>
  }

  lemma ServedGames(s: Sys, ch: Choice)
    requires CanServe(s, ch) && GamesOnly(s.core.heap)
    ensures GamesOnly(ServedHead(s, ch).core.heap)
  {
    hide GamesOnly, HandlePacket, Join, Leave, LegalPacket, LegalJoin;
    var c := WithoutHead(s.core);
    match s.core.queue[0]
    case PacketCommand(from, p) => PacketGames(c, from, p, ch);
    case NewPlayer(cli, connect) => JoinShines(c, s.settings, cli, connect, ch);
    case DisconnectPlayer(g) => LeaveFrame(c, g, ch.undone, ch.bye);
    case Shutdown =>
  }

  /** In every run, whatever games send: every shine packet ever put into an inbox was sent by a sync. */
  lemma {:induction false} ShinesAreSyncs(run: seq<Sys>, labels: seq<Label>, n: nat)
    requires IsRun(run, labels) && n < |run|
    ensures GamesOnly(run[n].core.heap) && AllMsgs(run[n].core, IsShineSync())
  {
    hide Step, Enabled, Wf, AllowsOwn, AllowsCommand;
    if n > 0 {
      hide GamesOnly, AllMsgs;
      var s, l := run[n - 1], labels[n - 1];
      ShinesAreSyncs(run, labels, n - 1);
      RunWf(run, labels, n - 1);
      OwnShineSync(s.core.heap);
      if s.core.queue != [] {
        CommandShineSync(s);
      }
      StepGames(s, l);
      StepAll(s, l, IsShineSync());
    }
  }

  /** Every shine packet ever put into an inbox, at once or by a delayed sync, carries a shine that was in the bag at
      that moment and that its player lacked, and was sent while that player was not speedrunning. */
  lemma SyncProvenance(run: seq<Sys>, labels: seq<Label>, n: nat, x: Sid, i: nat)
    requires IsRun(run, labels) && n < |run|
    requires x in run[n].core.log && i < |run[n].core.log[x]| && run[n].core.log[x][i].packet.data.Shine?
    ensures exists j :: SentAt(run, labels, x, i, run[n].core.log[x][i], j)
  {
    hide IsRun, SentAt;
    ShinesAreSyncs(run, labels, n);
    assert AllIn(run[n].core.log[x], IsShineSync());
    NotedProvenance(run, labels, n, x, i);
  }

  /** The same for messages that are noted as syncs. */
  lemma {:induction false} NotedProvenance(run: seq<Sys>, labels: seq<Label>, n: nat, x: Sid, i: nat)
    requires IsRun(run, labels) && n < |run|
    requires x in run[n].core.log && i < |run[n].core.log[x]| && run[n].core.log[x][i].kind == Sync
    ensures exists j :: SentAt(run, labels, x, i, run[n].core.log[x][i], j)
  {
    hide Step, Enabled, SyncSent, Wf;
    if n == 0 {
      assert false;
    } else {
      var s, l, m := run[n - 1], labels[n - 1], run[n].core.log[x][i];
      RunWf(run, labels, n - 1);
      LogKeys(s);
      ArriveNew(s, l);
      StepGrows(s, l);
      if x in s.core.log && i < |s.core.log[x]| {
        assert s.core.log[x][i] == m;
        NotedProvenance(run, labels, n - 1, x, i);
      } else {
        StepSyncs(s, l, x, i);
        assert SentAt(run, labels, x, i, m, n - 1);
      }
    }
  }

  // ---- what players are thought to have ----

  /** The step takes a report of the given shine into the given shared data. */
  ghost predicate TakesInto(s: Sys, l: Label, r: Sid, k: i32) {
    && l.Take? && l.packet.data.Shine? && l.packet.data.shineId == k
    && l.sid in s.sessions && s.sessions[l.sid].data == r
  }

  lemma TookSynced(d: Profile, p: Packet, k: i32)
    requires k in OnPacket(d, p).shineSync && k !in d.shineSync
    ensures p.data.Shine? && p.data.shineId == k
  {
    hide IsReset;
  }

  lemma ServedSynced(s: Sys, ch: Choice, r: Sid)
    requires CanServe(s, ch) && r in ServedHead(s, ch).core.heap
    ensures r in s.core.heap && ServedHead(s, ch).core.heap[r].shineSync <= s.core.heap[r].shineSync
  {
    hide HandlePacket, Join, Leave, LegalPacket, LegalJoin;
    var c := WithoutHead(s.core);
    match s.core.queue[0]
    case PacketCommand(from, p) => PacketShines(c, from, p, ch);
    case NewPlayer(cli, connect) => JoinShines(c, s.settings, cli, connect, ch);
    case DisconnectPlayer(g) => LeaveFrame(c, g, ch.undone, ch.bye);
    case Shutdown =>
  }

  lemma StepSynced(s: Sys, l: Label, r: Sid, k: i32)
    requires Enabled(s, l) && r in Step(s, l).core.heap && k in Step(s, l).core.heap[r].shineSync
    requires r in s.core.heap ==> k !in s.core.heap[r].shineSync
    ensures TakesInto(s, l, r, k)
  {
    hide CanServe, ServedHead, Leave, OnPacket, LegalShines, Append, Delivered, Forwarded, Finished, ServeLeave, Fire;
    match l
    case Take(sid, p) => TookSynced(s.core.heap[s.sessions[sid].data], p, k);
    case Arrive(_, _, _) =>
    case Serve(ch) =>
      ServedSynced(s, ch, r);
      assert false;
    case _ =>
      SameHeap(s, l);
      assert false;
  }

  ghost predicate SyncedSince(run: seq<Sys>, labels: seq<Label>, n: nat, r: Sid, k: i32, j: nat)
    requires |run| == |labels| + 1 && n < |run|
  {
    && j < n && TakesInto(run[j], labels[j], r, k)
    && forall m :: j < m <= n ==> r in run[m].core.heap && k in run[m].core.heap[r].shineSync
  }

  /** Resets or not: whatever a player is thought to have was reported by a session that shares its data, and nothing
      has cleared it since. */
  lemma {:induction false} SyncedProvenance(run: seq<Sys>, labels: seq<Label>, n: nat, r: Sid, k: i32)
    requires IsRun(run, labels) && n < |run|
    requires r in run[n].core.heap && k in run[n].core.heap[r].shineSync
    ensures exists j :: SyncedSince(run, labels, n, r, k, j)
  {
    hide Step, Enabled, TakesInto;
    if n == 0 {
      assert false;
    } else if r in run[n - 1].core.heap && k in run[n - 1].core.heap[r].shineSync {
      SyncedProvenance(run, labels, n - 1, r, k);
      var j :| SyncedSince(run, labels, n - 1, r, k, j);
      assert SyncedSince(run, labels, n, r, k, j);
    } else {
      StepSynced(run[n - 1], labels[n - 1], r, k);
      assert SyncedSince(run, labels, n, r, k, n - 1);
    }
  }

  lemma ArriveNew(s: Sys, l: Label)
    requires Enabled(s, l)
    ensures l.Arrive? ==> l.newcomer !in s.sessions
  {
  }

  // ---- delayed syncs are lost ----

  /** A delayed sync stamps its packets with the guid of the very session they go to, and a session drops packets
      that bear its own guid: none of them is ever written. */
  lemma DelayedSyncIsLost(run: seq<Sys>, labels: seq<Label>, n: nat, i: nat, ids: seq<i32>)
    requires IsRun(run, labels) && n < |run| && Enabled(run[n], FireSync(i, ids))
    ensures var s, d := run[n], run[n].core.delayed[i];
            && d.chan in s.sessions && d.chan in s.core.log
            && (forall m :: m in ShineMsgs(d.guid, ids) ==>
                  !Writes(s.sessions[d.chan].guid, m.packet) && !EndsSession(s.sessions[d.chan].guid, m.packet))
            && Foreign(s.sessions[d.chan].guid, Step(s, FireSync(i, ids)).core.log[d.chan])
               == Foreign(s.sessions[d.chan].guid, s.core.log[d.chan])
  {
    hide Wf, Foreign, LegalShines;
    RunWf(run, labels, n);
    DelayedGuid(run[n], i);
    FiredIsLost(run[n], i, ids);
  }

  lemma FiredIsLost(s: Sys, i: nat, ids: seq<i32>)
    requires Enabled(s, FireSync(i, ids))
    requires var d := s.core.delayed[i];
             d.chan in s.sessions && d.chan in s.core.log && s.sessions[d.chan].guid == d.guid
    ensures var d := s.core.delayed[i];
            && (forall m :: m in ShineMsgs(d.guid, ids) ==>
                  !Writes(s.sessions[d.chan].guid, m.packet) && !EndsSession(s.sessions[d.chan].guid, m.packet))
            && Foreign(d.guid, Step(s, FireSync(i, ids)).core.log[d.chan]) == Foreign(d.guid, s.core.log[d.chan])
  {
    var d := s.core.delayed[i];
    var ms := ShineMsgs(d.guid, ids);
    FiredLog(s.core, i, ids, d.chan);
    FiredStep(s, i, ids);
    hide Enabled, Step, Foreign, Fire;
    ShinesNotForeign(d.guid, ids);
    ForeignConcat(d.guid, s.core.log[d.chan], ms);
    assert Foreign(d.guid, s.core.log[d.chan]) + [] == Foreign(d.guid, s.core.log[d.chan]);
  }

  lemma FiredStep(s: Sys, i: nat, ids: seq<i32>)
    requires Enabled(s, FireSync(i, ids))
    ensures Step(s, FireSync(i, ids)).core == Fire(s.core, i, ids)
  {
    hide LegalShines, Fire;
  }

  lemma ShinesNotForeign(guid: Guid, ids: seq<i32>)
    ensures Foreign(guid, ShineMsgs(guid, ids)) == []
    ensures forall m :: m in ShineMsgs(guid, ids) ==> m.packet.id == guid && m.packet.data.Shine?
  {
    hide Filter, Map;
    FilterNone(IsForeign(guid), Map(PacketOf(), ShineMsgs(guid, ids)));
  }

  lemma DelayedGuid(s: Sys, i: nat)
    requires Wf(s) && i < |s.core.delayed|
    ensures var d := s.core.delayed[i];
            d.chan in s.sessions && d.chan in s.core.log && s.sessions[d.chan].guid == d.guid
  {
    assert DelayedWf(s.core.delayed[i], Known(s.sessions));
  }
}
