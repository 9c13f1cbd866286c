/** Who is let in, that no command can get stuck, and what a shutdown does. */
module Admission {
  import opened Utf8
  import opened Wire
  import opened Packets
  import opened Protocol
  import opened ClientTask
  import opened System
  import opened Structure
  import opened Membership
  import opened TotalOrder

  // ---- who is let in ----

  function IpsOf(sessions: map<Sid, Session>): map<Sid, Ip> {
    map x | x in sessions :: sessions[x].ip
  }

  /** No more players than the limit allows for, and nobody banned by guid or by address. */
  ghost predicate Admitted(c: Core<Sid>, settings: Settings, ips: map<Sid, Ip>) {
    && |c.clients| <= settings.maxPlayers as int + 1
    && forall g :: g in c.toClients ==>
         && g !in settings.bannedPlayers
         && c.toClients[g] in ips && ips[c.toClients[g]] !in settings.bannedIps
  }

  lemma UnregisterAdmitted(c: Core<Sid>, g: Guid, settings: Settings, ips: map<Sid, Ip>)
    requires Admitted(c, settings, ips)
    ensures Admitted(Unregister(c, g), settings, ips)
  {
    var left := c.clients - {g};
    if g in c.clients {
      assert c.clients == left[g := c.clients[g]];
    } else {
      assert c.clients == left;
    }
  }

  lemma RegisterAdmitted(c: Core<Sid>, settings: Settings, cli: Joiner<Sid>, cType: ConnectionType, ips: map<Sid, Ip>)
    requires Admitted(c, settings, ips) && Admission(c, settings, cli) == None
    requires cli.sid in ips && ips[cli.sid] == cli.ip
    ensures Admitted(Register(c, cli, cType), settings, ips)
  {
    if cli.guid in c.clients {
      assert c.clients[cli.guid := DataFor(c, cli, cType)].Keys == c.clients.Keys;
      SameSize(c.clients, c.clients[cli.guid := DataFor(c, cli, cType)]);
    }
  }

  lemma SameSize(a: map<Guid, Sid>, b: map<Guid, Sid>)
    requires a.Keys == b.Keys
    ensures |a| == |b|
  {
    assert |a| == |a.Keys| && |b| == |b.Keys|;
  }

  lemma TablesAdmitted(c: Core<Sid>, c': Core<Sid>, settings: Settings, ips: map<Sid, Ip>)
    requires Admitted(c, settings, ips) && c'.clients == c.clients && c'.toClients == c.toClients
    ensures Admitted(c', settings, ips)
  {
  }

  lemma JoinAdmitted(c: Core<Sid>, settings: Settings, cli: Joiner<Sid>, connect: Packet, ch: Choice, ips: map<Sid, Ip>)
    requires LegalJoin(c, settings, cli, connect, ch)
    requires Admitted(c, settings, ips) && cli.sid in ips && ips[cli.sid] == cli.ip
    ensures Admitted(Join(c, settings, cli, connect, ch).core, settings, ips)
  {
    assert connect.data.Connect?;
    hide LegalJoin, Join, Admission, Admitted;
    var c' := Join(c, settings, cli, connect, ch).core;
    if Admission(c, settings, cli).Some? {
      JoinRefused(c, settings, cli, connect, ch);
      TablesAdmitted(c, c', settings, ips);
    } else {
      var c1 := Register(c, cli, connect.data.cType);
      JoinFrame(c, settings, cli, connect, ch);
      RegisterAdmitted(c, settings, cli, connect.data.cType, ips);
      UnregisterAdmitted(c1, cli.guid, settings, ips);
      TablesAdmitted(if Join(c, settings, cli, connect, ch).result == Continue then c1 else Unregister(c1, cli.guid),
                     c', settings, ips);
    }
  }

  lemma LeaveAdmitted(c: Core<Sid>, g: Guid, undone: set<Sid>, bye: bool, settings: Settings, ips: map<Sid, Ip>)
    requires Admitted(c, settings, ips)
    ensures Admitted(Leave(c, g, undone, bye).core, settings, ips)
  {
    hide Leave, Admitted;
    LeaveFrame(c, g, undone, bye);
    UnregisterAdmitted(c, g, settings, ips);
    TablesAdmitted(Unregister(c, g), Leave(c, g, undone, bye).core, settings, ips);
  }

  ghost predicate AdmittedIn(s: Sys) {
    Admitted(s.core, s.settings, IpsOf(s.sessions))
  }

  lemma ServedAdmitted(s: Sys, ch: Choice)
    requires Wf(s) && CanServe(s, ch) && AdmittedIn(s)
    ensures Admitted(ServedHead(s, ch).core, s.settings, IpsOf(s.sessions))
  {
    DequeueKeepsWf(s);
    hide Wf, Admitted, HandlePacket, Join, Leave, LegalPacket, LegalJoin, Admission;
    var c, ips := WithoutHead(s.core), IpsOf(s.sessions);
    TablesAdmitted(s.core, c, s.settings, ips);
    match s.core.queue[0]
    case PacketCommand(from, p) =>
      PacketFrame(c, from, p, ch);
      TablesAdmitted(c, HandlePacket(c, from, p, ch).core, s.settings, ips);
    case NewPlayer(cli, connect) => JoinAdmitted(c, s.settings, cli, connect, ch, ips);
    case DisconnectPlayer(g) => LeaveAdmitted(c, g, ch.undone, ch.bye, s.settings, ips);
    case Shutdown =>
  }

  /** A step changes no settings and no address, and touches the tables only by serving and draining. */
  lemma StepIps(s: Sys, l: Label)
    requires Enabled(s, l)
    ensures Step(s, l).settings == s.settings
    ensures forall x :: x in s.sessions ==> x in Step(s, l).sessions && Step(s, l).sessions[x].ip == s.sessions[x].ip
  {
    hide ServedHead, CanServe, Leave, OnPacket, NewProfile, LegalShines, Fire;
    if l.Serve? {
      ServedIps(s, l.choice);
    }
  }

  lemma ServedIps(s: Sys, ch: Choice)
    requires CanServe(s, ch)
    ensures var s' := ServedHead(s, ch);
            && s'.settings == s.settings && s'.sessions.Keys == s.sessions.Keys
            && forall x :: x in s.sessions ==> s'.sessions[x].ip == s.sessions[x].ip
  {
    hide HandlePacket, Join, Leave, LegalPacket, LegalJoin, Admission, DataFor;
  }

  lemma StepTables(s: Sys, l: Label)
    requires Enabled(s, l) && !l.Serve? && !l.Drain?
    ensures Step(s, l).core.clients == s.core.clients && Step(s, l).core.toClients == s.core.toClients
    ensures Step(s, l).mode == s.mode
  {
    hide OnPacket, NewProfile, LegalShines, Append, Writes, EndsSession, StartSpeedrun;
  }

  lemma MoreIps(c: Core<Sid>, settings: Settings, ips: map<Sid, Ip>, ips': map<Sid, Ip>)
    requires Admitted(c, settings, ips) && forall x :: x in ips ==> x in ips' && ips'[x] == ips[x]
    ensures Admitted(c, settings, ips')
  {
  }

  /** By the addresses known before the step. */
  lemma StepTablesAdmitted(s: Sys, l: Label)
    requires Wf(s) && Enabled(s, l) && AdmittedIn(s)
    ensures Admitted(Step(s, l).core, s.settings, IpsOf(s.sessions))
  {
    hide Wf, Admitted, CanServe, ServedHead, Leave, OnPacket, NewProfile, LegalShines, IpsOf;
    match l
    case Serve(ch) => ServedAdmitted(s, ch);
    case Drain(g, undone, bye) => LeaveAdmitted(s.core, g, undone, bye, s.settings, IpsOf(s.sessions));
    case _ =>
      StepTables(s, l);
      hide Step;
      TablesAdmitted(s.core, Step(s, l).core, s.settings, IpsOf(s.sessions));
  }

  lemma StepAdmitted(s: Sys, l: Label)
    requires Wf(s) && Enabled(s, l) && AdmittedIn(s)
    ensures AdmittedIn(Step(s, l))
  {
    hide Admitted, Step, Wf, Enabled;
    StepTablesAdmitted(s, l);
    StepIps(s, l);
    MoreIps(Step(s, l).core, s.settings, IpsOf(s.sessions), IpsOf(Step(s, l).sessions));
  }

  /** In every reachable state there are at most `maxPlayers + 1` players, none of them banned by guid or address. */
  lemma {:induction false} OnlyAdmitted(run: seq<Sys>, labels: seq<Label>, n: nat)
    requires IsRun(run, labels) && n < |run|
    ensures AdmittedIn(run[n])
  {
    if n > 0 {
      hide Step, Enabled, Wf, AdmittedIn;
      OnlyAdmitted(run, labels, n - 1);
      RunWf(run, labels, n - 1);
      StepAdmitted(run[n - 1], labels[n - 1]);
    }
  }

  // ---- nothing gets stuck ----

  /** Both tables always have the same keys, whatever sends fail, and each player's inbox and data belong to sessions
      of that player. */
  lemma RegistryCoherent(run: seq<Sys>, labels: seq<Label>, n: nat, g: Guid)
    requires IsRun(run, labels) && n < |run|
    ensures Coherent(run[n].core) && OwnInboxes(run[n].core.toClients)
    ensures var s := run[n];
            g in s.core.clients ==>
              && g in s.core.toClients
              && s.core.toClients[g] in s.sessions && s.sessions[s.core.toClients[g]].guid == g
              && s.core.toClients[g] in s.core.log
              && s.core.clients[g] in s.core.heap && s.core.clients[g] in s.sessions
              && s.sessions[s.core.clients[g]].guid == g
  {
    hide Step, Enabled;
    RunWf(run, labels, n);
    hide QueueWf, SessionsWf, FreshWf;
  }

  /** Some order of the elements of a set. */
  ghost function InSomeOrder<T(!new)>(s: set<T>): (order: seq<T>)
    ensures NoDuplicates(order) && forall x :: x in s <==> x in order
  {
    if s == {} then []
    else
      var x :| x in s;
      var rest := InSomeOrder(s - {x});
      assert forall y :: y in rest + [x] <==> y in rest || y == x;
      rest + [x]
  }

  /** The shines that a full sync sends to an inbox. */
  ghost function IdsFor(c: Core<Sid>, x: Sid, who: map<Sid, Guid>): seq<i32>
    requires HandlesLive(c) && x in who
  {
    if who[x] in c.clients then InSomeOrder(Missing(c.heap[c.clients[who[x]]], c.bag)) else []
  }

  ghost function FullSync(c: Core<Sid>, who: map<Sid, Guid>): (shines: map<Sid, seq<i32>>)
    requires HandlesLive(c) && TablesWf(c.clients, c.toClients, c.delayed, who)
    ensures LegalSync(c, shines) && Synced(c, shines)
  {
    EveryoneKnown(c, who);
    var shines := map x | x in Everyone(c) :: IdsFor(c, x, who);
    FullSyncIsFull(c, who, shines);
    shines
  }

  lemma FullSyncIsFull(c: Core<Sid>, who: map<Sid, Guid>, shines: map<Sid, seq<i32>>)
    requires HandlesLive(c) && TablesWf(c.clients, c.toClients, c.delayed, who)
    requires shines.Keys == Everyone(c) && Everyone(c) <= who.Keys
    requires forall x :: x in shines ==> shines[x] == IdsFor(c, x, who)
    ensures LegalSync(c, shines) && Synced(c, shines)
  {
    forall g | g in c.clients && g in c.toClients
      ensures LegalShines(shines[c.toClients[g]], c.heap[c.clients[g]], c.bag)
      ensures AllSent(shines[c.toClients[g]], c.heap[c.clients[g]], c.bag)
    {
      assert c.toClients[g] in Everyone(c) && who[c.toClients[g]] == g;
    }
  }

  ghost predicate Smooth(c: Core<Sid>, settings: Settings, cmd: Command<Sid>, ch: Choice) {
    Legal(c, settings, cmd, ch) && Handle(c, settings, cmd, ch).result != SendFailed
  }

  lemma SmoothPacket(c: Core<Sid>, settings: Settings, from: Sid, p: Packet, who: map<Sid, Guid>)
    requires HandlesLive(c) && TablesWf(c.clients, c.toClients, c.delayed, who)
    ensures exists ch :: Smooth(c, settings, PacketCommand(from, p), ch)
  {
    var bag := if p.data.Shine? then Collect(c, p.data.shineId) else c;
    var ch := Choice([], 0, Everyone(c), {}, true, FullSync(bag, who));
    CoherentTables(c, who);
    hide LegalSync, Synced, Append, ShineSends, Resize, IsReset, IsWaterfall, TablesWf;
    assert Smooth(c, settings, PacketCommand(from, p), ch);
  }

  lemma CoherentTables(c: Core<Sid>, who: map<Sid, Guid>)
    requires TablesWf(c.clients, c.toClients, c.delayed, who)
    ensures Coherent(c)
  {
  }

  lemma SmoothJoin(c: Core<Sid>, settings: Settings, cli: Joiner<Sid>, connect: Packet)
    requires HandlesLive(c) && cli.data in c.heap && connect.data.Connect?
    ensures exists ch :: Smooth(c, settings, NewPlayer(cli, connect), ch)
  {
    var c1 := Register(c, cli, connect.data.cType);
    RegisterLive(c, cli, connect.data.cType);
    var order := InSomeOrder(c1.clients.Keys);
    var ch := Choice(order, |IntroAll(c1, order, settings.maxPlayers)|, Everyone(c1), {}, true, map[]);
    SmoothJoinWith(c, settings, cli, connect, ch);
  }

  lemma SmoothJoinWith(c: Core<Sid>, settings: Settings, cli: Joiner<Sid>, connect: Packet, ch: Choice)
    requires HandlesLive(c) && cli.data in c.heap && connect.data.Connect?
    requires var c1 := Register(c, cli, connect.data.cType);
             && HandlesLive(c1) && LegalOrder(c1, ch.order) && ch.cut == |IntroAll(c1, ch.order, settings.maxPlayers)|
             && Introduced(c1, ch.order) && ch.reached == Everyone(c1) && ch.undone == {}
    ensures Smooth(c, settings, NewPlayer(cli, connect), ch)
  {
    hide HandlesLive, Introduced, LegalOrder, Register, Setup, IntroAll, Leave, Admission, Unregister, Everyone,
      LegalPacket, HandlePacket, DataFor, Refuse;
    SmoothSetup(Register(c, cli, connect.data.cType), cli.sid, connect, settings.maxPlayers, ch);
  }

  lemma RegisterLive(c: Core<Sid>, cli: Joiner<Sid>, cType: ConnectionType)
    requires HandlesLive(c) && cli.data in c.heap
    ensures HandlesLive(Register(c, cli, cType))
  {
  }

  lemma SmoothSetup(c: Core<Sid>, sid: Sid, connect: Packet, maxPlayers: u16, ch: Choice)
    requires HandlesLive(c) && LegalOrder(c, ch.order) && ch.cut == |IntroAll(c, ch.order, maxPlayers)|
    requires Introduced(c, ch.order) && ch.reached == Everyone(c)
    ensures Setup(c, sid, connect, maxPlayers, ch).result == Continue
  {
    hide IntroAll, Append, Broadcast;
  }

  lemma SmoothLeave(c: Core<Sid>, settings: Settings, g: Guid)
    ensures exists ch :: Smooth(c, settings, DisconnectPlayer(g), ch)
  {
    var ch := Choice([], 0, {}, Everyone(Unregister(c, g)), true, map[]);
    assert Smooth(c, settings, DisconnectPlayer(g), ch);
  }

  /** Whatever command is next, the coordinator can handle it: no lookup that the program takes for granted can fail,
      and if no send fails either, the command goes through, is refused, or names an unknown player. */
  lemma NeverStuck(run: seq<Sys>, labels: seq<Label>, n: nat)
    requires IsRun(run, labels) && n < |run| && run[n].core.queue != []
    ensures exists ch ::
      CanServe(run[n], ch) && Smooth(WithoutHead(run[n].core), run[n].settings, run[n].core.queue[0], ch)
  {
    var s := run[n];
    RunWf(run, labels, n);
    DequeueKeepsWf(s);
    hide IsRun, Smooth, QueueWf, SessionsWf, FreshWf;
    var c, cmd := WithoutHead(s.core), s.core.queue[0];
    match cmd {
      case PacketCommand(from, p) => SmoothPacket(c, s.settings, from, p, Known(s.sessions));
      case NewPlayer(cli, connect) => SmoothJoin(c, s.settings, cli, connect);
      case DisconnectPlayer(g) => SmoothLeave(c, s.settings, g);
      case Shutdown => SmoothShutdown(c, s.settings);
    }
    var ch :| Smooth(c, s.settings, cmd, ch);
    SmoothServes(s, ch);
  }

  lemma SmoothShutdown(c: Core<Sid>, settings: Settings)
    ensures exists ch :: Smooth(c, settings, Shutdown, ch)
  {
    assert Smooth(c, settings, Shutdown, Choice([], 0, {}, {}, true, map[]));
  }

  lemma SmoothServes(s: Sys, ch: Choice)
    requires Wf(s) && s.core.queue != []
    requires Smooth(WithoutHead(s.core), s.settings, s.core.queue[0], ch)
    ensures CanServe(s, ch)
  {
    hide TablesWf, SessionsWf, FreshWf, LegalPacket, LegalJoin, HandlePacket, Join, Leave;
    assert CommandWf(s.core.queue[0], Known(s.sessions), Newcomers(s.sessions));
  }

  // ---- the limit is reached ----

  function GuidOf(n: nat): Guid
    requires n < 0x1_0000
  {
    [n % 0x100, n / 0x100] + Zeros(14)
  }

  function GuidsUpTo(n: nat): set<Guid>
    requires n <= 0x1_0000
  {
    if n == 0 then {} else GuidsUpTo(n - 1) + {GuidOf(n - 1)}
  }

  lemma {:induction false} GuidsDiffer(n: nat, m: nat)
    requires n <= m < 0x1_0000
    ensures GuidOf(m) !in GuidsUpTo(n) && |GuidsUpTo(n)| == n
  {
    if n > 0 {
      GuidsDiffer(n - 1, m);
      GuidsDiffer(n - 1, n - 1);
      assert GuidOf(n - 1)[0] == (n - 1) % 0x100 && GuidOf(n - 1)[1] == (n - 1) / 0x100;
      assert GuidOf(m)[0] == m % 0x100 && GuidOf(m)[1] == m / 0x100;
    }
  }

  /** A run has let in `n` players, their sessions are all running, and nothing is left to do. */
  ghost predicate LetIn(run: seq<Sys>, labels: seq<Label>, settings: Settings, n: nat)
    requires n <= 0x1_0000
  {
    && IsRun(run, labels) && |run| == |labels| + 1
    && var s := run[|labels|];
       && s.settings == settings && s.mode == Serving && s.clean && s.core.queue == []
       && (forall x :: x in s.sessions ==> x < n && Idle(s, x)) && s.core.clients.Keys == GuidsUpTo(n)
  }

  lemma RunGrows(run: seq<Sys>, labels: seq<Label>, l: Label)
    requires IsRun(run, labels) && Enabled(run[|labels|], l)
    ensures |run| == |labels| + 1
    ensures IsRun(run + [Step(run[|labels|], l)], labels + [l])
  {
    hide Step, Enabled, Initial;
    var run', labels' := run + [Step(run[|labels|], l)], labels + [l];
    forall i | 0 <= i < |labels'| ensures Enabled(run'[i], labels'[i]) && run'[i + 1] == Step(run'[i], labels'[i]) {
      if i < |labels| {
        assert run'[i] == run[i] && run'[i + 1] == run[i + 1] && labels'[i] == labels[i];
      }
    }
  }

  function NthNewcomer(n: nat): (p: Packet)
    requires n < 0x1_0000
    ensures p.id == GuidOf(n) && p.data.Connect?
  {
    NewPacket(GuidOf(n), Connect(FirstConnection, 0, []))
  }

  /** A newcomer is let in as long as the limit is not below the number of players that are there. */
  lemma LetInServed(s: Sys, n: nat, ch: Choice)
    requires n <= s.settings.maxPlayers as int < 0x1_0000
    requires s.settings.bannedPlayers == {} && s.settings.bannedIps == {}
    requires s.mode == Serving && s.clean && s.core.clients.Keys == GuidsUpTo(n)
    requires s.core.queue == [NewPlayer(Joiner(n, GuidOf(n), 0, n), NthNewcomer(n))]
    requires CanServe(s, ch) && Smooth(WithoutHead(s.core), s.settings, s.core.queue[0], ch)
    requires n in s.sessions && s.sessions[n].hand == None && forall x :: x in s.sessions && x != n ==> Idle(s, x)
    ensures var s' := ServedHead(s, ch);
            && (forall x :: x in s'.sessions ==> Idle(s', x))
            && s'.settings == s.settings && s'.mode == Serving && s'.clean && s'.core.queue == []
            && s'.sessions.Keys == s.sessions.Keys && s'.core.clients.Keys == GuidsUpTo(n + 1)
  {
    hide CanServe, ServedHead, GuidOf, GuidsUpTo, Smooth, NthNewcomer, Admission;
    RoomLeft(s.core, s.settings, n);
    AdmittedServed(s, Joiner(n, GuidOf(n), 0, n), NthNewcomer(n), ch);
    NextGuid(n);
  }

  lemma AskedToJoin(s: Sys, x: Sid, ip: Ip, connect: Packet)
    requires s.core.queue == [] && s.mode == Serving && x !in s.sessions && connect.data.Connect?
    ensures Enabled(s, Arrive(x, ip, connect))
    ensures var s1 := Step(s, Arrive(x, ip, connect));
            && s1.settings == s.settings && s1.mode == s.mode && s1.clean == s.clean
            && s1.core.clients == s.core.clients && s1.core.toClients == s.core.toClients
            && s1.core.queue == [NewPlayer(Joiner(x, connect.id, ip, x), connect)]
            && x in s1.sessions && s1.sessions[x].guid == connect.id && s1.sessions[x].hand == None
            && s1.sessions == s.sessions[x := s1.sessions[x]]
  {
    hide NewProfile;
  }

  lemma AdmittedServed(s: Sys, cli: Joiner<Sid>, connect: Packet, ch: Choice)
    requires CanServe(s, ch) && s.core.queue == [NewPlayer(cli, connect)] && connect.data.Connect?
    requires Smooth(WithoutHead(s.core), s.settings, s.core.queue[0], ch)
    requires Protocol.Admission(s.core, s.settings, cli).None?
    ensures var s' := ServedHead(s, ch);
            && s'.settings == s.settings && s'.mode == s.mode && s'.clean == s.clean && s'.core.queue == []
            && s'.core.clients.Keys == s.core.clients.Keys + {cli.guid}
            && s'.core.toClients == s.core.toClients[cli.guid := cli.sid]
            && cli.sid in s'.sessions && s'.sessions[cli.sid].phase == Running
            && cli.sid in s.sessions && s'.sessions[cli.sid].guid == s.sessions[cli.sid].guid
            && s'.sessions[cli.sid].hand == s.sessions[cli.sid].hand
            && s'.sessions == s.sessions[cli.sid := s'.sessions[cli.sid]]
  {
    hide Join, LegalJoin, HandlePacket, LegalPacket, Leave, DataFor, Smooth, Protocol.Admission;
    var c := WithoutHead(s.core);
    assert Protocol.Admission(c, s.settings, cli).None? by { SameAdmission(s.core, c, s.settings, cli); }
    JoinedOne(c, s.settings, cli, connect, ch);
  }

  lemma SameAdmission(c: Core<Sid>, c': Core<Sid>, settings: Settings, cli: Joiner<Sid>)
    requires c'.clients == c.clients
    ensures Protocol.Admission(c', settings, cli) == Protocol.Admission(c, settings, cli)
  {
  }

  lemma JoinedOne(c: Core<Sid>, settings: Settings, cli: Joiner<Sid>, connect: Packet, ch: Choice)
    requires Smooth(c, settings, NewPlayer(cli, connect), ch) && connect.data.Connect?
    requires Protocol.Admission(c, settings, cli).None?
    ensures LegalJoin(c, settings, cli, connect, ch)
    ensures var h := Join(c, settings, cli, connect, ch);
            && h.result == Continue && h.core.queue == c.queue
            && h.core.clients.Keys == c.clients.Keys + {cli.guid}
            && h.core.toClients == c.toClients[cli.guid := cli.sid]
  {
    hide Join, LegalJoin, DataFor, Smooth, Protocol.Admission;
    SmoothJoins(c, settings, cli, connect, ch);
    JoinFrame(c, settings, cli, connect, ch);
  }

  lemma NextGuid(n: nat)
    requires n < 0x1_0000
    ensures GuidsUpTo(n + 1) == GuidsUpTo(n) + {GuidOf(n)}
  {
  }

  lemma RoomLeft(c: Core<Sid>, settings: Settings, n: nat)
    requires n <= settings.maxPlayers as int < 0x1_0000
    requires settings.bannedPlayers == {} && settings.bannedIps == {} && c.clients.Keys == GuidsUpTo(n)
    ensures Admission(c, settings, Joiner(n, GuidOf(n), 0, n)) == None
  {
    GuidsDiffer(n, n);
    assert |c.clients| == |c.clients.Keys| == n;
  }

  lemma SmoothJoins(c: Core<Sid>, settings: Settings, cli: Joiner<Sid>, connect: Packet, ch: Choice)
    requires Smooth(c, settings, NewPlayer(cli, connect), ch)
    ensures LegalJoin(c, settings, cli, connect, ch) && Join(c, settings, cli, connect, ch).result != SendFailed
  {
    hide Join, LegalJoin, LegalPacket, HandlePacket, Leave;
  }

  /** The next command is handled, and no send fails. */
  lemma ServeNext(run: seq<Sys>, labels: seq<Label>) returns (run': seq<Sys>, labels': seq<Label>, ch: Choice)
    requires IsRun(run, labels) && |run| == |labels| + 1
    requires run[|labels|].core.queue != [] && run[|labels|].mode == Serving
    ensures var s := run[|labels|];
            && CanServe(s, ch) && Smooth(WithoutHead(s.core), s.settings, s.core.queue[0], ch)
            && run' == run + [ServedHead(s, ch)] && labels' == labels + [Serve(ch)] && IsRun(run', labels')
  {
    hide IsRun, CanServe, ServedHead, Smooth;
    var s := run[|labels|];
    NeverStuck(run, labels, |labels|);
    ch :| CanServe(s, ch) && Smooth(WithoutHead(s.core), s.settings, s.core.queue[0], ch);
    RunGrows(run, labels, Serve(ch));
    run', labels' := run + [ServedHead(s, ch)], labels + [Serve(ch)];
  }

  lemma LetInOne(run: seq<Sys>, labels: seq<Label>, settings: Settings, n: nat)
    returns (run': seq<Sys>, labels': seq<Label>)
    requires settings.bannedPlayers == {} && settings.bannedIps == {} && n <= settings.maxPlayers as int < 0x1_0000
    requires LetIn(run, labels, settings, n)
    ensures LetIn(run', labels', settings, n + 1)
  {
    hide CanServe, ServedHead, GuidOf, GuidsUpTo, Smooth, Enabled, Step, IsRun, NthNewcomer;
    var s := run[|labels|];
    var arrive := Arrive(n, 0, NthNewcomer(n));
    AskedToJoin(s, n, 0, NthNewcomer(n));
    RunGrows(run, labels, arrive);
    var s1 := Step(s, arrive);
    var ch;
    run', labels', ch := ServeNext(run + [s1], labels + [arrive]);
    LetInServed(s1, n, ch);
  }

  /** Who passes the limit: exactly a new player that comes when there are as many as the limit allows. */
  lemma LimitPassedExactly(c: Core<Sid>, settings: Settings, cli: Joiner<Sid>, connect: Packet, ch: Choice)
    requires LegalJoin(c, settings, cli, connect, ch) && |c.clients| <= settings.maxPlayers as int
    ensures var h := Join(c, settings, cli, connect, ch);
            |h.core.clients| > settings.maxPlayers as int
            <==> h.result == Continue && |c.clients| == settings.maxPlayers as int && cli.guid !in c.clients
  {
    assert connect.data.Connect?;
    hide Join, LegalJoin, Admission;
    var c' := Join(c, settings, cli, connect, ch).core;
    JoinResult(c, settings, cli, connect, ch);
    if Admission(c, settings, cli).Some? {
      JoinRefused(c, settings, cli, connect, ch);
    } else {
      JoinFrame(c, settings, cli, connect, ch);
      RegisterSize(c, cli, connect.data.cType);
      UnregisterSize(Register(c, cli, connect.data.cType), cli.guid);
    }
  }

  lemma RegisterSize(c: Core<Sid>, cli: Joiner<Sid>, cType: ConnectionType)
    ensures |Register(c, cli, cType).clients| == |c.clients| + if cli.guid in c.clients then 0 else 1
  {
    hide DataFor;
    var clients := Register(c, cli, cType).clients;
    assert clients.Keys == c.clients.Keys + {cli.guid};
    assert |clients| == |clients.Keys| && |c.clients| == |c.clients.Keys|;
  }

  lemma UnregisterSize(c: Core<Sid>, g: Guid)
    requires g in c.clients
    ensures |Unregister(c, g).clients| == |c.clients| - 1
  {
    var clients := Unregister(c, g).clients;
    assert clients.Keys == c.clients.Keys - {g};
    assert |clients| == |clients.Keys| && |c.clients| == |c.clients.Keys|;
  }

  /** The limit is passed by one: without bans, some run in which nothing fails lets in `maxPlayers + 1` players. */
  lemma {:induction false} LimitIsPassedByOne(settings: Settings, n: nat) returns (run: seq<Sys>, labels: seq<Label>)
    requires settings.bannedPlayers == {} && settings.bannedIps == {} && n <= settings.maxPlayers as int + 1
    ensures IsRun(run, labels) && run[|labels|].settings == settings && run[|labels|].clean
    ensures |run[|labels|].core.clients| == n
    ensures LetIn(run, labels, settings, n)
  {
    hide Step, Enabled;
    if n == 0 {
      var s := Sys(settings, Core(map[], map[], {}, map[], map[], [], [], [], []), map[], Serving, true, {}, {});
      run, labels := [s], [];
    } else {
      run, labels := LimitIsPassedByOne(settings, n - 1);
      run, labels := LetInOne(run, labels, settings, n - 1);
      if n < 0x1_0000 {
        GuidsDiffer(n, n);
      } else {
        GuidsDiffer(n - 1, n - 1);
      }
      var s := run[|labels|];
      assert |s.core.clients| == |s.core.clients.Keys|;
    }
  }

  // ---- shutdown ----

  /** How the notices of one departure get through. */
  datatype Notices = Notices(undone: set<Sid>, bye: bool)

  /** `shutdown`: the players leave one after the other, in the given order. */
  function Drained<R>(c: Core<R>, order: seq<Guid>, how: seq<Notices>): Core<R>
    requires |how| == |order|
  {
    if order == [] then c
    else
      var n := |order| - 1;
      Leave(Drained(c, order[..n], how[..n]), order[n], how[n].undone, how[n].bye).core
  }

  function Gone(order: seq<Guid>): set<Guid> {
    set g | g in order
  }

  lemma LeaveTables<R>(c: Core<R>, g: Guid, undone: set<Sid>, bye: bool)
    ensures var c' := Leave(c, g, undone, bye).core;
            c'.clients == c.clients - {g} && c'.toClients == c.toClients - {g} && c'.log.Keys == c.log.Keys
  {
  }

  lemma {:induction false} DrainedTables<R>(c: Core<R>, order: seq<Guid>, how: seq<Notices>)
    requires |how| == |order|
    ensures var c' := Drained(c, order, how);
            && c'.clients == c.clients - Gone(order) && c'.toClients == c.toClients - Gone(order)
            && c'.log.Keys == c.log.Keys
  {
    hide Leave;
    if order != [] {
      var n := |order| - 1;
      DrainedTables(c, order[..n], how[..n]);
      LeaveTables(Drained(c, order[..n], how[..n]), order[n], how[n].undone, how[n].bye);
      assert order == order[..n] + [order[n]];
      assert Gone(order) == Gone(order[..n]) + {order[n]};
    }
  }

  /** Going through all keys empties both tables, in any order and whatever sends fail. */
  lemma DrainEmpties<R>(c: Core<R>, order: seq<Guid>, how: seq<Notices>)
    requires Coherent(c) && |how| == |order| && forall g :: g in c.toClients ==> g in order
    ensures Drained(c, order, how).clients == map[] && Drained(c, order, how).toClients == map[]
  {
    hide Drained;
    DrainedTables(c, order, how);
  }

  function NoticeOf(g: Guid): Msg {
    Msg(DisconnectPacket(g), Notice)
  }

  function NoticesOf(order: seq<Guid>): (ms: seq<Msg>)
    ensures |ms| == |order| && forall i :: 0 <= i < |order| ==> ms[i] == NoticeOf(order[i])
  {
    seq(|order|, i requires 0 <= i < |order| => NoticeOf(order[i]))
  }

  /** No send fails while the given players leave in this order. */
  predicate AllNoticesSent<R>(c: Core<R>, order: seq<Guid>, how: seq<Notices>)
    requires |how| == |order|
  {
    forall i :: 0 <= i < |order| ==> how[i] == Notices((c.toClients - Gone(order[..i + 1])).Values, true)
  }

  /** One player leaves and no send fails: it and everyone still registered get exactly one notice. */
  lemma LeaveNotices<R>(c: Core<R>, g: Guid, x: Guid)
    requires OwnInboxes(c.toClients) && g in c.toClients && x in c.toClients && c.toClients[x] in c.log
    ensures var c' := Leave(c, g, Everyone(Unregister(c, g)), true).core;
            c'.log[c.toClients[x]] == c.log[c.toClients[x]] + [NoticeOf(g)]
  {
    hide Resize;
    NoticeIsResized(g);
    var c1 := Unregister(c, g);
    if x != g {
      assert x in c1.toClients && c1.toClients[x] == c.toClients[x];
    } else {
      assert c.toClients[g] !in Everyone(c1);
    }
  }

  /** Nobody who has left already hears of a departure. */
  lemma LeaveSpares<R>(c: Core<R>, g: Guid, x: Sid)
    requires x in c.log && forall g' :: g' in c.toClients ==> c.toClients[g'] != x
    ensures var c' := Leave(c, g, Everyone(Unregister(c, g)), true).core; c'.log[x] == c.log[x]
  {
    hide Resize;
  }

  /** The departures a player hears of: all up to its own. */
  function HeardBy(order: seq<Guid>, g: Guid): seq<Guid> {
    if order == [] then []
    else
      var n := |order| - 1;
      if g in order[..n] then HeardBy(order[..n], g) else order
  }

  lemma {:induction false} HeardUpTo(order: seq<Guid>, k: nat)
    requires NoDuplicates(order) && k < |order|
    ensures HeardBy(order, order[k]) == order[..k + 1]
  {
    var n := |order| - 1;
    if k < n {
      HeardUpTo(order[..n], k);
      assert order[..n][..k + 1] == order[..k + 1];
      assert order[k] == order[..n][k];
    } else {
      assert order[..k + 1] == order;
    }
  }

  lemma {:induction false} DrainedLog<R>(c: Core<R>, order: seq<Guid>, how: seq<Notices>, g: Guid)
    requires OwnInboxes(c.toClients) && |how| == |order| && NoDuplicates(order) && AllNoticesSent(c, order, how)
    requires g in c.toClients && c.toClients[g] in c.log && forall h :: h in order ==> h in c.toClients
    ensures var x, c' := c.toClients[g], Drained(c, order, how);
            x in c'.log && c'.log[x] == c.log[x] + NoticesOf(HeardBy(order, g))
  {
    hide Leave, OwnInboxes;
    DrainedTables(c, order, how);
    var x := c.toClients[g];
    if order == [] {
      assert c.log[x] + NoticesOf([]) == c.log[x];
    } else {
      var n := |order| - 1;
      var c1 := Drained(c, order[..n], how[..n]);
      FewerNotices(c, order, how);
      DrainedLog(c, order[..n], how[..n], g);
      DrainedTables(c, order[..n], how[..n]);
      StillOwn(c, c1, order[..n]);
      LastLeaves(c, c1, order, how);
      if g in order[..n] {
        GoneInbox(c, c1, order[..n], g);
        LeaveSpares(c1, order[n], x);
      } else {
        LeaveNotices(c1, order[n], g);
        HeardAll(order[..n], g);
        assert NoticesOf(order) == NoticesOf(order[..n]) + [NoticeOf(order[n])];
      }
    }
  }

  lemma HeardAll(order: seq<Guid>, g: Guid)
    requires g !in order
    ensures HeardBy(order, g) == order
  {
  }

  lemma FewerNotices<R>(c: Core<R>, order: seq<Guid>, how: seq<Notices>)
    requires |how| == |order| && order != [] && AllNoticesSent(c, order, how)
    ensures AllNoticesSent(c, order[..|order| - 1], how[..|order| - 1])
  {
    var n := |order| - 1;
    forall i | 0 <= i < n ensures how[i] == Notices((c.toClients - Gone(order[..n][..i + 1])).Values, true) {
      assert order[..n][..i + 1] == order[..i + 1];
    }
  }

  lemma StillOwn<R>(c: Core<R>, c1: Core<R>, order: seq<Guid>)
    requires OwnInboxes(c.toClients) && c1.toClients == c.toClients - Gone(order)
    ensures OwnInboxes(c1.toClients)
  {
  }

  lemma GoneInbox<R>(c: Core<R>, c1: Core<R>, order: seq<Guid>, g: Guid)
    requires OwnInboxes(c.toClients) && c1.toClients == c.toClients - Gone(order) && g in order && g in c.toClients
    ensures forall h :: h in c1.toClients ==> c1.toClients[h] != c.toClients[g]
  {
  }

  lemma LastLeaves<R>(c: Core<R>, c1: Core<R>, order: seq<Guid>, how: seq<Notices>)
    requires |how| == |order| && order != [] && NoDuplicates(order) && AllNoticesSent(c, order, how)
    requires c1.toClients == c.toClients - Gone(order[..|order| - 1])
    requires forall h :: h in order ==> h in c.toClients
    ensures var n := |order| - 1;
            order[n] in c1.toClients && how[n] == Notices(Everyone(Unregister(c1, order[n])), true)
  {
    var n := |order| - 1;
    assert order == order[..n] + [order[n]] && order[..n + 1] == order;
    assert order[n] in order;
    assert Gone(order) == Gone(order[..n]) + {order[n]};
    assert c1.toClients - {order[n]} == c.toClients - Gone(order);
  }

  /** If no send fails, the player that leaves as number `k` gets one notice for each player before it and then its
      own, which is the only one that ends its session. */
  lemma DrainNotices<R>(c: Core<R>, order: seq<Guid>, how: seq<Notices>, k: nat)
    requires OwnInboxes(c.toClients) && |how| == |order| && NoDuplicates(order) && AllNoticesSent(c, order, how)
    requires k < |order| && forall g :: g in order ==> g in c.toClients && c.toClients[g] in c.log
    ensures var x, notices := c.toClients[order[k]], NoticesOf(order[..k + 1]);
            && x in Drained(c, order, how).log && Drained(c, order, how).log[x] == c.log[x] + notices
            && forall i :: 0 <= i <= k ==> (EndsSession(order[k], notices[i].packet) <==> i == k)
  {
    hide Drained;
    DrainedLog(c, order, how, order[k]);
    HeardUpTo(order, k);
    var notices := NoticesOf(order[..k + 1]);
    forall i | 0 <= i <= k ensures EndsSession(order[k], notices[i].packet) <==> i == k {
      assert order[..k + 1][i] == order[i];
    }
  }

  ghost predicate DrainInv(s: Sys) {
    s.mode.Draining? ==> s.core.toClients.Keys == s.mode.todo && s.core.clients.Keys == s.mode.todo
  }

  lemma StepDrain(s: Sys, l: Label)
    requires Wf(s) && Enabled(s, l) && DrainInv(s)
    ensures DrainInv(Step(s, l))
  {
    hide Wf, CanServe, ServedHead, Leave, OnPacket, NewProfile, LegalShines, Append, Arrived, Took, Delivered, Finished,
      Fire;
    match l
    case Serve(ch) =>
      CoherentIn(s);
      ServedMode(s, ch);
    case Drain(g, undone, bye) => LeaveFrame(s.core, g, undone, bye);
    case _ => StepTables(s, l);
  }

  lemma CoherentIn(s: Sys)
    requires Wf(s)
    ensures s.core.clients.Keys == s.core.toClients.Keys
  {
    hide QueueWf, SessionsWf, FreshWf;
  }

  lemma ServedMode(s: Sys, ch: Choice)
    requires CanServe(s, ch)
    ensures var s' := ServedHead(s, ch);
            s'.mode != s.mode ==>
              && s'.mode == Draining(s.core.toClients.Keys)
              && s'.core.toClients == s.core.toClients && s'.core.clients == s.core.clients
  {
    hide HandlePacket, Join, Leave, LegalPacket, LegalJoin, Admission, DataFor;
  }

  /** After a shutdown, however the steps of the sessions are mixed in, the registered players are exactly those that
      are still to be disconnected; when none are left, both tables are empty. */
  lemma {:induction false} ShutdownDrains(run: seq<Sys>, labels: seq<Label>, n: nat)
    requires IsRun(run, labels) && n < |run|
    ensures DrainInv(run[n])
    ensures run[n].mode == Draining({}) ==> run[n].core.clients == map[] && run[n].core.toClients == map[]
  {
    hide Step, Enabled, Wf;
    if n > 0 {
      ShutdownDrains(run, labels, n - 1);
      RunWf(run, labels, n - 1);
      StepDrain(run[n - 1], labels[n - 1]);
    }
  }
}
