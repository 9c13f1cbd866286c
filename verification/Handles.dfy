/** The coordinator does not look at what its handles are: naming the shared data of its players differently, by
    object in the class `Coordinator` or by session in module `System`, changes nothing else it does. */
module Handles {
  import opened Utf8
  import opened Wire
  import opened Packets
  import opened Protocol

  /** Different data have different names. */
  ghost predicate OneToOne<R, S>(f: R -> S, heap: map<R, Profile>) {
    forall x, y :: x in heap && y in heap && f(x) == f(y) ==> x == y
  }

  function NamedHeap<R, S>(f: R -> S, heap: map<R, Profile>): (named: map<S, Profile>)
    requires OneToOne(f, heap)
    ensures forall r :: r in heap ==> f(r) in named && named[f(r)] == heap[r]
    ensures forall s :: s in named ==> exists r :: r in heap && f(r) == s
  {
    map r | r in heap :: f(r) := heap[r]
  }

  function NamedJoiner<R, S>(f: R -> S, j: Joiner<R>): Joiner<S> {
    Joiner(j.sid, j.guid, j.ip, f(j.data))
  }

  function NamedCommand<R, S>(f: R -> S, cmd: Command<R>): Command<S> {
    match cmd
    case PacketCommand(from, p) => PacketCommand(from, p)
    case NewPlayer(cli, connect) => NewPlayer(NamedJoiner(f, cli), connect)
    case DisconnectPlayer(g) => DisconnectPlayer(g)
    case Shutdown => Shutdown
  }

  function NamedDelayed<R, S>(f: R -> S, d: Delayed<R>): Delayed<S> {
    Delayed(d.chan, d.guid, f(d.data))
  }

  function NamedQueue<R, S>(f: R -> S, queue: seq<Command<R>>): (named: seq<Command<S>>)
    ensures |named| == |queue| && forall i :: 0 <= i < |queue| ==> named[i] == NamedCommand(f, queue[i])
  {
    seq(|queue|, i requires 0 <= i < |queue| => NamedCommand(f, queue[i]))
  }

  function NamedSyncs<R, S>(f: R -> S, delayed: seq<Delayed<R>>): (named: seq<Delayed<S>>)
    ensures |named| == |delayed| && forall i :: 0 <= i < |delayed| ==> named[i] == NamedDelayed(f, delayed[i])
  {
    seq(|delayed|, i requires 0 <= i < |delayed| => NamedDelayed(f, delayed[i]))
  }

  function NamedTasks<R, S>(f: R -> S, started: seq<Joiner<R>>): (named: seq<Joiner<S>>)
    ensures |named| == |started| && forall i :: 0 <= i < |started| ==> named[i] == NamedJoiner(f, started[i])
  {
    seq(|started|, i requires 0 <= i < |started| => NamedJoiner(f, started[i]))
  }

  function NamedClients<R, S>(f: R -> S, clients: map<Guid, R>): (named: map<Guid, S>)
    ensures named.Keys == clients.Keys && forall g :: g in clients ==> named[g] == f(clients[g])
  {
    map g | g in clients :: f(clients[g])
  }

  /** The same state with every handle named by `f`. */
  function Named<R, S>(f: R -> S, c: Core<R>): Core<S>
    requires OneToOne(f, c.heap)
  {
    Core(NamedClients(f, c.clients), c.toClients, c.bag, NamedHeap(f, c.heap), c.log, c.broadcasts,
         NamedQueue(f, c.queue), NamedSyncs(f, c.delayed), NamedTasks(f, c.started))
  }

  function NamedHandled<R, S>(f: R -> S, h: Handled<R>): Handled<S>
    requires OneToOne(f, h.core.heap)
  {
    Handled(Named(f, h.core), h.result)
  }

  // ---- the steps ----

  lemma NamedBroadcast<R, S>(f: R -> S, c: Core<R>, p: Packet, kind: Kind, reached: set<Sid>)
    requires OneToOne(f, c.heap)
    ensures Broadcast(Named(f, c), p, kind, reached) == Named(f, Broadcast(c, p, kind, reached))
  {
    hide Append, Resize, NamedHeap, NamedClients, NamedQueue, NamedSyncs, NamedTasks;
  }

  lemma NamedUnregister<R, S>(f: R -> S, c: Core<R>, g: Guid)
    requires OneToOne(f, c.heap)
    ensures Unregister(Named(f, c), g) == Named(f, Unregister(c, g))
  {
    hide NamedHeap, NamedQueue, NamedSyncs, NamedTasks;
    assert NamedClients(f, c.clients) - {g} == NamedClients(f, c.clients - {g});
  }

  lemma NamedLeave<R, S>(f: R -> S, c: Core<R>, g: Guid, undone: set<Sid>, bye: bool)
    requires OneToOne(f, c.heap)
    ensures Leave(c, g, undone, bye).core.heap == c.heap
    ensures Leave(Named(f, c), g, undone, bye) == NamedHandled(f, Leave(c, g, undone, bye))
  {
    hide Append, Resize, NamedHeap, NamedClients, NamedQueue, NamedSyncs, NamedTasks;
    NamedUnregister(f, c, g);
    NamedBroadcast(f, Unregister(c, g), DisconnectPacket(g), Notice, undone);
  }

  lemma NamedLive<R, S>(f: R -> S, c: Core<R>)
    requires OneToOne(f, c.heap) && HandlesLive(c)
    ensures HandlesLive(Named(f, c))
  {
    hide NamedQueue, NamedSyncs, NamedTasks;
  }

  lemma {:induction false} NamedIntros<R, S>(f: R -> S, c: Core<R>, order: seq<Guid>, maxPlayers: u16)
    requires OneToOne(f, c.heap) && HandlesLive(c) && forall i :: 0 <= i < |order| ==> order[i] in c.clients
    ensures HandlesLive(Named(f, c))
    ensures IntroAll(Named(f, c), order, maxPlayers) == IntroAll(c, order, maxPlayers)
  {
    hide IntroOf, NamedQueue, NamedSyncs, NamedTasks;
    NamedLive(f, c);
    if order != [] {
      NamedIntros(f, c, order[..|order| - 1], maxPlayers);
    }
  }

  lemma NamedIntroduce<R, S>(f: R -> S, c: Core<R>, sid: Sid, maxPlayers: u16, order: seq<Guid>, cut: nat)
    requires OneToOne(f, c.heap) && HandlesLive(c) && LegalOrder(c, order) && cut <= |IntroAll(c, order, maxPlayers)|
    ensures HandlesLive(Named(f, c)) && LegalOrder(Named(f, c), order)
    ensures cut <= |IntroAll(Named(f, c), order, maxPlayers)|
    ensures Introduce(Named(f, c), sid, maxPlayers, order, cut) == Named(f, Introduce(c, sid, maxPlayers, order, cut))
  {
    hide IntroAll, Append, NamedHeap, NamedQueue, NamedSyncs, NamedTasks;
    NamedIntros(f, c, order, maxPlayers);
  }

  lemma NamedSetup<R, S>(f: R -> S, c: Core<R>, sid: Sid, connect: Packet, maxPlayers: u16, ch: Choice)
    requires OneToOne(f, c.heap) && HandlesLive(c) && LegalOrder(c, ch.order)
    requires ch.cut <= |IntroAll(c, ch.order, maxPlayers)|
    ensures HandlesLive(Named(f, c)) && LegalOrder(Named(f, c), ch.order)
    ensures ch.cut <= |IntroAll(Named(f, c), ch.order, maxPlayers)|
    ensures Setup(c, sid, connect, maxPlayers, ch).core.heap == c.heap
    ensures Setup(Named(f, c), sid, connect, maxPlayers, ch) == NamedHandled(f, Setup(c, sid, connect, maxPlayers, ch))
  {
    hide IntroAll, Append, Resize, NamedHeap, NamedQueue, NamedSyncs, NamedTasks;
    NamedIntros(f, c, ch.order, maxPlayers);
    NamedIntroduce(f, c, sid, maxPlayers, ch.order, ch.cut);
    NamedBroadcast(f, Introduce(c, sid, maxPlayers, ch.order, ch.cut), connect, Notice, ch.reached);
  }

  lemma NamedRegister<R, S>(f: R -> S, c: Core<R>, cli: Joiner<R>, cType: ConnectionType)
    requires OneToOne(f, c.heap)
    ensures Register(Named(f, c), NamedJoiner(f, cli), cType) == Named(f, Register(c, cli, cType))
  {
    hide NamedHeap, NamedQueue, NamedSyncs;
    var data := DataFor(c, cli, cType);
    assert DataFor(Named(f, c), NamedJoiner(f, cli), cType) == f(data);
    assert NamedClients(f, c.clients)[cli.guid := f(data)] == NamedClients(f, c.clients[cli.guid := data]);
    assert NamedTasks(f, c.started) + [NamedJoiner(f, cli.(data := data))]
        == NamedTasks(f, c.started + [cli.(data := data)]);
  }

  lemma NamedAdmission<R, S>(f: R -> S, c: Core<R>, settings: Settings, cli: Joiner<R>)
    requires OneToOne(f, c.heap)
    ensures Admission(Named(f, c), settings, NamedJoiner(f, cli)) == Admission(c, settings, cli)
  {
    hide NamedHeap, NamedQueue, NamedSyncs, NamedTasks;
    assert |c.clients.Keys| == |NamedClients(f, c.clients).Keys|;
  }

  lemma NamedRefuse<R, S>(f: R -> S, c: Core<R>, g: Guid)
    requires OneToOne(f, c.heap)
    ensures Refuse(Named(f, c), g) == Named(f, Refuse(c, g))
  {
    hide NamedHeap, NamedClients, NamedSyncs, NamedTasks;
    assert NamedQueue(f, c.queue) + [DisconnectPlayer(g)] == NamedQueue(f, c.queue + [DisconnectPlayer(g)]);
  }

  lemma NamedJoin<R, S>(f: R -> S, c: Core<R>, settings: Settings, cli: Joiner<R>, connect: Packet, ch: Choice)
    requires OneToOne(f, c.heap) && LegalJoin(c, settings, cli, connect, ch)
    ensures LegalJoin(Named(f, c), settings, NamedJoiner(f, cli), connect, ch)
    ensures Join(c, settings, cli, connect, ch).core.heap == c.heap
    ensures Join(Named(f, c), settings, NamedJoiner(f, cli), connect, ch)
         == NamedHandled(f, Join(c, settings, cli, connect, ch))
  {
    hide IntroAll, Setup, Leave, Register, Unregister, NamedHeap, NamedClients, NamedQueue, NamedSyncs, NamedTasks,
      Admission, HandlesLive, LegalOrder;
    NamedAdmission(f, c, settings, cli);
    NamedLive(f, c);
    NamedRefuse(f, c, cli.guid);
    NamedKeepsHandle(f, c, cli.data);
    if Admission(c, settings, cli) == None {
      var c1 := Register(c, cli, connect.data.cType);
      RegisterHeap(c, cli, connect.data.cType);
      NamedRegister(f, c, cli, connect.data.cType);
      NamedUnregister(f, c1, cli.guid);
      NamedSetup(f, c1, cli.sid, connect, settings.maxPlayers, ch);
      NamedLeave(f, Setup(c1, cli.sid, connect, settings.maxPlayers, ch).core, cli.guid, ch.undone, ch.bye);
    }
  }

  lemma RegisterHeap<R>(c: Core<R>, cli: Joiner<R>, cType: ConnectionType)
    ensures Register(c, cli, cType).heap == c.heap && Unregister(Register(c, cli, cType), cli.guid).heap == c.heap
  {
  }

  lemma NamedKeepsHandle<R, S>(f: R -> S, c: Core<R>, r: R)
    requires OneToOne(f, c.heap)
    ensures r in c.heap ==> f(r) in Named(f, c).heap
  {
    hide NamedClients, NamedQueue, NamedSyncs, NamedTasks;
  }

  lemma NamedLegalSync<R, S>(f: R -> S, c: Core<R>, shines: map<Sid, seq<i32>>)
    requires OneToOne(f, c.heap) && HandlesLive(c) && LegalSync(c, shines)
    ensures HandlesLive(Named(f, c)) && LegalSync(Named(f, c), shines)
    ensures Synced(Named(f, c), shines) <==> Synced(c, shines)
  {
    hide LegalShines, AllSent, NamedQueue, NamedSyncs, NamedTasks;
    NamedLive(f, c);
    var c' := Named(f, c);
    assert Everyone(c') == Everyone(c);
    forall g | g in c.clients ensures c'.heap[c'.clients[g]] == c.heap[c.clients[g]] {
    }
  }

  lemma NamedSyncAll<R, S>(f: R -> S, c: Core<R>, shines: map<Sid, seq<i32>>)
    requires OneToOne(f, c.heap)
    ensures SyncAll(Named(f, c), shines) == Named(f, SyncAll(c, shines))
  {
    hide Append, ShineSends, NamedHeap, NamedClients, NamedQueue, NamedSyncs, NamedTasks;
  }

  lemma NamedCollect<R, S>(f: R -> S, c: Core<R>, k: i32)
    requires OneToOne(f, c.heap)
    ensures Collect(Named(f, c), k) == Named(f, Collect(c, k))
  {
    hide NamedHeap, NamedClients, NamedQueue, NamedSyncs, NamedTasks;
  }

  lemma NamedUpdate<R, S>(f: R -> S, heap: map<R, Profile>, r: R, d: Profile)
    requires OneToOne(f, heap) && r in heap
    ensures OneToOne(f, heap[r := d]) && NamedHeap(f, heap[r := d]) == NamedHeap(f, heap)[f(r) := d]
  {
  }

  lemma NamedData<R, S>(f: R -> S, c: Core<R>, g: Guid)
    requires OneToOne(f, c.heap) && HandlesLive(c) && g in c.clients
    ensures var c' := Named(f, c);
            && g in c'.clients && c'.clients[g] == f(c.clients[g])
            && f(c.clients[g]) in c'.heap && c'.heap[f(c.clients[g])] == c.heap[c.clients[g]]
  {
    hide NamedQueue, NamedSyncs, NamedTasks;
  }

  lemma NamedReset<R, S>(f: R -> S, c: Core<R>, g: Guid)
    requires OneToOne(f, c.heap) && HandlesLive(c) && g in c.clients
    ensures HandlesLive(Named(f, c)) && OneToOne(f, Reset(c, g).heap)
    ensures Reset(Named(f, c), g) == Named(f, Reset(c, g))
  {
    hide StartSpeedrun, NamedQueue, NamedSyncs, NamedTasks, NamedHeap, NamedClients, OneToOne;
    NamedLive(f, c);
    var r := c.clients[g];
    NamedData(f, c, g);
    NamedUpdate(f, c.heap, r, StartSpeedrun(c.heap[r]));
  }

  lemma NamedResume<R, S>(f: R -> S, c: Core<R>, g: Guid)
    requires OneToOne(f, c.heap) && HandlesLive(c) && g in c.clients && g in c.toClients
    ensures HandlesLive(Named(f, c)) && OneToOne(f, Resume(c, g).heap)
    ensures Resume(Named(f, c), g) == Named(f, Resume(c, g))
  {
    hide NamedQueue, NamedTasks, NamedHeap, NamedClients, OneToOne;
    NamedLive(f, c);
    var r := c.clients[g];
    NamedData(f, c, g);
    NamedUpdate(f, c.heap, r, c.heap[r].(speedrunStart := false));
    assert NamedSyncs(f, c.delayed) + [NamedDelayed(f, Delayed(c.toClients[g], g, r))]
        == NamedSyncs(f, c.delayed + [Delayed(c.toClients[g], g, r)]);
  }

  lemma NamedBefore<R, S>(f: R -> S, c: Core<R>, p: Packet, ch: Choice)
    requires OneToOne(f, c.heap) && HandlesLive(c) && Coherent(c)
    requires IsReset(p.data) || IsWaterfall(p.data) ==> p.id in c.clients
    ensures HandlesLive(Named(f, c)) && Coherent(Named(f, c)) && OneToOne(f, BeforeBroadcast(c, p, ch).heap)
    ensures BeforeBroadcast(Named(f, c), p, ch) == Named(f, BeforeBroadcast(c, p, ch))
  {
    hide IsReset, IsWaterfall, SyncAll, Reset, Resume, NamedHeap, NamedQueue, NamedSyncs, NamedTasks, OneToOne,
      HandlesLive;
    NamedLive(f, c);
    SyncHeap(c, ch.shines);
    NamedSyncAll(f, c, ch.shines);
    if IsReset(p.data) {
      NamedReset(f, c, p.id);
    } else if IsWaterfall(p.data) {
      NamedResume(f, c, p.id);
    }
  }

  lemma SyncHeap<R>(c: Core<R>, shines: map<Sid, seq<i32>>)
    ensures SyncAll(c, shines).heap == c.heap
  {
  }

  lemma BroadcastHeap<R>(c: Core<R>, p: Packet, kind: Kind, reached: set<Sid>)
    ensures Broadcast(c, p, kind, reached).heap == c.heap
  {
  }

  lemma CollectHeap<R>(c: Core<R>, k: i32)
    ensures Collect(c, k).heap == c.heap && (HandlesLive(c) ==> HandlesLive(Collect(c, k)))
  {
  }

  lemma NamedEveryone<R, S>(f: R -> S, c: Core<R>)
    requires OneToOne(f, c.heap)
    ensures Everyone(Named(f, c)) == Everyone(c) && Named(f, c).clients.Keys == c.clients.Keys
    ensures forall reached :: BroadcastResult(Named(f, c), reached) == BroadcastResult(c, reached)
  {
    hide NamedHeap, NamedQueue, NamedSyncs, NamedTasks;
  }

  lemma NamedLegalPacket<R, S>(f: R -> S, c: Core<R>, p: Packet, ch: Choice)
    requires OneToOne(f, c.heap) && LegalPacket(c, p, ch)
    ensures LegalPacket(Named(f, c), p, ch)
  {
    hide NamedHeap, NamedClients, NamedQueue, NamedSyncs, NamedTasks, LegalSync, OneToOne;
    NamedLive(f, c);
    NamedEveryone(f, c);
    NamedCoherent(f, c);
    if p.data.CostumeData? {
      NamedLegalSync(f, c, ch.shines);
    } else if p.data.Shine? {
      NamedLegalSync(f, Collect(c, p.data.shineId), ch.shines);
      NamedCollect(f, c, p.data.shineId);
    }
  }

  lemma NamedCoherent<R, S>(f: R -> S, c: Core<R>)
    requires OneToOne(f, c.heap) && Coherent(c)
    ensures Coherent(Named(f, c))
  {
    hide NamedHeap, NamedQueue, NamedSyncs, NamedTasks;
  }

  lemma NamedPacket<R, S>(f: R -> S, c: Core<R>, from: Sid, p: Packet, ch: Choice)
    requires OneToOne(f, c.heap) && LegalPacket(c, p, ch)
    ensures LegalPacket(Named(f, c), p, ch) && OneToOne(f, HandlePacket(c, from, p, ch).core.heap)
    ensures HandlePacket(Named(f, c), from, p, ch) == NamedHandled(f, HandlePacket(c, from, p, ch))
  {
    hide NamedHeap, NamedClients, NamedQueue, NamedSyncs, NamedTasks, LegalShines, OneToOne, SyncAll, Synced, Broadcast,
      BroadcastResult, BeforeBroadcast, IsReset, IsWaterfall, Everyone, Collect, HandlesLive;
    NamedLegalPacket(f, c, p, ch);
    NamedEveryone(f, c);
    if p.data.Shine? {
      var c1 := Collect(c, p.data.shineId);
      CollectHeap(c, p.data.shineId);
      NamedCollect(f, c, p.data.shineId);
      NamedLegalSync(f, c1, ch.shines);
      SyncHeap(c1, ch.shines);
      NamedSyncAll(f, c1, ch.shines);
    } else if p.data.CostumeData? && !Synced(c, ch.shines) {
      NamedLegalSync(f, c, ch.shines);
      SyncHeap(c, ch.shines);
      NamedSyncAll(f, c, ch.shines);
    } else {
      if p.data.CostumeData? {
        NamedLegalSync(f, c, ch.shines);
      }
      if !((IsReset(p.data) || IsWaterfall(p.data)) && p.id !in c.clients) {
        var c1 := BeforeBroadcast(c, p, ch);
        NamedBefore(f, c, p, ch);
        NamedEveryone(f, c1);
        BroadcastHeap(c1, p, Relayed(from), ch.reached);
        NamedBroadcast(f, c1, p, Relayed(from), ch.reached);
      }
    }
  }

  /** Whatever a command does under one naming of the shared data, it does under any other: the same choices are open
      to it, with the same result and the same new state but for the names. */
  lemma NamesDoNotMatter<R, S>(f: R -> S, c: Core<R>, settings: Settings, cmd: Command<R>, ch: Choice)
    requires OneToOne(f, c.heap) && Legal(c, settings, cmd, ch)
    ensures Legal(Named(f, c), settings, NamedCommand(f, cmd), ch)
    ensures OneToOne(f, Handle(c, settings, cmd, ch).core.heap)
    ensures Handle(Named(f, c), settings, NamedCommand(f, cmd), ch) == NamedHandled(f, Handle(c, settings, cmd, ch))
  {
    hide Named, LegalPacket, LegalJoin, HandlePacket, Join, Leave, OneToOne, Everyone, Unregister;
    match cmd
    case PacketCommand(from, p) => NamedPacket(f, c, from, p, ch);
    case NewPlayer(cli, connect) => NamedJoin(f, c, settings, cli, connect, ch);
    case DisconnectPlayer(g) =>
      NamedLeave(f, c, g, ch.undone, ch.bye);
      NamedUnregister(f, c, g);
      LeftEveryone(f, c, g);
    case Shutdown =>
  }

  lemma LeftEveryone<R, S>(f: R -> S, c: Core<R>, g: Guid)
    requires OneToOne(f, c.heap)
    ensures Everyone(Unregister(Named(f, c), g)) == Everyone(Unregister(c, g))
  {
    hide NamedHeap, NamedClients, NamedQueue, NamedSyncs, NamedTasks;
  }
}
