/** The coordinator as the program has it: an object whose methods update its tables, send to channels one message at
    a time, and write to the data it shares with client tasks.  Every method is proved to do what the function of
    the same name in module Protocol says, for the choices it happened to make. */
module Coordinator {
  import opened Utf8
  import opened Wire
  import opened Packets
  import opened Protocol
  import opened Admission
  import opened Shines

  /** The data of one player, shared between the coordinator and a client task. */
  class ClientData {
    var name: Text
    var shineSync: set<i32>
    var scenario: byte
    var is2d: bool
    var isSeeking: bool
    var lastGame: Option<Packet>
    var speedrunStart: bool
    var loadedSave: bool
    var time: nat
    var costume: Costume

    constructor (d: Profile)
      ensures Value() == d
    {
      name, shineSync, scenario, is2d, isSeeking := d.name, d.shineSync, d.scenario, d.is2d, d.isSeeking;
      lastGame, speedrunStart, loadedSave, time, costume := d.lastGame, d.speedrunStart, d.loadedSave, d.time, d.costume;
    }

    function Value(): Profile
      reads this
    {
      Profile(name, shineSync, scenario, is2d, isSeeking, lastGame, speedrunStart, loadedSave, time, costume)
    }

    method StartSpeedrun()
      modifies this
      ensures Value() == Protocol.StartSpeedrun(old(Value()))
    {
      speedrunStart := true;
      shineSync := {};
    }

    method EndSpeedrun() returns (was: bool)
      modifies this
      ensures Value() == old(Value()).(speedrunStart := false) && was == old(Value()).speedrunStart
    {
      was := speedrunStart;
      speedrunStart := false;
    }
  }

  /** Writing to one player's data changes that entry only. */
  lemma HeapUpdated(cells: set<ClientData>, before: map<ClientData, Profile>, data: ClientData)
    requires data in cells && before.Keys == cells && forall d :: d in cells && d != data ==> before[d] == d.Value()
    ensures HeapOf(cells) == before[data := data.Value()]
  {
    hide ClientData.Value;
  }

  method SetSpeedrun(ghost cells: set<ClientData>, data: ClientData)
    requires data in cells
    modifies data
    ensures HeapOf(cells) == old(HeapOf(cells))[data := Protocol.StartSpeedrun(old(data.Value()))]
  {
    hide ClientData.Value;
    ghost var before := HeapOf(cells);
    data.StartSpeedrun();
    HeapUpdated(cells, before, data);
  }

  method ClearSpeedrun(ghost cells: set<ClientData>, data: ClientData) returns (was: bool)
    requires data in cells
    modifies data
    ensures HeapOf(cells) == old(HeapOf(cells))[data := old(data.Value()).(speedrunStart := false)]
    ensures was == old(data.Value()).speedrunStart
  {
    hide ClientData.Value;
    ghost var before := HeapOf(cells);
    was := data.EndSpeedrun();
    HeapUpdated(cells, before, data);
  }

  ghost function HeapOf(cells: set<ClientData>): (heap: map<ClientData, Profile>)
    reads cells
    ensures heap.Keys == cells
  {
    map d | d in cells :: d.Value()
  }

  /** The sending ends of all client channels, and everything ever sent through them. */
  class Channels {
    const reliable: bool     // no receiver goes away while something is sent to it
    var log: map<Sid, seq<Msg>>

    constructor (reliable: bool)
      ensures log == map[] && this.reliable == reliable
    {
      this.reliable := reliable;
      log := map[];
    }

    /** Sending fails when the receiver is gone; whether it is does not depend on the coordinator. */
    method Send(to: Sid, m: Msg) returns (sent: bool)
      requires to in log
      modifies this
      ensures log == if sent then old(log)[to := old(log)[to] + [m]] else old(log)
      ensures reliable ==> sent
    {
      var received: bool := *;
      sent := reliable || received;
      if sent {
        log := log[to := log[to] + [m]];
      }
    }
  }

  /** Leaving and entering keep the channels apart. */
  lemma OwnWithout(toClients: map<Guid, Sid>, g: Guid)
    requires OwnInboxes(toClients)
    ensures OwnInboxes(toClients - {g})
  {
  }

  lemma OwnWith(toClients: map<Guid, Sid>, g: Guid, x: Sid)
    requires OwnInboxes(toClients) && x !in toClients.Values
    ensures OwnInboxes(toClients[g := x])
  {
  }

  ghost function Add(log: map<Sid, seq<Msg>>, x: Sid, ms: seq<Msg>): (r: map<Sid, seq<Msg>>)
    requires x in log
    ensures r.Keys == log.Keys
  {
    log[x := log[x] + ms]
  }

  lemma AddMore(log: map<Sid, seq<Msg>>, x: Sid, a: seq<Msg>, b: seq<Msg>)
    requires x in log
    ensures Add(log, x, []) == log && Add(Add(log, x, a), x, b) == Add(log, x, a + b)
  {
    assert log[x] + [] == log[x] && log[x] + (a + b) == log[x] + a + b;
  }

  class Coordinator {
    const settings: Settings
    const net: Channels
    var shineBag: set<i32>
    var clients: map<Guid, ClientData>
    var toClients: map<Guid, Sid>
    var fromClients: seq<Command<ClientData>>
    var delayed: seq<Delayed<ClientData>>
    var started: seq<Joiner<ClientData>>
    ghost var broadcasts: seq<Msg>
    ghost var cells: set<ClientData>     // the data of every player that was ever set up

    ghost predicate Valid()
      reads this`clients, this`toClients, this`delayed, this`cells, net
    {
      && clients.Keys == toClients.Keys
      && (forall g :: g in clients ==> clients[g] in cells)
      && (forall g :: g in toClients ==> toClients[g] in net.log)
      && OwnInboxes(toClients)
      && (forall i :: 0 <= i < |delayed| ==> delayed[i].data in cells && delayed[i].chan in net.log)
    }

    ghost function View(): Core<ClientData>
      reads this, net, cells
    {
      Core(clients, toClients, shineBag, HeapOf(cells), net.log, broadcasts, fromClients, delayed, started)
    }

    /** Everything but the channels is as in `c`. */
    ghost predicate Sees(c: Core<ClientData>)
      reads this, cells
    {
      && clients == c.clients && toClients == c.toClients && shineBag == c.bag && HeapOf(cells) == c.heap
      && broadcasts == c.broadcasts && fromClients == c.queue && delayed == c.delayed && started == c.started
    }

    lemma ViewParts(c: Core<ClientData>)
      requires Sees(c)
      ensures View() == c.(log := net.log)
    {
    }

    constructor (settings: Settings, reliable: bool)
      ensures Valid() && fresh(net) && net.reliable == reliable && this.settings == settings && cells == {}
      ensures View() == Core(map[], map[], {}, map[], map[], [], [], [], [])
    {
      this.settings := settings;
      net := new Channels(reliable);
      shineBag, clients, toClients, fromClients, delayed, started := {}, map[], map[], [], [], [];
      broadcasts, cells := [], {};
    }

    /** Sends one message to everyone registered, until a send fails. */
    method SendToAll(m: Msg) returns (r: Result, ghost reached: set<Sid>)
      requires Valid()
      modifies net
      ensures Valid() && reached <= toClients.Values && net.log == Append(old(net.log), To(reached, [m]))
      ensures r == if reached == toClients.Values then Continue else SendFailed
      ensures net.reliable ==> r == Continue
    {
      hide Append;
      reached := {};
      AppendNone(net.log, [m]);
      var todo := toClients.Keys;
      while todo != {}
        invariant todo <= toClients.Keys && reached <= toClients.Values
        invariant forall g :: g in toClients ==> (g in todo <==> toClients[g] !in reached)
        invariant net.log == Append(old(net.log), To(reached, [m]))
      {
        var g :| g in todo;
        var sent := net.Send(toClients[g], m);
        if !sent {
          return SendFailed, reached;
        }
        todo := todo - {g};
        AppendOne(old(net.log), reached, toClients[g], [m]);
        reached := reached + {toClients[g]};
      }
      r := Continue;
    }

    /** `broadcast` */
    method Broadcast(packet: Packet, kind: Kind) returns (r: Result, ghost reached: set<Sid>)
      requires Valid()
      modifies this`broadcasts, net
      ensures Valid() && reached <= Everyone(old(View()))
      ensures View() == Protocol.Broadcast(old(View()), packet, kind, reached)
      ensures r == BroadcastResult(old(View()), reached)
      ensures net.reliable ==> r == Continue
    {
      hide Append, Resize, HeapOf, Valid, To;
      r, reached := SendToAll(Msg(Resize(packet), kind));
      broadcasts := broadcasts + [Msg(Resize(packet), kind)];
    }

    /** Takes a player off both tables. */
    method Remove(guid: Guid) returns (comm: Option<Sid>)
      requires Valid()
      modifies this`clients, this`toClients
      ensures Valid() && View() == Unregister(old(View()), guid)
      ensures comm == if guid in old(toClients) then Some(old(toClients)[guid]) else None
      ensures comm.Some? ==> comm.value in net.log
    {
      hide HeapOf, OwnInboxes;
      OwnWithout(toClients, guid);
      clients := clients - {guid};
      comm := if guid in toClients then Some(toClients[guid]) else None;
      toClients := toClients - {guid};
    }

    /** `disconnect_player` */
    method DisconnectPlayer(guid: Guid) returns (r: Result, ghost undone: set<Sid>, ghost bye: bool)
      requires Valid()
      modifies this`clients, this`toClients, this`broadcasts, net
      ensures Valid() && undone <= Everyone(Unregister(old(View()), guid))
      ensures Handled(View(), r) == Leave(old(View()), guid, undone, bye)
      ensures net.reliable ==> r == Continue
    {
      hide Append, Resize, HeapOf, To, Valid, Unregister;
      undone, bye := {}, true;
      var comm := Remove(guid);
      if comm == None {
        return Continue, {}, true;
      }
      var packet := DisconnectPacket(guid);
      r, undone := Broadcast(packet, Notice);
      if r == Continue {
        AppendOnly(net.log, comm.value, [Msg(packet, Notice)]);
        var sent := SendTo(comm.value, Msg(packet, Notice));
        bye := sent;
        r := if sent then Continue else SendFailed;
      }
    }

    /** Sends one message. */
    method SendTo(comm: Sid, m: Msg) returns (sent: bool)
      requires Valid() && comm in net.log
      modifies net
      ensures Valid()
      ensures View() == if sent then old(View()).(log := Append(old(net.log), To({comm}, [m]))) else old(View())
      ensures net.reliable ==> sent
    {
      hide Append, HeapOf, To;
      AppendOnly(net.log, comm, [m]);
      sent := net.Send(comm, m);
    }

    /** Introduces one player to a newcomer. */
    method Introduce(comm: Sid, id: Guid, other: ClientData, maxPlayers: u16) returns (r: Result, ghost sent: nat)
      requires Valid() && comm in net.log
      modifies net
      ensures Valid()
      ensures var intro := IntroOf(id, other.Value(), maxPlayers);
              && sent <= |intro| && r == (if sent == |intro| then Continue else SendFailed)
              && net.log == Add(old(net.log), comm, intro[..sent])
      ensures net.reliable ==> r == Continue
    {
      ghost var intro := IntroOf(id, other.Value(), maxPlayers);
      ghost var log := net.log;
      AddMore(log, comm, [], []);
      assert intro[..0] == [];
      var connect := NewPacket(id, Connect(FirstConnection, maxPlayers, other.name));
      var costume := NewPacket(id, PacketData.CostumeData(other.costume));
      var lastGame := other.lastGame;
      var up := net.Send(comm, Msg(connect, Intro));
      if !up {
        return SendFailed, 0;
      }
      assert intro[..1] == [Msg(connect, Intro)];
      up := net.Send(comm, Msg(costume, Intro));
      if !up {
        return SendFailed, 1;
      }
      AddMore(log, comm, intro[..1], [Msg(costume, Intro)]);
      assert intro[..2] == intro[..1] + [Msg(costume, Intro)];
      if lastGame.Some? {
        up := net.Send(comm, Msg(lastGame.value, Intro));
        if !up {
          return SendFailed, 2;
        }
        AddMore(log, comm, intro[..2], [Msg(lastGame.value, Intro)]);
        assert intro[..3] == intro[..2] + [Msg(lastGame.value, Intro)];
      }
      assert intro[..|intro|] == intro;
      return Continue, |intro|;
    }

    /** Introduces every player to a newcomer; `c` is the state this starts in. */
    method IntroduceAll(comm: Sid, maxPlayers: u16, ghost c: Core<ClientData>)
      returns (r: Result, ghost order: seq<Guid>, ghost cut: nat)
      requires Valid() && Sees(c) && HandlesLive(c) && comm in net.log
      requires LegalOrder(c, []) && Introducing(c, comm, maxPlayers, [], clients.Keys, net.log)
      modifies net
      ensures Valid() && LegalOrder(c, order) && IntroducedUpTo(c, comm, maxPlayers, order, cut, net.log, r)
      ensures net.reliable ==> r == Continue
    {
      hide Append, HeapOf, IntroAll, IntroOf, Add, Valid, LegalOrder, HandlesLive, Introducing, IntroducedUpTo, Sees;
      order, r := [], Continue;
      var todo := clients.Keys;
      while todo != {}
        invariant Valid() && Sees(c) && LegalOrder(c, order) && r == Continue
        invariant Introducing(c, comm, maxPlayers, order, todo, net.log)
      {
        var g :| g in todo;
        r, cut := IntroduceNext(comm, g, maxPlayers, c, order, todo);
        order, todo := order + [g], todo - {g};
        if r != Continue {
          return;
        }
      }
      cut := IntroducingEnds(c, comm, maxPlayers, order, net.log);
    }

    method IntroduceNext(comm: Sid, g: Guid, maxPlayers: u16, ghost c: Core<ClientData>, ghost order: seq<Guid>,
                         ghost todo: set<Guid>) returns (r: Result, ghost cut: nat)
      requires Valid() && Sees(c) && g in todo
      requires HandlesLive(c) && LegalOrder(c, order) && Introducing(c, comm, maxPlayers, order, todo, net.log)
      modifies net
      ensures Valid() && LegalOrder(c, order + [g]) && (r == Continue || r == SendFailed)
      ensures if r == Continue then Introducing(c, comm, maxPlayers, order + [g], todo - {g}, net.log)
              else IntroducedUpTo(c, comm, maxPlayers, order + [g], cut, net.log, r)
      ensures net.reliable ==> r == Continue
    {
      IntroducingFacts(c, comm, maxPlayers, order, todo, net.log);
      LiveClient(c, g);
      hide Sees, Append, HeapOf, IntroAll, IntroOf, Add, Valid, LegalOrder, HandlesLive, Introducing, IntroducedUpTo,
        ClientData.Value;
      ghost var sent, before := 0, net.log;
      r, sent := Introduce(comm, g, clients[g], maxPlayers);
      cut := IntroducingGoesOn(c, comm, maxPlayers, order, todo, before, g, sent);
    }

    /** `setup_player` */
    method SetupPlayer(comm: Sid, packet: Packet) returns (r: Result, ghost ch: Choice)
      requires Valid() && comm in net.log
      modifies this`broadcasts, net
      ensures Valid() && HandlesLive(old(View())) && LegalOrder(old(View()), ch.order)
      ensures ch.cut <= |IntroAll(old(View()), ch.order, settings.maxPlayers)| && ch.reached <= Everyone(old(View()))
      ensures Handled(View(), r) == Setup(old(View()), comm, packet, settings.maxPlayers, ch)
      ensures net.reliable ==> r == Continue
    {
      IntroStarts(comm, settings.maxPlayers);
      hide View, Append, HeapOf, IntroAll, To, Resize, Valid, Sees, Introducing, HandlesLive, LegalOrder, Setup,
        Protocol.Broadcast, Protocol.Introduce, IntroducedUpTo, Everyone, BroadcastResult;
      ghost var order, cut, c := [], 0, View();
      r, order, cut := IntroduceAll(comm, settings.maxPlayers, c);
      ViewParts(c);
      UpTo(c, comm, settings.maxPlayers, order, cut, net.log, r);
      ch := Choice(order, cut, {}, {}, true, map[]);
      if r == Continue {
        ghost var reached;
        r, reached := Broadcast(packet, Notice);
        ch := ch.(reached := reached);
      }
      SetupIs(c, comm, packet, settings.maxPlayers, ch);
    }

    method CanConnect(cli: Joiner<ClientData>) returns (why: Option<Refusal>)
      ensures why == Protocol.Admission(View(), settings, cli)
    {
      if settings.maxPlayers < |clients| {
        why := Some(TooManyPlayers);
      } else if cli.guid in settings.bannedPlayers {
        why := Some(BannedID);
      } else if cli.ip in settings.bannedIps {
        why := Some(BannedIP);
      } else {
        why := None;
      }
    }

    /** A newcomer gets its data registered; a player that comes back keeps the data it has. */
    method InsertClient(cli: Joiner<ClientData>, cType: ConnectionType) returns (data: ClientData)
      modifies this`clients
      ensures data == DataFor(old(View()), cli, cType) && clients == old(clients)[cli.guid := data]
    {
      hide HeapOf;
      data := cli.data;
      match cType {
        case FirstConnection => clients := clients[cli.guid := data];
        case Reconnecting =>
          if cli.guid in clients {
            data := clients[cli.guid];
            assert clients[cli.guid := data] == clients;
          } else {
            clients := clients[cli.guid := data];
          }
      }
    }

    /** Puts a newcomer on both tables and starts its task. */
    method Enter(cli: Joiner<ClientData>, cType: ConnectionType)
      requires Valid() && cli.data in cells && cli.sid in net.log && cli.sid !in toClients.Values
      modifies this`clients, this`toClients, this`started
      ensures Valid() && View() == Register(old(View()), cli, cType)
    {
      hide HeapOf, OwnInboxes, Register, ClientData.Value;
      OwnWith(toClients, cli.guid, cli.sid);
      var data := InsertClient(cli, cType);
      toClients := toClients[cli.guid := cli.sid];
      started := started + [cli.(data := data)];
      RegisterIs(old(View()), View(), cli, cType, data);
    }

    /** `add_client` */
    method AddClient(cli: Joiner<ClientData>, packet: Packet) returns (r: Result, ghost ch: Choice)
      requires Valid() && cli.data in cells && cli.sid in net.log && packet.data.Connect?
      requires cli.sid !in toClients.Values      // its channel is its own
      modifies this`clients, this`toClients, this`broadcasts, this`fromClients, this`started, net
      ensures Valid() && LegalJoin(old(View()), settings, cli, packet, ch)
      ensures Handled(View(), r) == Join(old(View()), settings, cli, packet, ch)
      ensures net.reliable ==> r != SendFailed
    {
      LiveView();
      hide Append, HeapOf, IntroAll, To, Resize, Setup, Leave, Valid, Register, Protocol.Admission, HandlesLive,
        LegalOrder, LegalJoin, Join, Everyone, Unregister;
      ghost var c, c1 := View(), Register(View(), cli, packet.data.cType);
      ch := Choice([], 0, {}, {}, true, map[]);
      var why := CanConnect(cli);
      if why.Some? {
        JoinRefusedIs(c, settings, cli, packet, ch);
        fromClients := fromClients + [Command.DisconnectPlayer(cli.guid)];
        return Refused(why.value), ch;
      }
      Enter(cli, packet.data.cType);
      LiveView();
      r, ch := SetupPlayer(cli.sid, packet);
      SetupKeeps(c1, cli, packet, settings.maxPlayers, ch);
      ch := ch.(undone := {});
      if r != Continue {
        ghost var undone, bye;
        r, undone, bye := DisconnectPlayer(cli.guid);
        ch := ch.(undone := undone, bye := bye);
        r := SendFailed;
      }
      JoinIs(c, settings, cli, packet, ch);
    }

    /** `client_sync_shines`: sends a player the shines it lacks, in some order, until a send fails. */
    method ClientSyncShines(comm: Sid, guid: Guid, client: ClientData) returns (r: Result, ghost ids: seq<i32>)
      requires Valid() && comm in net.log
      modifies net
      ensures Valid() && net.log == Add(old(net.log), comm, ShineMsgs(guid, ids))
      ensures LegalShines(ids, client.Value(), shineBag)
      ensures r == if AllSent(ids, client.Value(), shineBag) then Continue else SendFailed
      ensures net.reliable ==> r == Continue
    {
      hide Valid, Add, ShineMsgs, ShinePacket, LegalShines, AllSent, Missing;
      ids := [];
      SendingStarts(net.log, comm, guid, client.Value(), shineBag);
      if client.speedrunStart {
        NothingMissing(client.Value(), shineBag);
        return Continue, [];
      }
      var mismatch := shineBag - client.shineSync;
      MissingIs(client.Value(), shineBag);
      while mismatch != {}
        invariant Valid() && comm in net.log && comm in old(net.log)
        invariant LegalShines(ids, client.Value(), shineBag)
        invariant mismatch == Missing(client.Value(), shineBag) - Elements(ids)
        invariant net.log == Add(old(net.log), comm, ShineMsgs(guid, ids))
      {
        var id :| id in mismatch;
        var sent := SendOne(comm, Msg(ShinePacket(guid, id), Sync));
        if !sent {
          SomeMissing(ids, id, client.Value(), shineBag);
          return SendFailed, ids;
        }
        SendingGoesOn(old(net.log), comm, guid, ids, id, client.Value(), shineBag);
        ids, mismatch := ids + [id], mismatch - {id};
      }
      r := Continue;
      NoneMissing(ids, client.Value(), shineBag);
    }

    /** Sends every player the shines it lacks, until a send fails; `c` is the state this starts in. */
    method SyncEveryone(ghost c: Core<ClientData>) returns (r: Result, ghost shines: map<Sid, seq<i32>>)
      requires Valid() && Sees(c) && HandlesLive(c) && Syncing(c, AllEmpty(c), clients.Keys, net.log)
      modifies net
      ensures Valid() && SyncedUpTo(c, shines, net.log, r)
      ensures net.reliable ==> r == Continue
    {
      hide Sees, Append, HeapOf, Valid, HandlesLive, Coherent, LegalSync, Synced, SyncAll, Syncing, SyncedUpTo, Add,
        OwnInboxes,
        ShineSends, ShineMsgs, LegalShines, AllSent, Missing, Everyone, ClientData.Value;
      shines, r := AllEmpty(c), Continue;
      var todo := clients.Keys;
      while todo != {}
        invariant Valid() && Sees(c) && Syncing(c, shines, todo, net.log) && r == Continue
      {
        var g :| g in todo;
        r, shines := SyncNext(g, c, shines, todo);
        if r != Continue {
          return;
        }
        todo := todo - {g};
      }
      SyncingEnds(c, shines, net.log);
    }

    method SyncNext(g: Guid, ghost c: Core<ClientData>, ghost shines: map<Sid, seq<i32>>, ghost todo: set<Guid>)
      returns (r: Result, ghost shines': map<Sid, seq<i32>>)
      requires Valid() && Sees(c) && HandlesLive(c) && Syncing(c, shines, todo, net.log) && g in todo
      modifies net
      ensures Valid() && (r == Continue || r == SendFailed)
      ensures if r == Continue then Syncing(c, shines', todo - {g}, net.log) else SyncedUpTo(c, shines', net.log, r)
      ensures net.reliable ==> r == Continue
    {
      LiveClient(c, g);
      hide Sees, Append, HeapOf, Valid, HandlesLive, Coherent, LegalSync, Synced, SyncAll, Syncing, SyncedUpTo, Add,
        OwnInboxes,
        ShineSends, ShineMsgs, LegalShines, AllSent, Missing, Everyone, ClientData.Value;
      ghost var ids, before := [], net.log;
      r, ids := ClientSyncShines(toClients[g], DEFAULT_GUID, clients[g]);
      shines' := SyncingGoesOn(c, shines, todo, before, g, ids);
    }

    /** `sync_all_shines` */
    method SyncAllShines() returns (r: Result, ghost shines: map<Sid, seq<i32>>)
      requires Valid()
      modifies net
      ensures Valid() && HandlesLive(old(View())) && LegalSync(old(View()), shines)
      ensures View() == SyncAll(old(View()), shines)
      ensures r == if Synced(old(View()), shines) then Continue else SendFailed
      ensures net.reliable ==> r == Continue
    {
      hide *;
      SyncStarts();
      ghost var c := View();
      r, shines := SyncEveryone(c);
      ViewParts(c);
      SyncedView(c, shines, net.log, r);
    }

    method SendOne(comm: Sid, m: Msg) returns (sent: bool)
      requires Valid() && comm in net.log
      modifies net
      ensures Valid() && net.log == if sent then Add(old(net.log), comm, [m]) else old(net.log)
      ensures net.reliable ==> sent
    {
      sent := net.Send(comm, m);
    }

    method CollectShine(id: i32)
      requires Valid()
      modifies this`shineBag
      ensures Valid() && View() == Collect(old(View()), id)
    {
      hide HeapOf, Valid;
      shineBag := shineBag + {id};
    }

    /** A player starts a speedrun: its shines are forgotten, and so is the bag. */
    method StartGame(id: Guid)
      requires Valid() && id in clients
      modifies this`shineBag, cells
      ensures Valid() && HandlesLive(old(View())) && View() == Reset(old(View()), id)
    {
      ViewClient(id);
      hide HeapOf, HandlesLive, OwnInboxes, ClientData.Value, Protocol.StartSpeedrun;
      SetSpeedrun(cells, clients[id]);
      shineBag := {};
    }

    /** A player is synced again, after a while if it was on a speedrun. */
    method EndSpeedrun(id: Guid)
      requires Valid() && id in clients
      modifies this`delayed, cells
      ensures Valid() && HandlesLive(old(View())) && id in old(View()).toClients && View() == Resume(old(View()), id)
    {
      ViewClient(id);
      hide HeapOf, HandlesLive, OwnInboxes, ClientData.Value, Valid;
      var wasSpeedrun := ClearSpeedrun(cells, clients[id]);
      if wasSpeedrun {
        Delay(Delayed(toClients[id], id, clients[id]));
      }
    }

    method Delay(d: Delayed<ClientData>)
      requires Valid() && d.data in cells && d.chan in net.log
      modifies this`delayed
      ensures Valid() && delayed == old(delayed) + [d]
    {
      delayed := delayed + [d];
    }

    lemma ViewClient(id: Guid)
      requires Valid() && id in clients
      ensures HandlesLive(View()) && id in toClients && toClients[id] in net.log
      ensures clients[id] in cells && View().heap[clients[id]] == clients[id].Value()
    {
    }

    /** What is done about a packet before it is passed on. */
    method Prepare(packet: Packet) returns (r: Result, ghost ch: Choice)
      requires Valid() && !packet.data.Shine?
      modifies this`shineBag, this`delayed, net, cells
      ensures Valid() && ch.reached == {} && Prepared(old(View()), packet, ch, Handled(View(), r))
      ensures net.reliable ==> r != SendFailed
    {
      hide *;
      LiveView();
      ghost var c := View();
      ViewTables();
      r, ch := Continue, Choice([], 0, {}, {}, true, map[]);
      if !packet.data.CostumeData? {
        PreparedIs(c, packet, ch);
      }
      match packet.data {
        case CostumeData(_) =>
          ghost var shines;
          r, shines := SyncAllShines();
          ch := ch.(shines := shines);
          PreparedCostume(c, packet, ch, r);
        case Game(_, scenarioNum, stage) =>
          if stage == CAP_STAGE && scenarioNum == 0 {
            if packet.id !in clients {
              r := InvalidID;
            } else {
              StartGame(packet.id);
            }
          } else if stage == WATERFALL_STAGE {
            if packet.id !in clients {
              r := InvalidID;
            } else {
              EndSpeedrun(packet.id);
            }
          }
        case _ =>
      }
    }

    /** The part of `handle_command` that handles a packet from a client. */
    method HandlePacket(from: Sid, packet: Packet) returns (r: Result, ghost ch: Choice)
      requires Valid()
      modifies this`shineBag, this`delayed, this`broadcasts, net, cells
      ensures Valid() && LegalPacket(old(View()), packet, ch)
      ensures Handled(View(), r) == Protocol.HandlePacket(old(View()), from, packet, ch)
      ensures net.reliable ==> r != SendFailed
    {
      hide *;
      LiveView();
      ghost var c := View();
      if packet.data.Shine? {
        CollectShine(packet.data.shineId);
        ghost var shines;
        r, shines := SyncAllShines();
        ch := Choice([], 0, {}, {}, true, shines);
        ShineIs(c, from, packet, ch, r);
        return;
      }
      r, ch := Prepare(packet);
      PreparedStops(c, from, packet, ch, Handled(View(), r));
      if r == Continue {
        ghost var c1, reached := View(), {};
        r, reached := Broadcast(packet, Relayed(from));
        PreparedGoesOn(c, from, packet, ch, c1, reached);
        ch := ch.(reached := reached);
      }
    }

    /** What the program takes for granted of a command: a newcomer brings its own data and its own channel. */
    ghost predicate Accepts(cmd: Command<ClientData>)
      reads this`toClients, this`cells, net
    {
      cmd.NewPlayer? ==>
        && cmd.cli.data in cells && cmd.cli.sid in net.log && cmd.cli.sid !in toClients.Values
        && cmd.connect.data.Connect?
    }

    /** `handle_command` */
    method HandleCommand(cmd: Command<ClientData>) returns (r: Result, ghost ch: Choice)
      requires Valid() && Accepts(cmd)
      modifies this, net, cells
      ensures Valid() && cells == old(cells) && Legal(old(View()), settings, cmd, ch)
      ensures Handled(View(), r) == Handle(old(View()), settings, cmd, ch)
      ensures net.reliable ==> r != SendFailed
    {
      hide Valid, View, LegalPacket, LegalJoin, Protocol.HandlePacket, Join, Leave, Everyone, Unregister;
      ch := Choice([], 0, {}, {}, true, map[]);
      match cmd {
        case PacketCommand(from, packet) => r, ch := HandlePacket(from, packet);
        case NewPlayer(cli, connect) => r, ch := AddClient(cli, connect);
        case DisconnectPlayer(guid) =>
          ghost var undone, bye;
          r, undone, bye := DisconnectPlayer(guid);
          ch := ch.(undone := undone, bye := bye);
        case Shutdown => r := Stop;
      }
    }

    /** A delayed shine sync runs. */
    method RunDelayed(i: nat) returns (r: Result, ghost ids: seq<i32>)
      requires Valid() && i < |delayed|
      modifies this`delayed, net
      ensures Valid() && delayed == old(delayed[..i] + delayed[i + 1..])
      ensures var c, d := old(View()), old(delayed[i]);
              && d.data in c.heap && LegalShines(ids, c.heap[d.data], c.bag) && View() == Fire(c, i, ids)
      ensures r == if AllSent(ids, old(delayed[i].data.Value()), old(shineBag)) then Continue else SendFailed
      ensures net.reliable ==> r == Continue
    {
      DelayedClient(i);
      hide Valid, HeapOf, LegalShines, AllSent, ShineMsgs, ClientData.Value, Append, Add;
      var d := delayed[i];
      RemoveDelayed(i);
      r, ids := ClientSyncShines(d.chan, d.guid, d.data);
      AppendOnly(old(net.log), d.chan, ShineMsgs(d.guid, ids));
      FireIs(old(View()), View(), i, ids);
    }

    method RemoveDelayed(i: nat)
      requires Valid() && i < |delayed|
      modifies this`delayed
      ensures Valid() && delayed == old(delayed[..i] + delayed[i + 1..])
    {
      delayed := delayed[..i] + delayed[i + 1..];
    }

    lemma DelayedClient(i: nat)
      requires Valid() && i < |delayed|
      ensures delayed[i].data in cells && delayed[i].chan in net.log
      ensures View().heap[delayed[i].data] == delayed[i].data.Value()
    {
    }

    /** `shutdown`: goes through the players there were at the start, whatever fails. */
    method Shutdown() returns (ghost order: seq<Guid>, ghost how: seq<Notices>)
      requires Valid()
      modifies this`clients, this`toClients, this`broadcasts, net
      ensures Valid() && NoDuplicates(order) && (forall g :: g in old(toClients) <==> g in order) && |how| == |order|
      ensures View() == Drained(old(View()), order, how)
      ensures net.reliable ==> AllNoticesSent(old(View()), order, how)
      ensures clients == map[] && toClients == map[]
    {
      hide *;
      LiveView();
      ViewTables();
      ghost var c := View();
      var todo := toClients.Keys;
      order, how := [], [];
      DrainStarts(c);
      while todo != {}
        invariant Valid() && |how| == |order| && View() == Drained(c, order, how)
        invariant Draining(c, order, todo) && (net.reliable ==> AllNoticesSent(c, order, how))
      {
        var g :| g in todo;
        ghost var undone, bye;
        var r;
        r, undone, bye := DisconnectPlayer(g);
        DrainGoesOn(c, order, how, g, Notices(undone, bye), todo);
        order, how, todo := order + [g], how + [Notices(undone, bye)], todo - {g};
      }
      DrainEnds(c, order, how);
      ViewTables();
    }

    /** One turn of the loop of `handle_commands`. */
    method HandleNext() returns (r: Result, ghost ch: Choice, ghost order: seq<Guid>, ghost how: seq<Notices>)
      requires Valid() && fromClients != [] && Accepts(fromClients[0])
      modifies this, net, cells
      ensures Valid() && cells == old(cells)
      ensures var c := old(View()).(queue := old(fromClients[1..]));
              && Legal(c, settings, old(fromClients[0]), ch)
              && var h := Handle(c, settings, old(fromClients[0]), ch);
              && r == h.result && |how| == |order|
              && View() == (if r == Stop then Drained(h.core, order, how) else h.core)
              && (r == Stop ==> clients == map[] && toClients == map[])
              && (net.reliable ==> r != SendFailed && (r == Stop ==> AllNoticesSent(h.core, order, how)))
    {
      hide Valid, HeapOf, Legal, Handle, Drained, Accepts;
      var cmd := fromClients[0];
      fromClients := fromClients[1..];
      assert View() == old(View()).(queue := old(fromClients[1..]));
      r, ch := HandleCommand(cmd);
      order, how := [], [];
      if r == Stop {
        order, how := Shutdown();
      }
    }

    lemma ViewTables()
      ensures View().clients == clients && View().toClients == toClients
    {
    }

    lemma LiveClient(c: Core<ClientData>, g: Guid)
      requires Valid() && Sees(c) && g in c.clients
      ensures g in clients && clients[g] in cells && c.heap[clients[g]] == clients[g].Value()
      ensures c.clients[g] == clients[g] && g in toClients && g in c.toClients && c.toClients[g] == toClients[g]
      ensures toClients[g] in net.log && c.bag == shineBag
    {
    }

    lemma SyncStarts()
      requires Valid()
      ensures Sees(View()) && HandlesLive(View()) && Syncing(View(), AllEmpty(View()), clients.Keys, net.log)
    {
      LiveView();
      OwnView();
      hide HeapOf, Valid, HandlesLive, Sees, Syncing, AllEmpty, OwnInboxes, Coherent;
      SyncingStarts(View());
    }

    lemma IntroStarts(comm: Sid, maxPlayers: u16)
      requires Valid() && comm in net.log
      ensures Sees(View()) && HandlesLive(View()) && LegalOrder(View(), [])
      ensures Introducing(View(), comm, maxPlayers, [], clients.Keys, net.log)
    {
      LiveView();
      hide HeapOf, Valid, HandlesLive, Sees, Introducing;
      IntroducingStarts(View(), comm, maxPlayers);
    }

    lemma OwnView()
      requires Valid()
      ensures OwnInboxes(View().toClients)
      ensures forall g :: g in View().toClients ==> View().toClients[g] in View().log
    {
    }

    lemma LiveView()
      requires Valid()
      ensures HandlesLive(View()) && Coherent(View()) && Sees(View())
    {
    }
  }

  lemma AppendNone(log: map<Sid, seq<Msg>>, ms: seq<Msg>)
    ensures Append(log, To({}, ms)) == log
  {
  }

  lemma AppendOnly(log: map<Sid, seq<Msg>>, x: Sid, ms: seq<Msg>)
    requires x in log
    ensures Append(log, To({x}, ms)) == Add(log, x, ms)
  {
  }

  /** The players in `order` have been introduced, those in `todo` have not. */
  ghost predicate Introducing(c: Core<ClientData>, x: Sid, maxPlayers: u16, order: seq<Guid>, todo: set<Guid>,
                              log: map<Sid, seq<Msg>>)
    requires HandlesLive(c) && LegalOrder(c, order)
  {
    && (forall g :: g in c.clients ==> (g in todo <==> g !in order))
    && todo <= c.clients.Keys && x in c.log && log == Add(c.log, x, IntroAll(c, order, maxPlayers))
  }

  /** How far the introductions got. */
  ghost predicate IntroducedUpTo(c: Core<ClientData>, x: Sid, maxPlayers: u16, order: seq<Guid>, cut: nat,
                                 log: map<Sid, seq<Msg>>, r: Result)
    requires HandlesLive(c) && LegalOrder(c, order)
  {
    && cut <= |IntroAll(c, order, maxPlayers)|
    && log == Protocol.Introduce(c, x, maxPlayers, order, cut).log
    && r == if Introduced(c, order) && cut == |IntroAll(c, order, maxPlayers)| then Continue else SendFailed
  }

  lemma IntroducingStarts(c: Core<ClientData>, x: Sid, maxPlayers: u16)
    requires HandlesLive(c) && x in c.log
    ensures LegalOrder(c, []) && Introducing(c, x, maxPlayers, [], c.clients.Keys, c.log)
  {
    AddMore(c.log, x, [], []);
  }

  lemma UpTo(c: Core<ClientData>, x: Sid, maxPlayers: u16, order: seq<Guid>, cut: nat, log: map<Sid, seq<Msg>>,
             r: Result)
    requires HandlesLive(c) && LegalOrder(c, order) && IntroducedUpTo(c, x, maxPlayers, order, cut, log, r)
    ensures cut <= |IntroAll(c, order, maxPlayers)|
    ensures c.(log := log) == Protocol.Introduce(c, x, maxPlayers, order, cut)
    ensures r == if Introduced(c, order) && cut == |IntroAll(c, order, maxPlayers)| then Continue else SendFailed
    ensures Everyone(c.(log := log)) == Everyone(c)
  {
    hide IntroAll, Append;
  }

  lemma SetupIs(c: Core<ClientData>, x: Sid, connect: Packet, maxPlayers: u16, ch: Choice)
    requires HandlesLive(c) && LegalOrder(c, ch.order) && ch.cut <= |IntroAll(c, ch.order, maxPlayers)|
    ensures var c1 := Protocol.Introduce(c, x, maxPlayers, ch.order, ch.cut);
            Setup(c, x, connect, maxPlayers, ch)
            == (if Introduced(c, ch.order) && ch.cut == |IntroAll(c, ch.order, maxPlayers)|
                then Handled(Protocol.Broadcast(c1, connect, Notice, ch.reached), BroadcastResult(c1, ch.reached))
                else Handled(c1, SendFailed))
  {
    hide IntroAll, Append, Protocol.Broadcast, Everyone, BroadcastResult;
  }

  /** The outcome of what is done about a packet before it is passed on. */
  ghost predicate Prepared(c: Core<ClientData>, p: Packet, ch: Choice, h: Handled<ClientData>)
    requires HandlesLive(c) && Coherent(c)
  {
    && !p.data.Shine? && (p.data.CostumeData? ==> LegalSync(c, ch.shines))
    && if p.data.CostumeData? && !Synced(c, ch.shines) then h == Handled(SyncAll(c, ch.shines), SendFailed)
       else if (IsReset(p.data) || IsWaterfall(p.data)) && p.id !in c.clients then h == Handled(c, InvalidID)
       else h == Handled(BeforeBroadcast(c, p, ch), Continue)
  }

  lemma FireIs(c: Core<ClientData>, c': Core<ClientData>, i: nat, ids: seq<i32>)
    requires i < |c.delayed|
    requires c'.log == Append(c.log, To({c.delayed[i].chan}, ShineMsgs(c.delayed[i].guid, ids)))
    requires c'.delayed == c.delayed[..i] + c.delayed[i + 1..]
    requires c' == c.(log := c'.log, delayed := c'.delayed)
    ensures c' == Fire(c, i, ids)
  {
    hide Append;
  }

  lemma ShineIs(c: Core<ClientData>, from: Sid, p: Packet, ch: Choice, r: Result)
    requires HandlesLive(c) && Coherent(c) && p.data.Shine? && ch.reached == {}
    requires HandlesLive(Collect(c, p.data.shineId)) && LegalSync(Collect(c, p.data.shineId), ch.shines)
    requires r == if Synced(Collect(c, p.data.shineId), ch.shines) then Continue else SendFailed
    ensures LegalPacket(c, p, ch)
    ensures Protocol.HandlePacket(c, from, p, ch) == Handled(SyncAll(Collect(c, p.data.shineId), ch.shines), r)
  {
    hide SyncAll, Synced;
  }

  lemma PreparedStops(c: Core<ClientData>, from: Sid, p: Packet, ch: Choice, h: Handled<ClientData>)
    requires HandlesLive(c) && Coherent(c) && Prepared(c, p, ch, h) && ch.reached == {}
    ensures LegalPacket(c, p, ch)
    ensures h.result != Continue ==> Protocol.HandlePacket(c, from, p, ch) == h
  {
    hide SyncAll, Synced, BeforeBroadcast, IsReset, IsWaterfall, LegalShines;
  }

  lemma PreparedGoesOn(c: Core<ClientData>, from: Sid, p: Packet, ch: Choice, c1: Core<ClientData>, reached: set<Sid>)
    requires HandlesLive(c) && Coherent(c) && Prepared(c, p, ch, Handled(c1, Continue)) && reached <= Everyone(c1)
    ensures LegalPacket(c, p, ch.(reached := reached))
    ensures Protocol.HandlePacket(c, from, p, ch.(reached := reached))
         == Handled(Protocol.Broadcast(c1, p, Relayed(from), reached), BroadcastResult(c1, reached))
  {
    hide Synced, IsReset, IsWaterfall, LegalShines, Append, StartSpeedrun, Resize;
  }

  /** The players in `order` have been disconnected, those in `todo` have not. */
  ghost predicate Draining(c: Core<ClientData>, order: seq<Guid>, todo: set<Guid>) {
    && NoDuplicates(order) && (forall g :: g in order ==> g !in todo)
    && forall g :: g in c.toClients <==> g in order || g in todo
  }

  lemma DrainStarts(c: Core<ClientData>)
    ensures Drained(c, [], []) == c && Draining(c, [], c.toClients.Keys) && AllNoticesSent(c, [], [])
  {
  }

  lemma DrainGoesOn(c: Core<ClientData>, order: seq<Guid>, how: seq<Notices>, g: Guid, n: Notices, todo: set<Guid>)
    requires |how| == |order| && Draining(c, order, todo) && g in todo
    ensures Drained(c, order + [g], how + [n]) == Leave(Drained(c, order, how), g, n.undone, n.bye).core
    ensures Draining(c, order + [g], todo - {g})
    ensures AllNoticesSent(c, order, how) && Leave(Drained(c, order, how), g, n.undone, n.bye).result == Continue ==>
              AllNoticesSent(c, order + [g], how + [n])
  {
    hide Leave, AllNoticesSent;
    assert (order + [g])[..|order|] == order && (how + [n])[..|order|] == how;
    if AllNoticesSent(c, order, how) && Leave(Drained(c, order, how), g, n.undone, n.bye).result == Continue {
      NoticeSent(c, order, how, g, n);
    }
  }

  lemma NoticeSent(c: Core<ClientData>, order: seq<Guid>, how: seq<Notices>, g: Guid, n: Notices)
    requires |how| == |order| && AllNoticesSent(c, order, how) && g in c.toClients && g !in order
    requires Leave(Drained(c, order, how), g, n.undone, n.bye).result == Continue
    ensures AllNoticesSent(c, order + [g], how + [n])
  {
    hide Drained, Broadcast;
    DrainedTables(c, order, how);
    var order', how' := order + [g], how + [n];
    assert Gone(order') == Gone(order) + {g};
    assert c.toClients - Gone(order) - {g} == c.toClients - Gone(order');
    forall i | 0 <= i < |order'| ensures how'[i] == Notices((c.toClients - Gone(order'[..i + 1])).Values, true) {
      if i < |order| {
        assert order'[..i + 1] == order[..i + 1];
      } else {
        assert order'[..i + 1] == order';
      }
    }
  }

  lemma DrainEnds(c: Core<ClientData>, order: seq<Guid>, how: seq<Notices>)
    requires |how| == |order| && Coherent(c) && Draining(c, order, {})
    ensures Drained(c, order, how).clients == map[] && Drained(c, order, how).toClients == map[]
    ensures NoDuplicates(order) && forall g :: g in c.toClients <==> g in order
  {
    hide Drained;
    DrainEmpties(c, order, how);
  }

  lemma PreparedCostume(c: Core<ClientData>, p: Packet, ch: Choice, r: Result)
    requires HandlesLive(c) && Coherent(c) && p.data.CostumeData? && LegalSync(c, ch.shines)
    requires r == if Synced(c, ch.shines) then Continue else SendFailed
    ensures Prepared(c, p, ch, Handled(SyncAll(c, ch.shines), r))
  {
    hide SyncAll, Synced;
  }

  lemma PreparedIs(c: Core<ClientData>, p: Packet, ch: Choice)
    requires HandlesLive(c) && Coherent(c) && !p.data.Shine? && !p.data.CostumeData?
    ensures IsReset(p.data) && p.id in c.clients ==> Prepared(c, p, ch, Handled(Reset(c, p.id), Continue))
    ensures IsWaterfall(p.data) && p.id in c.clients ==> Prepared(c, p, ch, Handled(Resume(c, p.id), Continue))
    ensures (IsReset(p.data) || IsWaterfall(p.data)) && p.id !in c.clients ==> Prepared(c, p, ch, Handled(c, InvalidID))
    ensures !IsReset(p.data) && !IsWaterfall(p.data) ==> Prepared(c, p, ch, Handled(c, Continue))
    ensures IsReset(p.data) <==> p.data.Game? && p.data.stage == CAP_STAGE && p.data.scenarioNum == 0
    ensures IsWaterfall(p.data) <==> p.data.Game? && !IsReset(p.data) && p.data.stage == WATERFALL_STAGE
  {
    hide StartSpeedrun, SyncAll, Synced;
  }

  lemma IntroducingFacts(c: Core<ClientData>, x: Sid, maxPlayers: u16, order: seq<Guid>, todo: set<Guid>,
                         log: map<Sid, seq<Msg>>)
    requires HandlesLive(c) && LegalOrder(c, order) && Introducing(c, x, maxPlayers, order, todo, log)
    ensures x in log && todo <= c.clients.Keys
  {
    hide IntroAll;
  }

  lemma IntroducingGoesOn(c: Core<ClientData>, x: Sid, maxPlayers: u16, order: seq<Guid>, todo: set<Guid>,
                          log: map<Sid, seq<Msg>>, g: Guid, sent: nat) returns (cut: nat)
    requires HandlesLive(c) && LegalOrder(c, order) && Introducing(c, x, maxPlayers, order, todo, log)
    requires g in todo && sent <= |IntroOf(g, c.heap[c.clients[g]], maxPlayers)|
    ensures var intro := IntroOf(g, c.heap[c.clients[g]], maxPlayers);
            && LegalOrder(c, order + [g]) && x in log
            && var log' := Add(log, x, intro[..sent]);
            if sent == |intro| then Introducing(c, x, maxPlayers, order + [g], todo - {g}, log')
            else IntroducedUpTo(c, x, maxPlayers, order + [g], cut, log', SendFailed)
  {
    hide IntroOf;
    var all, one := IntroAll(c, order, maxPlayers), IntroOf(g, c.heap[c.clients[g]], maxPlayers);
    cut := |all| + sent;
    assert (order + [g])[..|order|] == order;
    assert IntroAll(c, order + [g], maxPlayers) == all + one;
    assert (all + one)[..cut] == all + one[..sent];
    AddMore(c.log, x, all, one[..sent]);
    if sent == |one| {
      assert one[..sent] == one;
    } else {
      AppendOnly(c.log, x, IntroAll(c, order + [g], maxPlayers)[..cut]);
    }
  }

  lemma IntroducingEnds(c: Core<ClientData>, x: Sid, maxPlayers: u16, order: seq<Guid>, log: map<Sid, seq<Msg>>)
    returns (cut: nat)
    requires HandlesLive(c) && LegalOrder(c, order) && Introducing(c, x, maxPlayers, order, {}, log)
    ensures IntroducedUpTo(c, x, maxPlayers, order, cut, log, Continue)
  {
    hide IntroAll;
    var all := IntroAll(c, order, maxPlayers);
    cut := |all|;
    assert all[..cut] == all;
    AppendOnly(c.log, x, all);
  }

  lemma SendingStarts(log: map<Sid, seq<Msg>>, x: Sid, guid: Guid, d: Profile, bag: set<i32>)
    requires x in log
    ensures LegalShines([], d, bag) && Add(log, x, ShineMsgs(guid, [])) == log && Elements([]) == {}
  {
    AddMore(log, x, [], []);
  }

  lemma NothingMissing(d: Profile, bag: set<i32>)
    requires d.speedrunStart
    ensures AllSent([], d, bag)
  {
  }

  lemma MissingIs(d: Profile, bag: set<i32>)
    requires !d.speedrunStart
    ensures Missing(d, bag) == bag - d.shineSync
  {
  }

  lemma SomeMissing(ids: seq<i32>, id: i32, d: Profile, bag: set<i32>)
    requires id in Missing(d, bag) - Elements(ids)
    ensures !AllSent(ids, d, bag)
  {
    hide Missing;
  }

  lemma NoneMissing(ids: seq<i32>, d: Profile, bag: set<i32>)
    requires Missing(d, bag) - Elements(ids) == {}
    ensures AllSent(ids, d, bag)
  {
    hide Missing;
    forall k | k in Missing(d, bag) ensures k in ids {
      assert k in Missing(d, bag) - Elements(ids) || k in Elements(ids);
    }
  }

  lemma SendingGoesOn(log: map<Sid, seq<Msg>>, x: Sid, guid: Guid, ids: seq<i32>, id: i32, d: Profile, bag: set<i32>)
    requires x in log && LegalShines(ids, d, bag) && id in Missing(d, bag) - Elements(ids)
    ensures LegalShines(ids + [id], d, bag) && Elements(ids + [id]) == Elements(ids) + {id}
    ensures Add(Add(log, x, ShineMsgs(guid, ids)), x, [Msg(ShinePacket(guid, id), Sync)])
         == Add(log, x, ShineMsgs(guid, ids + [id]))
  {
    hide Missing;
    AddMore(log, x, ShineMsgs(guid, ids), [Msg(ShinePacket(guid, id), Sync)]);
    assert ShineMsgs(guid, ids + [id]) == ShineMsgs(guid, ids) + [Msg(ShinePacket(guid, id), Sync)];
  }

  /** The players not in `todo` have been sent all they lack, those in `todo` nothing yet. */
  ghost predicate Syncing(c: Core<ClientData>, shines: map<Sid, seq<i32>>, todo: set<Guid>, log: map<Sid, seq<Msg>>)
    requires HandlesLive(c)
  {
    && Coherent(c) && OwnInboxes(c.toClients) && (forall g :: g in c.toClients ==> c.toClients[g] in c.log)
    && LegalSync(c, shines) && todo <= c.clients.Keys
    && (forall g :: g in c.clients && g !in todo ==> AllSent(shines[c.toClients[g]], c.heap[c.clients[g]], c.bag))
    && (forall g :: g in c.clients && g in todo ==> shines[c.toClients[g]] == [])
    && log == Append(c.log, ShineSends(shines))
  }

  ghost predicate SyncedUpTo(c: Core<ClientData>, shines: map<Sid, seq<i32>>, log: map<Sid, seq<Msg>>, r: Result)
    requires HandlesLive(c)
  {
    && LegalSync(c, shines) && log == Append(c.log, ShineSends(shines))
    && r == if Synced(c, shines) then Continue else SendFailed
  }

  function AllEmpty(c: Core<ClientData>): map<Sid, seq<i32>> {
    map x | x in Everyone(c) :: []
  }

  lemma SyncingStarts(c: Core<ClientData>)
    requires HandlesLive(c) && Coherent(c) && OwnInboxes(c.toClients)
    requires forall g :: g in c.toClients ==> c.toClients[g] in c.log
    ensures Syncing(c, AllEmpty(c), c.clients.Keys, c.log)
  {
    hide Append, ShineSends, Missing, OwnInboxes;
    NoSends(c.log, AllEmpty(c));
    forall g | g in c.clients ensures c.toClients[g] in Everyone(c) {
    }
  }

  lemma NoSends(log: map<Sid, seq<Msg>>, shines: map<Sid, seq<i32>>)
    requires forall x :: x in shines ==> shines[x] == []
    ensures Append(log, ShineSends(shines)) == log
  {
    forall x | x in log && x in shines ensures log[x] + ShineMsgs(DEFAULT_GUID, shines[x]) == log[x] {
    }
  }

  lemma SyncingGoesOn(c: Core<ClientData>, shines: map<Sid, seq<i32>>, todo: set<Guid>, log: map<Sid, seq<Msg>>,
                      g: Guid, ids: seq<i32>) returns (shines': map<Sid, seq<i32>>)
    requires HandlesLive(c) && Syncing(c, shines, todo, log) && g in todo
    requires LegalShines(ids, c.heap[c.clients[g]], c.bag)
    ensures c.toClients[g] in log
    ensures var log' := Add(log, c.toClients[g], ShineMsgs(DEFAULT_GUID, ids));
            if AllSent(ids, c.heap[c.clients[g]], c.bag) then Syncing(c, shines', todo - {g}, log')
            else SyncedUpTo(c, shines', log', SendFailed)
  {
    hide LegalShines, AllSent, Append, ShineSends, ShineMsgs, Missing, LegalSync, Synced;
    var x := c.toClients[g];
    shines' := shines[x := ids];
    SyncedOne(c, shines, g, ids);
    SendsMore(c.log, shines, x, ids);
    if AllSent(ids, c.heap[c.clients[g]], c.bag) {
      assert forall h :: h in c.clients && h != g ==> shines'[c.toClients[h]] == shines[c.toClients[h]];
    } else {
      NotSynced(c, shines', g);
    }
  }

  lemma SyncedOne(c: Core<ClientData>, shines: map<Sid, seq<i32>>, g: Guid, ids: seq<i32>)
    requires HandlesLive(c) && Coherent(c) && OwnInboxes(c.toClients) && LegalSync(c, shines) && g in c.clients
    requires LegalShines(ids, c.heap[c.clients[g]], c.bag)
    ensures LegalSync(c, shines[c.toClients[g] := ids])
    ensures forall h :: h in c.clients ==> c.toClients[h] in shines && (h != g ==> c.toClients[h] != c.toClients[g])
  {
    hide LegalShines;
    var x := c.toClients[g];
    assert x in Everyone(c);
    var shines' := shines[x := ids];
    forall h | h in c.clients ensures c.toClients[h] in shines {
      assert c.toClients[h] in Everyone(c);
    }
    forall h | h in c.clients && h in c.toClients
      ensures c.toClients[h] in shines' && LegalShines(shines'[c.toClients[h]], c.heap[c.clients[h]], c.bag)
    {
      assert c.toClients[h] in Everyone(c);
    }
  }

  lemma NotSynced(c: Core<ClientData>, shines: map<Sid, seq<i32>>, g: Guid)
    requires HandlesLive(c) && Coherent(c) && LegalSync(c, shines) && g in c.clients && c.toClients[g] in shines
    requires !AllSent(shines[c.toClients[g]], c.heap[c.clients[g]], c.bag)
    ensures !Synced(c, shines)
  {
    hide AllSent, LegalShines;
  }

  lemma SendsMore(log: map<Sid, seq<Msg>>, shines: map<Sid, seq<i32>>, x: Sid, ids: seq<i32>)
    requires x in log && x in shines && shines[x] == []
    ensures Add(Append(log, ShineSends(shines)), x, ShineMsgs(DEFAULT_GUID, ids))
         == Append(log, ShineSends(shines[x := ids]))
  {
    assert log[x] + ShineMsgs(DEFAULT_GUID, []) == log[x];
  }

  lemma SyncingEnds(c: Core<ClientData>, shines: map<Sid, seq<i32>>, log: map<Sid, seq<Msg>>)
    requires HandlesLive(c) && Syncing(c, shines, {}, log)
    ensures SyncedUpTo(c, shines, log, Continue)
  {
    hide LegalShines, AllSent, Append, ShineSends, Missing;
  }

  lemma SyncedView(c: Core<ClientData>, shines: map<Sid, seq<i32>>, log: map<Sid, seq<Msg>>, r: Result)
    requires HandlesLive(c) && SyncedUpTo(c, shines, log, r)
    ensures LegalSync(c, shines) && SyncAll(c, shines) == c.(log := log)
    ensures r == if Synced(c, shines) then Continue else SendFailed
  {
    hide Append, ShineSends;
  }

  lemma RegisterIs(c: Core<ClientData>, c': Core<ClientData>, cli: Joiner<ClientData>, cType: ConnectionType,
                   data: ClientData)
    requires data == DataFor(c, cli, cType)
    requires c'.clients == c.clients[cli.guid := data] && c'.toClients == c.toClients[cli.guid := cli.sid]
    requires c'.started == c.started + [cli.(data := data)]
    requires c'.bag == c.bag && c'.heap == c.heap && c'.log == c.log && c'.broadcasts == c.broadcasts
    requires c'.queue == c.queue && c'.delayed == c.delayed
    ensures c' == Register(c, cli, cType)
  {
  }

  lemma JoinRefusedIs(c: Core<ClientData>, settings: Settings, cli: Joiner<ClientData>, connect: Packet, ch: Choice)
    requires HandlesLive(c) && cli.data in c.heap && connect.data.Connect?
    requires Protocol.Admission(c, settings, cli).Some?
    ensures LegalJoin(c, settings, cli, connect, ch)
    ensures Join(c, settings, cli, connect, ch)
         == Handled(c.(queue := c.queue + [Command.DisconnectPlayer(cli.guid)]),
                    Refused(Protocol.Admission(c, settings, cli).value))
  {
  }

  lemma JoinIs(c: Core<ClientData>, settings: Settings, cli: Joiner<ClientData>, connect: Packet, ch: Choice)
    requires HandlesLive(c) && cli.data in c.heap && connect.data.Connect?
    requires Protocol.Admission(c, settings, cli) == None
    requires var c1 := Register(c, cli, connect.data.cType);
             && HandlesLive(c1) && LegalOrder(c1, ch.order) && ch.cut <= |IntroAll(c1, ch.order, settings.maxPlayers)|
             && ch.reached <= Everyone(c1) && ch.undone <= Everyone(Unregister(c1, cli.guid))
    ensures LegalJoin(c, settings, cli, connect, ch)
    ensures var setup := Setup(Register(c, cli, connect.data.cType), cli.sid, connect, settings.maxPlayers, ch);
            Join(c, settings, cli, connect, ch)
            == (if setup.result == Continue then setup
                else Handled(Leave(setup.core, cli.guid, ch.undone, ch.bye).core, SendFailed))
  {
    hide IntroAll, Leave, Setup;
  }

  lemma SetupKeeps(c: Core<ClientData>, cli: Joiner<ClientData>, connect: Packet, maxPlayers: u16, ch: Choice)
    requires HandlesLive(c) && LegalOrder(c, ch.order) && ch.cut <= |IntroAll(c, ch.order, maxPlayers)|
    ensures Everyone(Unregister(Setup(c, cli.sid, connect, maxPlayers, ch).core, cli.guid)) == Everyone(Unregister(c, cli.guid))
    ensures forall undone, bye :: Setup(c, cli.sid, connect, maxPlayers, ch.(undone := undone, bye := bye))
                               == Setup(c, cli.sid, connect, maxPlayers, ch)
  {
    hide Append, IntroAll, To, Resize;
  }

  lemma AppendOne(log: map<Sid, seq<Msg>>, reached: set<Sid>, x: Sid, ms: seq<Msg>)
    requires x in log && x !in reached
    ensures var log1 := Append(log, To(reached, ms));
            Append(log, To(reached + {x}, ms)) == log1[x := log1[x] + ms]
  {
  }
}
