/** Every session receives the broadcasts in the one order in which the coordinator made them. */
module TotalOrder {
  import opened Utf8
  import opened Wire
  import opened Packets
  import opened Protocol
  import opened ClientTask
  import opened Sequences
  import opened System
  import opened Structure
  import opened Membership

  /** The messages of a log that were broadcast, leaving out introductions and shine syncs. */
  function IsPublic(): Msg -> bool {
    (m: Msg) => m.kind.Relayed? || m.kind.Notice?
  }

  function Public(ms: seq<Msg>): seq<Msg> {
    Filter(IsPublic(), ms)
  }

  /** How many broadcasts there had been when each known session joined. */
  function JoinedAt(sessions: map<Sid, Session>): map<Sid, nat> {
    map x | x in sessions && sessions[x].phase != Waiting :: sessions[x].joinedAt
  }

  /** What a session was sent, given the broadcasts since it joined. */
  ghost predicate InOrder(log: seq<Msg>, since: seq<Msg>) {
    Subseq(Public(log), since)
  }

  ghost predicate OrderAt(c: Core<Sid>, x: Sid, at: nat) {
    at <= |c.broadcasts| && x in c.log && InOrder(c.log[x], c.broadcasts[at..])
  }

  ghost predicate Ordered(c: Core<Sid>, at: map<Sid, nat>) {
    forall x :: x in at ==> OrderAt(c, x, at[x])
  }

  /** A session has a prefix of the broadcasts since it joined, and all of them while it is registered. */
  ghost predicate CompleteAt(c: Core<Sid>, x: Sid, at: nat) {
    && at <= |c.broadcasts| && x in c.log && Public(c.log[x]) <= c.broadcasts[at..]
    && (x in Everyone(c) ==> |Public(c.log[x])| == |c.broadcasts| - at)
  }

  /** So it is with every session that no broadcast has missed. */
  ghost predicate Complete(c: Core<Sid>, at: map<Sid, nat>, missed: set<Sid>) {
    forall x :: x in at && x !in missed ==> CompleteAt(c, x, at[x])
  }

  /** A session has not been sent all broadcasts since it joined. */
  ghost predicate LacksAt(c: Core<Sid>, x: Sid, at: nat) {
    at <= |c.broadcasts| && x in c.log && |Public(c.log[x])| < |c.broadcasts| - at
  }

  /** So it is with every session that a broadcast has missed. */
  ghost predicate Lacking(c: Core<Sid>, at: map<Sid, nat>, missed: set<Sid>) {
    forall x :: x in at && x in missed ==> LacksAt(c, x, at[x])
  }

  lemma PublicAppend(ms: seq<Msg>, m: Msg)
    ensures Public(ms + [m]) == Public(ms) + if IsPublic()(m) then [m] else []
  {
    FilterSnoc(IsPublic(), ms, m);
  }

  lemma PublicPrivate(ms: seq<Msg>, more: seq<Msg>)
    requires forall i :: 0 <= i < |more| ==> !IsPublic()(more[i])
    ensures Public(ms + more) == Public(ms)
  {
    FilterConcat(IsPublic(), ms, more);
    FilterNone(IsPublic(), more);
  }

  // ---- broadcasts ----

  lemma BroadcastOrder(c: Core<Sid>, p: Packet, kind: Kind, reached: set<Sid>, x: Sid, at: nat)
    requires OrderAt(c, x, at) && (kind.Relayed? || kind.Notice?)
    ensures OrderAt(Broadcast(c, p, kind, reached), x, at)
  {
    hide Public, Resize;
    var m, since := Msg(Resize(p), kind), c.broadcasts[at..];
    var c' := Broadcast(c, p, kind, reached);
    assert c'.broadcasts[at..] == since + [m];
    PublicAppend(c.log[x], m);
    SubseqSnoc(Public(c.log[x]), since, m);
  }

  lemma BroadcastComplete(c: Core<Sid>, p: Packet, kind: Kind, reached: set<Sid>, x: Sid, at: nat)
    requires CompleteAt(c, x, at) && (kind.Relayed? || kind.Notice?)
    requires reached <= Everyone(c) && x !in Everyone(c) - reached
    ensures CompleteAt(Broadcast(c, p, kind, reached), x, at)
  {
    hide Public, Resize;
    var m, since := Msg(Resize(p), kind), c.broadcasts[at..];
    var c' := Broadcast(c, p, kind, reached);
    assert c'.broadcasts[at..] == since + [m];
    PublicAppend(c.log[x], m);
    assert Public(c.log[x]) <= since + [m];
    if x in reached {
      assert Public(c.log[x]) == since;
    }
  }

  lemma BroadcastLacks(c: Core<Sid>, p: Packet, kind: Kind, reached: set<Sid>, x: Sid, at: nat)
    requires OrderAt(c, x, at) && (kind.Relayed? || kind.Notice?)
    requires LacksAt(c, x, at) || x !in reached
    ensures LacksAt(Broadcast(c, p, kind, reached), x, at)
  {
    hide Public, Resize, Subseq;
    PublicAppend(c.log[x], Msg(Resize(p), kind));
    SubseqLength(Public(c.log[x]), c.broadcasts[at..]);
  }

  /** Messages that are not broadcast do not show. */
  ghost predicate PrivateGrowth(log: map<Sid, seq<Msg>>, log': map<Sid, seq<Msg>>) {
    log'.Keys == log.Keys && forall x :: x in log ==> Public(log'[x]) == Public(log[x])
  }

  lemma AppendPrivate(log: map<Sid, seq<Msg>>, add: map<Sid, seq<Msg>>)
    requires forall x :: x in add ==> forall i :: 0 <= i < |add[x]| ==> !IsPublic()(add[x][i])
    ensures PrivateGrowth(log, Append(log, add))
  {
    hide Public;
    forall x | x in log ensures Public(Append(log, add)[x]) == Public(log[x]) {
      if x in add {
        PublicPrivate(log[x], add[x]);
      }
    }
  }

  lemma PrivateKeeps(c: Core<Sid>, c': Core<Sid>, at: map<Sid, nat>)
    requires PrivateGrowth(c.log, c'.log) && c'.broadcasts == c.broadcasts && Ordered(c, at)
    ensures Ordered(c', at)
  {
    hide Public;
    forall x | x in at ensures OrderAt(c', x, at[x]) {
      assert OrderAt(c, x, at[x]);
    }
  }

  lemma PrivateComplete(c: Core<Sid>, c': Core<Sid>, x: Sid, at: nat)
    requires PrivateGrowth(c.log, c'.log) && c'.broadcasts == c.broadcasts && c'.toClients == c.toClients
    requires CompleteAt(c, x, at)
    ensures CompleteAt(c', x, at)
  {
    hide Public;
  }

  lemma PrivateLacks(c: Core<Sid>, c': Core<Sid>, x: Sid, at: nat)
    requires PrivateGrowth(c.log, c'.log) && c'.broadcasts == c.broadcasts && LacksAt(c, x, at)
    ensures LacksAt(c', x, at)
  {
    hide Public;
  }

  lemma BroadcastOrdered(c: Core<Sid>, p: Packet, kind: Kind, reached: set<Sid>, at: map<Sid, nat>)
    requires Ordered(c, at) && (kind.Relayed? || kind.Notice?)
    ensures Ordered(Broadcast(c, p, kind, reached), at)
  {
    hide Broadcast, OrderAt;
    forall x | x in at ensures OrderAt(Broadcast(c, p, kind, reached), x, at[x]) {
      BroadcastOrder(c, p, kind, reached, x, at[x]);
    }
  }

  // ---- leaving ----

  lemma UnregisterOrder(c: Core<Sid>, g: Guid, at: map<Sid, nat>)
    requires Ordered(c, at)
    ensures Ordered(Unregister(c, g), at)
  {
    hide Public, InOrder;
    forall x | x in at ensures OrderAt(Unregister(c, g), x, at[x]) {
      assert OrderAt(c, x, at[x]);
    }
  }

  lemma UnregisterComplete(c: Core<Sid>, g: Guid, x: Sid, at: nat)
    requires CompleteAt(c, x, at)
    ensures CompleteAt(Unregister(c, g), x, at)
  {
    hide Public;
    if x in Everyone(Unregister(c, g)) {
      var h :| h in Unregister(c, g).toClients && Unregister(c, g).toClients[h] == x;
      assert h in c.toClients && c.toClients[h] == x;
    }
  }

  /** The departure notice itself goes to the leaver last, so its log ends in the same order as everyone's. */
  lemma LeaveOrder(c: Core<Sid>, g: Guid, undone: set<Sid>, bye: bool, who: map<Sid, Guid>, at: map<Sid, nat>)
    requires TablesWf(c.clients, c.toClients, c.delayed, who) && at.Keys == who.Keys
    requires Ordered(c, at) && undone <= Everyone(Unregister(c, g))
    ensures Ordered(Leave(c, g, undone, bye).core, at)
  {
    UnregisterOrder(c, g, at);
    if g in c.toClients {
      hide InOrder, Public, Broadcast, Ordered, OrderAt;
      var c1 := Unregister(c, g);
      BroadcastOrdered(c1, DisconnectPacket(g), Notice, undone, at);
      if undone == Everyone(c1) && bye {
        LeaverOrder(c, g, who, at);
      }
    }
  }

  lemma LeaverNotReached(c: Core<Sid>, g: Guid, who: map<Sid, Guid>)
    requires TablesWf(c.clients, c.toClients, c.delayed, who) && g in c.toClients
    ensures c.toClients[g] !in Everyone(Unregister(c, g)) && c.toClients[g] in who
  {
    assert g in c.clients;
    forall x | x in Unregister(c, g).toClients ensures c.toClients[x] != c.toClients[g] {
      OtherSid(c, g, x, who);
    }
  }

  /** One more message for one session. */
  function WithBye(c: Core<Sid>, x: Sid, m: Msg): Core<Sid> {
    c.(log := Append(c.log, To({x}, [m])))
  }

  lemma LeaveSteps(c: Core<Sid>, g: Guid)
    requires g in c.toClients
    ensures var c1 := Unregister(c, g);
            Leave(c, g, Everyone(c1), true).core
              == WithBye(Broadcast(c1, DisconnectPacket(g), Notice, Everyone(c1)), c.toClients[g],
                         Msg(DisconnectPacket(g), Notice))
  {
    hide Broadcast, Append, To;
  }

  /** For a session that a broadcast does not reach, getting the message by itself comes to the same. */
  lemma ByeOrder(c: Core<Sid>, p: Packet, x0: Sid, at: map<Sid, nat>)
    requires Ordered(c, at) && x0 in at && x0 !in Everyone(c) && Resize(p) == p
    ensures Ordered(WithBye(Broadcast(c, p, Notice, Everyone(c)), x0, Msg(p, Notice)), at)
  {
    hide Public, InOrder, Resize;
    var m, c2 := Msg(p, Notice), Broadcast(c, p, Notice, Everyone(c));
    var c' := WithBye(c2, x0, m);
    BroadcastOrdered(c, p, Notice, Everyone(c), at);
    forall x | x in at ensures OrderAt(c', x, at[x]) {
      assert OrderAt(c2, x, at[x]) && OrderAt(c, x, at[x]);
      if x == x0 {
        LastNotice(c, m, x, at[x]);
      }
    }
  }

  lemma LeaverOrder(c: Core<Sid>, g: Guid, who: map<Sid, Guid>, at: map<Sid, nat>)
    requires TablesWf(c.clients, c.toClients, c.delayed, who) && at.Keys == who.Keys
    requires Ordered(c, at) && g in c.toClients
    ensures Ordered(Leave(c, g, Everyone(Unregister(c, g)), true).core, at)
  {
    hide TablesWf, Ordered, Leave, Resize, WithBye, Broadcast;
    LeaverNotReached(c, g, who);
    UnregisterOrder(c, g, at);
    LeaveSteps(c, g);
    NoticeIsResized(g);
    ByeOrder(Unregister(c, g), DisconnectPacket(g), c.toClients[g], at);
  }

  lemma NoticeIsResized(g: Guid)
    ensures Resize(DisconnectPacket(g)) == DisconnectPacket(g)
  {
  }

  /** A message appended to a log and to the broadcasts keeps the log in order. */
  lemma LastNotice(c: Core<Sid>, m: Msg, x: Sid, at: nat)
    requires OrderAt(c, x, at) && m.kind.Notice?
    ensures InOrder(c.log[x] + [m], (c.broadcasts + [m])[at..])
  {
    hide Public;
    assert (c.broadcasts + [m])[at..] == c.broadcasts[at..] + [m];
    PublicAppend(c.log[x], m);
    SubseqSnoc(Public(c.log[x]), c.broadcasts[at..], m);
  }

  /** Whoever was to be told of a departure and was, misses nothing; nor does the leaver, whether or not it still hears
      of its own departure. */
  lemma LeaveComplete(c: Core<Sid>, g: Guid, undone: set<Sid>, bye: bool, who: map<Sid, Guid>, x: Sid, at: nat)
    requires TablesWf(c.clients, c.toClients, c.delayed, who) && CompleteAt(c, x, at)
    requires undone <= Everyone(Unregister(c, g)) && x !in LeaveMissed(c, g, undone)
    ensures CompleteAt(Leave(c, g, undone, bye).core, x, at)
  {
    hide TablesWf, Resize, WithBye, Broadcast, Unregister, CompleteAt, Public, Everyone;
    UnregisterComplete(c, g, x, at);
    if g in c.toClients {
      var c1 := Unregister(c, g);
      BroadcastComplete(c1, DisconnectPacket(g), Notice, undone, x, at);
      if undone == Everyone(c1) && bye {
        LeaverNotReached(c, g, who);
        LeaveSteps(c, g);
        ByeComplete(c, g, x, at);
      }
    }
  }

  lemma LeaveLacks(c: Core<Sid>, g: Guid, undone: set<Sid>, bye: bool, who: map<Sid, Guid>, x: Sid, at: nat)
    requires TablesWf(c.clients, c.toClients, c.delayed, who) && OrderAt(c, x, at)
    requires undone <= Everyone(Unregister(c, g)) && (LacksAt(c, x, at) || x in LeaveMissed(c, g, undone))
    ensures LacksAt(Leave(c, g, undone, bye).core, x, at)
  {
    hide TablesWf, Resize, WithBye, Broadcast, InOrder, Public, Everyone;
    if g in c.toClients {
      var c1 := Unregister(c, g);
      BroadcastLacks(c1, DisconnectPacket(g), Notice, undone, x, at);
      if undone == Everyone(c1) && bye {
        LeaverNotReached(c, g, who);
        LeaveSteps(c, g);
        ByeLacks(c, g, x, at);
      }
    }
  }

  lemma ByeLacks(c: Core<Sid>, g: Guid, x: Sid, at: nat)
    requires g in c.toClients && LacksAt(c, x, at) && c.toClients[g] !in Everyone(Unregister(c, g))
    requires var c1 := Unregister(c, g);
             LacksAt(Broadcast(c1, DisconnectPacket(g), Notice, Everyone(c1)), x, at)
    ensures var c1 := Unregister(c, g);
            LacksAt(WithBye(Broadcast(c1, DisconnectPacket(g), Notice, Everyone(c1)), c.toClients[g],
                            Msg(DisconnectPacket(g), Notice)), x, at)
  {
    hide Public, Resize;
    if x == c.toClients[g] {
      PublicAppend(c.log[x], Msg(DisconnectPacket(g), Notice));
    }
  }

  lemma ByeComplete(c: Core<Sid>, g: Guid, x: Sid, at: nat)
    requires g in c.toClients && CompleteAt(c, x, at) && c.toClients[g] !in Everyone(Unregister(c, g))
    requires var c1 := Unregister(c, g);
             CompleteAt(Broadcast(c1, DisconnectPacket(g), Notice, Everyone(c1)), x, at)
    ensures var c1 := Unregister(c, g);
            CompleteAt(WithBye(Broadcast(c1, DisconnectPacket(g), Notice, Everyone(c1)), c.toClients[g],
                               Msg(DisconnectPacket(g), Notice)), x, at)
  {
    hide Public, Resize;
    if x == c.toClients[g] {
      var m := Msg(DisconnectPacket(g), Notice);
      NoticeIsResized(g);
      PublicAppend(c.log[x], m);
      assert Public(c.log[x]) == c.broadcasts[at..];
      assert (c.broadcasts + [m])[at..] == c.broadcasts[at..] + [m];
    }
  }

  // ---- joining ----

  lemma RegisterOrder(c: Core<Sid>, cli: Joiner<Sid>, cType: ConnectionType, at: map<Sid, nat>)
    requires cli.sid in c.log && c.log[cli.sid] == [] && cli.sid !in at && Ordered(c, at)
    ensures Ordered(Register(c, cli, cType), at[cli.sid := |c.broadcasts|])
  {
    hide DataFor;
    var c', at' := Register(c, cli, cType), at[cli.sid := |c.broadcasts|];
    forall x | x in at' ensures OrderAt(c', x, at'[x]) {
      if x != cli.sid {
        assert OrderAt(c, x, at[x]);
      }
    }
  }

  lemma RegisterComplete(c: Core<Sid>, cli: Joiner<Sid>, cType: ConnectionType, x: Sid, at: nat)
    requires if x == cli.sid then x in c.log && c.log[x] == [] && at == |c.broadcasts| else CompleteAt(c, x, at)
    ensures CompleteAt(Register(c, cli, cType), x, at)
  {
    hide DataFor;
    var c' := Register(c, cli, cType);
    if x != cli.sid && x in Everyone(c') {
      var h :| h in c'.toClients && c'.toClients[h] == x;
      assert h in c.toClients && c.toClients[h] == x;
    }
  }

  lemma IntroducePrivate(c: Core<Sid>, sid: Sid, maxPlayers: u16, order: seq<Guid>, cut: nat)
    requires HandlesLive(c) && LegalOrder(c, order) && cut <= |IntroAll(c, order, maxPlayers)|
    ensures PrivateGrowth(c.log, Introduce(c, sid, maxPlayers, order, cut).log)
  {
    IntrosAreIntros(c, order, maxPlayers);
    hide IntroAll, PrivateGrowth;
    AppendPrivate(c.log, To({sid}, IntroAll(c, order, maxPlayers)[..cut]));
  }

  lemma IntroduceFrame(c: Core<Sid>, sid: Sid, maxPlayers: u16, order: seq<Guid>, cut: nat)
    requires HandlesLive(c) && LegalOrder(c, order) && cut <= |IntroAll(c, order, maxPlayers)|
    ensures var c' := Introduce(c, sid, maxPlayers, order, cut); c' == c.(log := c'.log)
  {
  }

  lemma {:induction false} IntrosAreIntros(c: Core<Sid>, order: seq<Guid>, maxPlayers: u16)
    requires HandlesLive(c) && forall i :: 0 <= i < |order| ==> order[i] in c.clients
    ensures forall i :: 0 <= i < |IntroAll(c, order, maxPlayers)| ==> IntroAll(c, order, maxPlayers)[i].kind == Intro
  {
    if order != [] {
      IntrosAreIntros(c, order[..|order| - 1], maxPlayers);
    }
  }

  lemma SetupOrder(c: Core<Sid>, sid: Sid, connect: Packet, maxPlayers: u16, ch: Choice, at: map<Sid, nat>)
    requires HandlesLive(c) && LegalOrder(c, ch.order) && ch.cut <= |IntroAll(c, ch.order, maxPlayers)|
    requires Ordered(c, at)
    ensures Ordered(Setup(c, sid, connect, maxPlayers, ch).core, at)
  {
    hide IntroAll, Ordered, Introduce, Broadcast, Introduced, PrivateGrowth, LegalOrder, HandlesLive;
    var c1 := Introduce(c, sid, maxPlayers, ch.order, ch.cut);
    IntroducePrivate(c, sid, maxPlayers, ch.order, ch.cut);
    IntroduceFrame(c, sid, maxPlayers, ch.order, ch.cut);
    PrivateKeeps(c, c1, at);
    BroadcastOrdered(c1, connect, Notice, ch.reached, at);
  }

  lemma SetupComplete(c: Core<Sid>, sid: Sid, connect: Packet, maxPlayers: u16, ch: Choice, x: Sid, at: nat)
    requires HandlesLive(c) && LegalOrder(c, ch.order) && ch.cut <= |IntroAll(c, ch.order, maxPlayers)|
    requires CompleteAt(c, x, at) && ch.reached <= Everyone(c)
    requires AllIntroduced(c, maxPlayers, ch) ==> x !in Everyone(c) - ch.reached
    ensures CompleteAt(Setup(c, sid, connect, maxPlayers, ch).core, x, at)
  {
    hide IntroAll, CompleteAt, Introduce, Broadcast, AllIntroduced, PrivateGrowth, LegalOrder, HandlesLive;
    var c1 := Introduce(c, sid, maxPlayers, ch.order, ch.cut);
    IntroducePrivate(c, sid, maxPlayers, ch.order, ch.cut);
    IntroduceFrame(c, sid, maxPlayers, ch.order, ch.cut);
    PrivateComplete(c, c1, x, at);
    if AllIntroduced(c, maxPlayers, ch) {
      BroadcastComplete(c1, connect, Notice, ch.reached, x, at);
    }
  }

  lemma SetupLacks(c: Core<Sid>, sid: Sid, connect: Packet, maxPlayers: u16, ch: Choice, x: Sid, at: nat)
    requires HandlesLive(c) && LegalOrder(c, ch.order) && ch.cut <= |IntroAll(c, ch.order, maxPlayers)|
    requires OrderAt(c, x, at)
    requires LacksAt(c, x, at) || (AllIntroduced(c, maxPlayers, ch) && x in Everyone(c) - ch.reached)
    ensures LacksAt(Setup(c, sid, connect, maxPlayers, ch).core, x, at)
  {
    hide IntroAll, LacksAt, Introduce, Broadcast, AllIntroduced, PrivateGrowth, LegalOrder, HandlesLive, OrderAt;
    var c1 := Introduce(c, sid, maxPlayers, ch.order, ch.cut);
    IntroducePrivate(c, sid, maxPlayers, ch.order, ch.cut);
    IntroduceFrame(c, sid, maxPlayers, ch.order, ch.cut);
    if LacksAt(c, x, at) {
      PrivateLacks(c, c1, x, at);
    }
    if AllIntroduced(c, maxPlayers, ch) {
      PrivateOrderAt(c, c1, x, at);
      BroadcastLacks(c1, connect, Notice, ch.reached, x, at);
    }
  }

  lemma PrivateOrderAt(c: Core<Sid>, c': Core<Sid>, x: Sid, at: nat)
    requires PrivateGrowth(c.log, c'.log) && c'.broadcasts == c.broadcasts && OrderAt(c, x, at)
    ensures OrderAt(c', x, at)
  {
    hide Public, Subseq;
  }

  lemma JoinOrder(c: Core<Sid>, settings: Settings, cli: Joiner<Sid>, connect: Packet, ch: Choice,
                  who: map<Sid, Guid>, at: map<Sid, nat>)
    requires TablesWf(c.clients, c.toClients, c.delayed, who) && at.Keys == who.Keys && Ordered(c, at)
    requires cli.sid !in who && cli.data == cli.sid && cli.sid in c.log && c.log[cli.sid] == []
    requires LegalJoin(c, settings, cli, connect, ch) && Admission(c, settings, cli) == None
    ensures Ordered(Join(c, settings, cli, connect, ch).core, at[cli.sid := |c.broadcasts|])
  {
    hide IntroAll, Setup, Leave, Ordered, TablesWf, Register;
    var c1, who', at' := Register(c, cli, connect.data.cType), who[cli.sid := cli.guid], at[cli.sid := |c.broadcasts|];
    RegisterTables(c, cli, connect.data.cType, who);
    RegisterOrder(c, cli, connect.data.cType, at);
    SetupFrame(c1, cli.sid, connect, settings.maxPlayers, ch);
    SetupOrder(c1, cli.sid, connect, settings.maxPlayers, ch, at');
    var setup := Setup(c1, cli.sid, connect, settings.maxPlayers, ch);
    if setup.result != Continue {
      LeaveOrder(setup.core, cli.guid, ch.undone, ch.bye, who', at');
    }
  }

  lemma JoinComplete(c: Core<Sid>, settings: Settings, cli: Joiner<Sid>, connect: Packet, ch: Choice,
                     who: map<Sid, Guid>, x: Sid, at: nat)
    requires TablesWf(c.clients, c.toClients, c.delayed, who) && cli.sid !in who && cli.data == cli.sid
    requires if x == cli.sid then x in c.log && c.log[x] == [] && at == |c.broadcasts| else CompleteAt(c, x, at)
    requires LegalJoin(c, settings, cli, connect, ch) && Admission(c, settings, cli) == None
    requires x !in JoinMissed(c, settings, cli, connect, ch)
    ensures CompleteAt(Join(c, settings, cli, connect, ch).core, x, at)
  {
    hide IntroAll, Setup, Leave, CompleteAt, TablesWf, Register, AllIntroduced, LeaveMissed;
    var c1 := Register(c, cli, connect.data.cType);
    RegisterTables(c, cli, connect.data.cType, who);
    RegisterComplete(c, cli, connect.data.cType, x, at);
    SetupFrame(c1, cli.sid, connect, settings.maxPlayers, ch);
    SetupComplete(c1, cli.sid, connect, settings.maxPlayers, ch, x, at);
    var setup := Setup(c1, cli.sid, connect, settings.maxPlayers, ch);
    if setup.result != Continue {
      LeaveComplete(setup.core, cli.guid, ch.undone, ch.bye, who[cli.sid := cli.guid], x, at);
    }
  }

  lemma JoinLacks(c: Core<Sid>, settings: Settings, cli: Joiner<Sid>, connect: Packet, ch: Choice,
                  who: map<Sid, Guid>, x: Sid, at: nat)
    requires TablesWf(c.clients, c.toClients, c.delayed, who) && cli.sid !in who && cli.data == cli.sid
    requires OrderAt(c, x, at)
    requires LegalJoin(c, settings, cli, connect, ch) && Admission(c, settings, cli) == None
    requires LacksAt(c, x, at) || x in JoinMissed(c, settings, cli, connect, ch)
    ensures LacksAt(Join(c, settings, cli, connect, ch).core, x, at)
  {
    hide IntroAll, Setup, Leave, LacksAt, TablesWf, Register, AllIntroduced, LeaveMissed, OrderAt, Ordered;
    var c1 := Register(c, cli, connect.data.cType);
    RegisterTables(c, cli, connect.data.cType, who);
    RegisterKeepsLog(c, cli, connect.data.cType, x, at);
    SetupFrame(c1, cli.sid, connect, settings.maxPlayers, ch);
    OneOrdered(c1, x, at);
    SetupOrder(c1, cli.sid, connect, settings.maxPlayers, ch, map[x := at]);
    var setup := Setup(c1, cli.sid, connect, settings.maxPlayers, ch);
    OneOrdered(setup.core, x, at);
    if LacksAt(c1, x, at) || (AllIntroduced(c1, settings.maxPlayers, ch) && x in Everyone(c1) - ch.reached) {
      SetupLacks(c1, cli.sid, connect, settings.maxPlayers, ch, x, at);
    }
    if setup.result != Continue {
      LeaveLacks(setup.core, cli.guid, ch.undone, ch.bye, who[cli.sid := cli.guid], x, at);
    }
  }

  lemma OneOrdered(c: Core<Sid>, x: Sid, at: nat)
    ensures OrderAt(c, x, at) <==> Ordered(c, map[x := at])
  {
    hide OrderAt;
    assert x in map[x := at];
  }

  lemma RegisterKeepsLog(c: Core<Sid>, cli: Joiner<Sid>, cType: ConnectionType, x: Sid, at: nat)
    requires OrderAt(c, x, at)
    ensures OrderAt(Register(c, cli, cType), x, at)
    ensures LacksAt(Register(c, cli, cType), x, at) <==> LacksAt(c, x, at)
  {
    hide Public, InOrder, DataFor;
  }

  // ---- packets ----

  lemma SyncPrivate(log: map<Sid, seq<Msg>>, shines: map<Sid, seq<i32>>)
    ensures PrivateGrowth(log, Append(log, ShineSends(shines)))
  {
    hide PrivateGrowth;
    AppendPrivate(log, ShineSends(shines));
  }

  lemma BeforePrivate(c: Core<Sid>, p: Packet, ch: Choice)
    requires HandlesLive(c) && Coherent(c)
    requires IsReset(p.data) || IsWaterfall(p.data) ==> p.id in c.clients
    ensures PrivateGrowth(c.log, BeforeBroadcast(c, p, ch).log)
  {
    hide Append, ShineSends, IsReset, IsWaterfall, StartSpeedrun, Public;
    SyncPrivate(c.log, ch.shines);
  }

  lemma PacketOrder(c: Core<Sid>, from: Sid, p: Packet, ch: Choice, at: map<Sid, nat>)
    requires LegalPacket(c, p, ch) && Ordered(c, at)
    ensures Ordered(HandlePacket(c, from, p, ch).core, at)
  {
    hide LegalShines, Synced, Broadcast, BeforeBroadcast, IsReset, IsWaterfall, Ordered, Append, ShineSends,
      PrivateGrowth;
    SyncPrivate(c.log, ch.shines);
    if p.data.Shine? {
      PrivateKeeps(c, SyncAll(Collect(c, p.data.shineId), ch.shines), at);
    } else if p.data.CostumeData? && !Synced(c, ch.shines) {
      PrivateKeeps(c, SyncAll(c, ch.shines), at);
    } else if !((IsReset(p.data) || IsWaterfall(p.data)) && p.id !in c.clients) {
      BeforePrivate(c, p, ch);
      BeforeFrame(c, p, ch);
      PrivateKeeps(c, BeforeBroadcast(c, p, ch), at);
      BroadcastOrdered(BeforeBroadcast(c, p, ch), p, Relayed(from), ch.reached, at);
    }
  }

  lemma PacketComplete(c: Core<Sid>, from: Sid, p: Packet, ch: Choice, x: Sid, at: nat)
    requires LegalPacket(c, p, ch) && CompleteAt(c, x, at)
    requires PassedOn(c, p, ch) ==> x !in Everyone(c) - ch.reached
    ensures CompleteAt(HandlePacket(c, from, p, ch).core, x, at)
  {
    hide LegalShines, Synced, Broadcast, BeforeBroadcast, IsReset, IsWaterfall, CompleteAt, Append, ShineSends,
      PrivateGrowth;
    SyncPrivate(c.log, ch.shines);
    if p.data.Shine? {
      PrivateComplete(c, SyncAll(Collect(c, p.data.shineId), ch.shines), x, at);
    } else if p.data.CostumeData? && !Synced(c, ch.shines) {
      PrivateComplete(c, SyncAll(c, ch.shines), x, at);
    } else if PassedOn(c, p, ch) {
      BeforePrivate(c, p, ch);
      BeforeFrame(c, p, ch);
      PrivateComplete(c, BeforeBroadcast(c, p, ch), x, at);
      BroadcastComplete(BeforeBroadcast(c, p, ch), p, Relayed(from), ch.reached, x, at);
    }
  }

  lemma PacketLacks(c: Core<Sid>, from: Sid, p: Packet, ch: Choice, x: Sid, at: nat)
    requires LegalPacket(c, p, ch) && OrderAt(c, x, at)
    requires LacksAt(c, x, at) || (PassedOn(c, p, ch) && x in Everyone(c) - ch.reached)
    ensures LacksAt(HandlePacket(c, from, p, ch).core, x, at)
  {
    hide LegalShines, Synced, Broadcast, BeforeBroadcast, IsReset, IsWaterfall, LacksAt, Append, ShineSends,
      PrivateGrowth, OrderAt;
    SyncPrivate(c.log, ch.shines);
    if p.data.Shine? {
      PrivateLacks(c, SyncAll(Collect(c, p.data.shineId), ch.shines), x, at);
    } else if p.data.CostumeData? && !Synced(c, ch.shines) {
      PrivateLacks(c, SyncAll(c, ch.shines), x, at);
    } else if PassedOn(c, p, ch) {
      BeforePrivate(c, p, ch);
      BeforeFrame(c, p, ch);
      PrivateOrderAt(c, BeforeBroadcast(c, p, ch), x, at);
      if LacksAt(c, x, at) {
        PrivateLacks(c, BeforeBroadcast(c, p, ch), x, at);
      }
      BroadcastLacks(BeforeBroadcast(c, p, ch), p, Relayed(from), ch.reached, x, at);
    }
  }

  // ---- whole runs ----

  ghost predicate OrderInv(s: Sys) {
    var at := JoinedAt(s.sessions);
    && Ordered(s.core, at) && Complete(s.core, at, s.missed) && Lacking(s.core, at, s.missed)
    && s.missed <= at.Keys
  }

  lemma SameOrder(s: Sys, s': Sys)
    requires OrderInv(s) && JoinedAt(s'.sessions) == JoinedAt(s.sessions) && s'.missed == s.missed
    requires s'.core.broadcasts == s.core.broadcasts && s'.core.toClients == s.core.toClients
    requires forall x :: x in JoinedAt(s.sessions) && x in s.core.log ==>
               x in s'.core.log && s'.core.log[x] == s.core.log[x]
    ensures OrderInv(s')
  {
    hide Public, InOrder, JoinedAt;
    var at := JoinedAt(s.sessions);
    forall x | x in at ensures OrderAt(s'.core, x, at[x]) {
      assert OrderAt(s.core, x, at[x]);
    }
    forall x | x in at && x !in s'.missed ensures CompleteAt(s'.core, x, at[x]) {
      assert CompleteAt(s.core, x, at[x]);
    }
    forall x | x in at && x in s'.missed ensures LacksAt(s'.core, x, at[x]) {
      assert LacksAt(s.core, x, at[x]);
    }
  }

  lemma JoinedAtCounter(sessions: map<Sid, Session>, x: Sid, session: Session)
    requires x in sessions && (session.phase == Waiting <==> sessions[x].phase == Waiting)
    requires session.joinedAt == sessions[x].joinedAt
    ensures JoinedAt(sessions[x := session]) == JoinedAt(sessions)
  {
  }

  lemma JoinedAtKnown(sessions: map<Sid, Session>)
    ensures JoinedAt(sessions).Keys == Known(sessions).Keys
  {
  }

  lemma JoinedAtNew(sessions: map<Sid, Session>, x: Sid, session: Session)
    requires x in sessions && sessions[x].phase == Waiting && session.phase != Waiting
    ensures JoinedAt(sessions[x := session]) == JoinedAt(sessions)[x := session.joinedAt]
  {
  }

  /** Only sessions that have joined can miss anything. */
  lemma LeaveMissedKnown(c: Core<Sid>, g: Guid, undone: set<Sid>, who: map<Sid, Guid>)
    requires TablesWf(c.clients, c.toClients, c.delayed, who)
    ensures LeaveMissed(c, g, undone) <= who.Keys
  {
    EveryoneKnown(c, who);
    hide TablesWf;
    forall x | x in LeaveMissed(c, g, undone) ensures x in Everyone(c) {
      StaysRegistered(c, g, x, who);
    }
  }

  lemma JoinMissedKnown(c: Core<Sid>, settings: Settings, cli: Joiner<Sid>, connect: Packet, ch: Choice,
                        who: map<Sid, Guid>)
    requires TablesWf(c.clients, c.toClients, c.delayed, who)
    requires cli.sid !in who && cli.data == cli.sid && LegalJoin(c, settings, cli, connect, ch)
    ensures JoinMissed(c, settings, cli, connect, ch) <= who.Keys + {cli.sid}
  {
    hide TablesWf, IntroAll, Setup, AllIntroduced, Register, LeaveMissed, Everyone, Admission, HandlesLive, LegalOrder;
    if Admission(c, settings, cli) == None {
      var c1, who' := Register(c, cli, connect.data.cType), who[cli.sid := cli.guid];
      RegisterTables(c, cli, connect.data.cType, who);
      SetupFrame(c1, cli.sid, connect, settings.maxPlayers, ch);
      EveryoneKnown(c1, who');
      LeaveMissedKnown(Setup(c1, cli.sid, connect, settings.maxPlayers, ch).core, cli.guid, ch.undone, who');
      assert who'.Keys == who.Keys + {cli.sid};
    }
  }

  lemma ServePacketOrder(s: Sys, from: Sid, p: Packet, ch: Choice)
    requires Wf(s) && OrderInv(s) && LegalPacket(s.core, p, ch) && from in s.sessions
    ensures OrderInv(ServePacket(s, from, p, ch))
  {
    var at := JoinedAt(s.sessions);
    TablesOf(s);
    JoinedAtKnown(s.sessions);
    EveryoneKnown(s.core, Known(s.sessions));
    ServePacketShape(s, from, p, ch);
    ServePacketMisses(s, from, p, ch);
    hide HandlePacket, LegalPacket, JoinedAt, Ordered, Complete, Lacking, PassedOn, Everyone, Wf, TablesWf, Known,
      ServePacket;
    JoinedAtCounter(s.sessions, from, s.sessions[from].(served := s.sessions[from].served + 1));
    PacketOrder(s.core, from, p, ch, at);
    PacketsComplete(s.core, from, p, ch, at, s.missed);
    PacketsLacking(s.core, from, p, ch, at, s.missed);
  }

  lemma ServePacketMisses(s: Sys, from: Sid, p: Packet, ch: Choice)
    requires LegalPacket(s.core, p, ch) && from in s.sessions
    ensures ServePacket(s, from, p, ch).missed
         == s.missed + if PassedOn(s.core, p, ch) then Everyone(s.core) - ch.reached else {}
  {
    hide HandlePacket, LegalPacket, PassedOn, Everyone;
  }

  lemma PacketsComplete(c: Core<Sid>, from: Sid, p: Packet, ch: Choice, at: map<Sid, nat>, missed: set<Sid>)
    requires LegalPacket(c, p, ch) && Complete(c, at, missed)
    ensures Complete(HandlePacket(c, from, p, ch).core, at,
                     missed + if PassedOn(c, p, ch) then Everyone(c) - ch.reached else {})
  {
    hide HandlePacket, LegalPacket, PassedOn, CompleteAt, Everyone;
    var missed' := missed + if PassedOn(c, p, ch) then Everyone(c) - ch.reached else {};
    forall x | x in at && x !in missed' ensures CompleteAt(HandlePacket(c, from, p, ch).core, x, at[x]) {
      PacketComplete(c, from, p, ch, x, at[x]);
    }
  }

  lemma PacketsLacking(c: Core<Sid>, from: Sid, p: Packet, ch: Choice, at: map<Sid, nat>, missed: set<Sid>)
    requires LegalPacket(c, p, ch) && Ordered(c, at) && Lacking(c, at, missed)
    ensures Lacking(HandlePacket(c, from, p, ch).core, at,
                    missed + if PassedOn(c, p, ch) then Everyone(c) - ch.reached else {})
  {
    hide HandlePacket, LegalPacket, PassedOn, LacksAt, OrderAt, Everyone;
    var missed' := missed + if PassedOn(c, p, ch) then Everyone(c) - ch.reached else {};
    forall x | x in at && x in missed' ensures LacksAt(HandlePacket(c, from, p, ch).core, x, at[x]) {
      PacketLacks(c, from, p, ch, x, at[x]);
    }
  }

  /** A newcomer whose join is next: it waits, and nothing is known of it. */
  ghost predicate Newly(s: Sys, cli: Joiner<Sid>) {
    && cli.sid in s.sessions && s.sessions[cli.sid].phase == Waiting && s.sessions[cli.sid].joinedAt == 0
    && cli.data == cli.sid && cli.sid !in Known(s.sessions) && cli.sid !in JoinedAt(s.sessions)
    && cli.sid in s.core.log && s.core.log[cli.sid] == []
  }

  lemma JoinerIsNew(s: Sys, cli: Joiner<Sid>, connect: Packet)
    requires CommandWf(NewPlayer(cli, connect), Known(s.sessions), Newcomers(s.sessions))
    requires Wf(s)
    ensures Newly(s, cli)
  {
    WaitingShape(s, cli.sid);
    FreshSession(s, cli.sid);
  }

  lemma ServeJoinOrder(s: Sys, cli: Joiner<Sid>, connect: Packet, ch: Choice)
    requires Wf(s) && OrderInv(s) && cli.sid in s.sessions && LegalJoin(s.core, s.settings, cli, connect, ch)
    requires CommandWf(NewPlayer(cli, connect), Known(s.sessions), Newcomers(s.sessions))
    ensures OrderInv(ServeJoin(s, cli, connect, ch))
  {
    hide OrderInv, ServeJoin, LegalJoin, Admission, JoinedAt, Wf, Known, Newcomers, TablesWf, CommandWf;
    JoinerIsNew(s, cli, connect);
    ServeJoinShape(s, cli, connect, ch);
    JoinedAtKnown(s.sessions);
    TablesOf(s);
    EveryoneKnown(s.core, Known(s.sessions));
    JoinedAtNew(s.sessions, cli.sid, ServeJoin(s, cli, connect, ch).sessions[cli.sid]);
    if Admission(s.core, s.settings, cli).Some? {
      RefusedMissesNone(s.core, s.settings, cli, connect, ch);
      RefusedOrder(s, ServeJoin(s, cli, connect, ch), cli, JoinedAt(s.sessions));
    } else {
      AdmittedOrder(s, ServeJoin(s, cli, connect, ch), cli, connect, ch);
    }
  }

  lemma AdmittedOrder(s: Sys, s': Sys, cli: Joiner<Sid>, connect: Packet, ch: Choice)
    requires OrderInv(s) && Newly(s, cli) && LegalJoin(s.core, s.settings, cli, connect, ch)
    requires Admission(s.core, s.settings, cli) == None && JoinedAt(s.sessions).Keys == Known(s.sessions).Keys
    requires TablesWf(s.core.clients, s.core.toClients, s.core.delayed, Known(s.sessions))
    requires s'.core == Join(s.core, s.settings, cli, connect, ch).core
    requires s'.missed == s.missed + JoinMissed(s.core, s.settings, cli, connect, ch)
    requires JoinedAt(s'.sessions) == JoinedAt(s.sessions)[cli.sid := |s.core.broadcasts|]
    ensures OrderInv(s')
  {
    hide Join, LegalJoin, Admission, JoinedAt, Ordered, Complete, Lacking, Known, TablesWf, JoinMissed;
    var at, who := JoinedAt(s.sessions), Known(s.sessions);
    JoinOrder(s.core, s.settings, cli, connect, ch, who, at);
    JoinsComplete(s.core, s.settings, cli, connect, ch, who, at, s.missed);
    JoinsLacking(s.core, s.settings, cli, connect, ch, who, at, s.missed);
    JoinMissedKnown(s.core, s.settings, cli, connect, ch, who);
  }

  lemma ServeJoinShape(s: Sys, cli: Joiner<Sid>, connect: Packet, ch: Choice)
    requires LegalJoin(s.core, s.settings, cli, connect, ch) && cli.sid in s.sessions
    ensures var s', refused := ServeJoin(s, cli, connect, ch), Admission(s.core, s.settings, cli).Some?;
            && s'.core == Join(s.core, s.settings, cli, connect, ch).core
            && s'.missed == s.missed + JoinMissed(s.core, s.settings, cli, connect, ch)
            && cli.sid in s'.sessions && s'.sessions == s.sessions[cli.sid := s'.sessions[cli.sid]]
            && s'.sessions[cli.sid].phase == (if refused then Ended else Running)
            && s'.sessions[cli.sid].joinedAt == (if refused then s.sessions[cli.sid].joinedAt else |s.core.broadcasts|)
            && (refused ==> s'.core == Refuse(s.core, cli.guid))
            && connect.data.Connect?
            && s'.sessions[cli.sid].data == (if refused then s.sessions[cli.sid].data
                                             else DataFor(s.core, cli, connect.data.cType))
  {
    assert connect.data.Connect?;
    hide Join, LegalJoin, Admission, DataFor, JoinMissed;
    if Admission(s.core, s.settings, cli).Some? {
      JoinRefused(s.core, s.settings, cli, connect, ch);
    }
  }

  lemma RefusedMissesNone(c: Core<Sid>, settings: Settings, cli: Joiner<Sid>, connect: Packet, ch: Choice)
    requires LegalJoin(c, settings, cli, connect, ch) && Admission(c, settings, cli).Some?
    ensures JoinMissed(c, settings, cli, connect, ch) == {}
  {
  }

  lemma JoinsComplete(c: Core<Sid>, settings: Settings, cli: Joiner<Sid>, connect: Packet, ch: Choice,
                      who: map<Sid, Guid>, at: map<Sid, nat>, missed: set<Sid>)
    requires TablesWf(c.clients, c.toClients, c.delayed, who) && Complete(c, at, missed)
    requires cli.sid !in who && cli.data == cli.sid && cli.sid in c.log && c.log[cli.sid] == []
    requires LegalJoin(c, settings, cli, connect, ch) && Admission(c, settings, cli) == None
    ensures Complete(Join(c, settings, cli, connect, ch).core, at[cli.sid := |c.broadcasts|],
                     missed + JoinMissed(c, settings, cli, connect, ch))
  {
    hide Join, LegalJoin, Admission, TablesWf, JoinMissed, CompleteAt;
    var at' := at[cli.sid := |c.broadcasts|];
    forall x | x in at' && x !in missed + JoinMissed(c, settings, cli, connect, ch)
      ensures CompleteAt(Join(c, settings, cli, connect, ch).core, x, at'[x])
    {
      JoinComplete(c, settings, cli, connect, ch, who, x, at'[x]);
    }
  }

  lemma JoinsLacking(c: Core<Sid>, settings: Settings, cli: Joiner<Sid>, connect: Packet, ch: Choice,
                     who: map<Sid, Guid>, at: map<Sid, nat>, missed: set<Sid>)
    requires TablesWf(c.clients, c.toClients, c.delayed, who) && Ordered(c, at) && Lacking(c, at, missed)
    requires cli.sid !in who && cli.data == cli.sid && cli.sid in c.log && c.log[cli.sid] == [] && cli.sid !in missed
    requires LegalJoin(c, settings, cli, connect, ch) && Admission(c, settings, cli) == None
    ensures Lacking(Join(c, settings, cli, connect, ch).core, at[cli.sid := |c.broadcasts|],
                    missed + JoinMissed(c, settings, cli, connect, ch))
  {
    NewOrder(c, cli.sid);
    hide Join, LegalJoin, Admission, TablesWf, JoinMissed, LacksAt, OrderAt;
    var at' := at[cli.sid := |c.broadcasts|];
    forall x | x in at' && x in missed + JoinMissed(c, settings, cli, connect, ch)
      ensures LacksAt(Join(c, settings, cli, connect, ch).core, x, at'[x])
    {
      assert OrderAt(c, x, at'[x]);
      JoinLacks(c, settings, cli, connect, ch, who, x, at'[x]);
    }
  }

  lemma NewOrder(c: Core<Sid>, x: Sid)
    requires x in c.log && c.log[x] == []
    ensures OrderAt(c, x, |c.broadcasts|)
  {
    assert c.broadcasts[|c.broadcasts|..] == [];
  }

  lemma FreshSession(s: Sys, x: Sid)
    requires Wf(s) && x in Newcomers(s.sessions)
    ensures x in s.core.log && s.core.log[x] == [] && x !in JoinedAt(s.sessions)
    ensures x in s.sessions && s.sessions[x].phase == Waiting && s.sessions[x].joinedAt == 0
  {
    assert SessionWf(x, s.sessions[x], Known(s.sessions));
  }

  lemma RefusedOrder(s: Sys, s': Sys, cli: Joiner<Sid>, at: map<Sid, nat>)
    requires OrderInv(s) && at == JoinedAt(s.sessions) && cli.sid !in at
    requires cli.sid in s.core.log && s.core.log[cli.sid] == [] && cli.sid !in Everyone(s.core)
    requires JoinedAt(s'.sessions) == at[cli.sid := 0]
    requires s'.core == Refuse(s.core, cli.guid) && s'.missed == s.missed
    ensures OrderInv(s')
  {
    hide JoinedAt, InOrder;
    forall x | x in at ensures OrderAt(s'.core, x, at[x]) {
      assert OrderAt(s.core, x, at[x]);
    }
    assert Public([]) == [];
    assert OrderAt(s'.core, cli.sid, 0) by { EmptyInOrder(s.core.broadcasts); }
    forall x | x in at && x !in s'.missed ensures CompleteAt(s'.core, x, at[x]) {
      assert CompleteAt(s.core, x, at[x]);
    }
    forall x | x in at && x in s'.missed ensures LacksAt(s'.core, x, at[x]) {
      assert LacksAt(s.core, x, at[x]);
    }
  }

  lemma EmptyInOrder(since: seq<Msg>)
    ensures InOrder([], since[0..])
  {
  }

  lemma ServeLeaveOrder(s: Sys, g: Guid, undone: set<Sid>, bye: bool)
    requires Wf(s) && OrderInv(s) && undone <= Everyone(Unregister(s.core, g))
    ensures OrderInv(ServeLeave(s, g, undone, bye))
  {
    TablesOf(s);
    JoinedAtKnown(s.sessions);
    hide Leave, JoinedAt, Ordered, Complete, Lacking, LeaveMissed, Wf, Known, TablesWf;
    var at, who := JoinedAt(s.sessions), Known(s.sessions);
    LeaveOrder(s.core, g, undone, bye, who, at);
    LeavesComplete(s.core, g, undone, bye, who, at, s.missed);
    LeavesLacking(s.core, g, undone, bye, who, at, s.missed);
    LeaveMissedKnown(s.core, g, undone, who);
  }

  lemma LeavesComplete(c: Core<Sid>, g: Guid, undone: set<Sid>, bye: bool, who: map<Sid, Guid>, at: map<Sid, nat>,
                       missed: set<Sid>)
    requires TablesWf(c.clients, c.toClients, c.delayed, who) && Complete(c, at, missed)
    requires undone <= Everyone(Unregister(c, g))
    ensures Complete(Leave(c, g, undone, bye).core, at, missed + LeaveMissed(c, g, undone))
  {
    hide Leave, CompleteAt, LeaveMissed, TablesWf;
    forall x | x in at && x !in missed + LeaveMissed(c, g, undone)
      ensures CompleteAt(Leave(c, g, undone, bye).core, x, at[x])
    {
      LeaveComplete(c, g, undone, bye, who, x, at[x]);
    }
  }

  lemma LeavesLacking(c: Core<Sid>, g: Guid, undone: set<Sid>, bye: bool, who: map<Sid, Guid>, at: map<Sid, nat>,
                      missed: set<Sid>)
    requires TablesWf(c.clients, c.toClients, c.delayed, who) && Ordered(c, at) && Lacking(c, at, missed)
    requires undone <= Everyone(Unregister(c, g))
    ensures Lacking(Leave(c, g, undone, bye).core, at, missed + LeaveMissed(c, g, undone))
  {
    hide Leave, LacksAt, OrderAt, LeaveMissed, TablesWf;
    forall x | x in at && x in missed + LeaveMissed(c, g, undone)
      ensures LacksAt(Leave(c, g, undone, bye).core, x, at[x])
    {
      LeaveLacks(c, g, undone, bye, who, x, at[x]);
    }
  }

  lemma ServedOrder(s: Sys, ch: Choice)
    requires Wf(s) && OrderInv(s) && CanServe(s, ch)
    ensures OrderInv(ServedHead(s, ch))
  {
    var s1 := Dequeued(s);
    DequeueKeepsWf(s);
    SameOrder(s, s1);
    hide Wf, OrderInv, ServePacket, ServeJoin, ServeLeave, LegalPacket, LegalJoin, Known, Newcomers, JoinedAt;
    match s.core.queue[0]
    case PacketCommand(from, p) => ServePacketOrder(s1, from, p, ch);
    case NewPlayer(cli, connect) => ServeJoinOrder(s1, cli, connect, ch);
    case DisconnectPlayer(g) => ServeLeaveOrder(s1, g, ch.undone, ch.bye);
    case Shutdown => SameOrder(s1, ServedHead(s, ch));
  }

  lemma FiredOrder(s: Sys, i: nat, ids: seq<i32>)
    requires OrderInv(s) && i < |s.core.delayed|
    ensures OrderInv(s.(core := Fire(s.core, i, ids)))
  {
    hide Ordered, CompleteAt, LacksAt, JoinedAt, PrivateGrowth;
    var d, at, c' := s.core.delayed[i], JoinedAt(s.sessions), Fire(s.core, i, ids);
    AppendPrivate(s.core.log, To({d.chan}, ShineMsgs(d.guid, ids)));
    PrivateKeeps(s.core, c', at);
    forall x | x in at && x !in s.missed ensures CompleteAt(c', x, at[x]) {
      PrivateComplete(s.core, c', x, at[x]);
    }
    forall x | x in at && x in s.missed ensures LacksAt(c', x, at[x]) {
      PrivateLacks(s.core, c', x, at[x]);
    }
  }

  lemma ArrivedOrder(s: Sys, sid: Sid, ip: Ip, connect: Packet)
    requires s.core.log.Keys == s.sessions.Keys && OrderInv(s) && sid !in s.sessions && connect.data.Connect?
    ensures OrderInv(Arrived(s, sid, ip, connect))
  {
    hide OrderInv, NewProfile;
    ArrivedJoinedAt(s.sessions, sid, Arrived(s, sid, ip, connect).sessions[sid]);
    SameOrder(s, Arrived(s, sid, ip, connect));
  }

  lemma ArrivedJoinedAt(sessions: map<Sid, Session>, x: Sid, session: Session)
    requires x !in sessions && session.phase == Waiting
    ensures JoinedAt(sessions[x := session]) == JoinedAt(sessions)
  {
  }

  lemma SessionStepOrder(s: Sys, l: Label)
    requires OrderInv(s) && Enabled(s, l) && (l.Take? || l.Forward? || l.Deliver? || l.End? || l.AskShutdown?)
    ensures OrderInv(Step(s, l))
  {
    hide OrderInv, OnPacket, JoinedAt, CanServe, ServedHead, ServeLeave, Arrived, Fire, IsReset, LegalShines;
    var s' := Step(s, l);
    match l {
      case Take(sid, p) => JoinedAtCounter(s.sessions, sid, s'.sessions[sid]);
      case Forward(sid) => JoinedAtCounter(s.sessions, sid, s'.sessions[sid]);
      case Deliver(sid, wrote) => JoinedAtCounter(s.sessions, sid, s'.sessions[sid]);
      case End(sid) => JoinedAtCounter(s.sessions, sid, s'.sessions[sid]);
      case AskShutdown =>
    }
    SameOrder(s, s');
  }

  lemma StepOrder(s: Sys, l: Label)
    requires Wf(s) && OrderInv(s) && Enabled(s, l)
    ensures OrderInv(Step(s, l))
  {
    hide Wf, OrderInv, CanServe, ServedHead, ServeLeave;
    match l
    case Arrive(sid, ip, connect) =>
      LogKeys(s);
      ArrivedOrder(s, sid, ip, connect);
    case Serve(ch) => ServedOrder(s, ch);
    case FireSync(i, ids) => FiredOrder(s, i, ids);
    case Drain(g, undone, bye) =>
      var s1 := s.(mode := Draining(s.mode.todo - {g}));
      ModeKeepsWf(s, s1.mode);
      SameOrder(s, s1);
      ServeLeaveOrder(s1, g, undone, bye);
    case _ => SessionStepOrder(s, l);
  }

  lemma InitialOrder(s: Sys)
    requires Initial(s)
    ensures OrderInv(s)
  {
  }

  /** In every state of every run, what a session was sent by broadcast is a subsequence of the broadcasts since it
      joined.  For a session that no broadcast has missed while it was registered it is a prefix of them, and all of
      them while it is registered, whatever sends to other sessions have failed; a session that one has missed lacks
      a broadcast for good. */
  lemma {:induction false} BroadcastOrderHolds(run: seq<Sys>, labels: seq<Label>, n: nat)
    requires IsRun(run, labels) && n < |run|
    ensures OrderInv(run[n])
  {
    hide Wf, Step, OrderInv, Enabled;
    if n == 0 {
      InitialOrder(run[0]);
    } else {
      BroadcastOrderHolds(run, labels, n - 1);
      RunWf(run, labels, n - 1);
      StepOrder(run[n - 1], labels[n - 1]);
    }
  }
}
