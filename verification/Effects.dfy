/** What the coordinator's commands come to, written out: who is refused, whose data a player gets, what a newcomer and
    the others are told, what is passed on, and what starting and ending a speedrun do to a player. */
module Effects {
  import opened Utf8
  import opened Wire
  import opened Packets
  import opened Protocol
  import opened Sequences
  import opened System
  import opened Structure
  import opened Membership
  import opened Fifo

  // ---- who is let in, and with whose data ----

  /** The three grounds for a refusal, in this order; a refused newcomer leaves nothing but its departure notice. */
  lemma RefusedExactly(c: Core<Sid>, settings: Settings, cli: Joiner<Sid>, connect: Packet, ch: Choice)
    requires LegalJoin(c, settings, cli, connect, ch)
    ensures var h, full := Join(c, settings, cli, connect, ch), |c.clients| > settings.maxPlayers as int;
            var bannedId, bannedIp := cli.guid in settings.bannedPlayers, cli.ip in settings.bannedIps;
            && (h.result == Refused(TooManyPlayers) <==> full)
            && (h.result == Refused(BannedID) <==> !full && bannedId)
            && (h.result == Refused(BannedIP) <==> !full && !bannedId && bannedIp)
            && (h.result.Refused? ==> h.core == c.(queue := c.queue + [Command.DisconnectPlayer(cli.guid)]))
  {
    JoinResult(c, settings, cli, connect, ch);
    hide LegalJoin, Join;
    if Admission(c, settings, cli).Some? {
      JoinRefused(c, settings, cli, connect, ch);
    }
  }

  /** A player that reconnects while it is registered keeps its data; any other newcomer gets its own; and either way
      the task that is started has that data. */
  lemma JoinKeepsData(c: Core<Sid>, settings: Settings, cli: Joiner<Sid>, connect: Packet, ch: Choice)
    requires LegalJoin(c, settings, cli, connect, ch) && Join(c, settings, cli, connect, ch).result == Continue
    ensures var c', g := Join(c, settings, cli, connect, ch).core, cli.guid;
            && g in c'.clients && connect.data.Connect?
            && (connect.data.cType == Reconnecting && g in c.clients ==> c'.clients[g] == c.clients[g])
            && (connect.data.cType == FirstConnection || g !in c.clients ==> c'.clients[g] == cli.data)
            && c'.started == c.started + [Joiner(cli.sid, g, cli.ip, c'.clients[g])]
            && c'.toClients == c.toClients[g := cli.sid]
            && c'.clients.Keys == c.clients.Keys + {g}
            && (forall h :: h in c.clients && h != g ==> c'.clients[h] == c.clients[h])
            && c'.heap == c.heap && c'.bag == c.bag && c'.delayed == c.delayed && c'.queue == c.queue
  {
    assert connect.data.Connect?;
    JoinResult(c, settings, cli, connect, ch);
    hide LegalJoin, Join, Admission, Register;
    JoinFrame(c, settings, cli, connect, ch);
    RegisterKeepsData(c, cli, connect.data.cType);
  }

  lemma RegisterKeepsData(c: Core<Sid>, cli: Joiner<Sid>, cType: ConnectionType)
    ensures var c', g := Register(c, cli, cType), cli.guid;
            && c' == c.(clients := c'.clients, toClients := c.toClients[g := cli.sid],
                        started := c.started + [Joiner(cli.sid, g, cli.ip, c'.clients[g])])
            && c'.clients.Keys == c.clients.Keys + {g}
            && (cType == Reconnecting && g in c.clients ==> c'.clients[g] == c.clients[g])
            && (cType == FirstConnection || g !in c.clients ==> c'.clients[g] == cli.data)
            && (forall h :: h in c.clients && h != g ==> c'.clients[h] == c.clients[h])
  {
  }

  // ---- what a newcomer is told, and what the others ----

  function Profiles(c: Core<Sid>): map<Guid, Profile>
    requires HandlesLive(c)
  {
    map g | g in c.clients :: c.heap[c.clients[g]]
  }

  /** How one player is shown: by a first connection under its guid and name, by its costume, and by its last game
      packet, just as it came, if there was one. */
  predicate ShowsOne(told: seq<Packet>, g: Guid, d: Profile, maxPlayers: u16) {
    && |told| == (if d.lastGame.Some? then 3 else 2)
    && told[0].id == g && told[0].dataSize == 38 && told[0].data.Connect? && told[0].data.cType == FirstConnection
    && told[0].data.maxPlayer == maxPlayers && told[0].data.clientName == d.name
    && told[1].id == g && told[1].dataSize == 64 && told[1].data.CostumeData?
    && told[1].data.costume.bodyName == d.costume.bodyName && told[1].data.costume.capName == d.costume.capName
    && (d.lastGame.Some? ==> told[2] == d.lastGame.value)
  }

  /** `told` shows these players, one after the other. */
  predicate Shows(told: seq<Packet>, players: seq<Guid>, profiles: map<Guid, Profile>, maxPlayers: u16) {
    if players == [] then told == []
    else
      var n := |players| - 1;
      && players[n] in profiles
      && var d := profiles[players[n]];
         var k := |told| - if d.lastGame.Some? then 3 else 2;
         && k >= 0 && ShowsOne(told[k..], players[n], d, maxPlayers)
         && Shows(told[..k], players[..n], profiles, maxPlayers)
  }

  ghost predicate IsOrderOf(players: seq<Guid>, keys: set<Guid>) {
    NoDuplicates(players) && forall g :: g in players <==> g in keys
  }

  /** These packets, in order, came into an inbox between two states. */
  ghost predicate Hears(before: Core<Sid>, after: Core<Sid>, x: Sid, news: seq<Packet>) {
    && x in before.log && x in after.log && before.log[x] <= after.log[x]
    && Map(PacketOf(), after.log[x][|before.log[x]|..]) == news
  }

  lemma {:induction false} IntrosShow(c: Core<Sid>, order: seq<Guid>, maxPlayers: u16)
    requires HandlesLive(c) && forall i :: 0 <= i < |order| ==> order[i] in c.clients
    ensures Shows(Map(PacketOf(), IntroAll(c, order, maxPlayers)), order, Profiles(c), maxPlayers)
  {
    hide Shows, IntroOf;
    if order == [] {
      NobodyShown(c, maxPlayers);
    } else {
      var n := |order| - 1;
      var d := c.heap[c.clients[order[n]]];
      IntrosShow(c, order[..n], maxPlayers);
      MapConcat(PacketOf(), IntroAll(c, order[..n], maxPlayers), IntroOf(order[n], d, maxPlayers));
      OneShown(Map(PacketOf(), IntroAll(c, order[..n], maxPlayers)), order, Profiles(c), maxPlayers);
    }
  }

  lemma NobodyShown(c: Core<Sid>, maxPlayers: u16)
    requires HandlesLive(c)
    ensures Shows(Map(PacketOf(), IntroAll(c, [], maxPlayers)), [], Profiles(c), maxPlayers)
  {
  }

  lemma OneShown(before: seq<Packet>, players: seq<Guid>, profiles: map<Guid, Profile>, maxPlayers: u16)
    requires players != [] && players[|players| - 1] in profiles
    requires Shows(before, players[..|players| - 1], profiles, maxPlayers)
    ensures var g := players[|players| - 1];
            Shows(before + Map(PacketOf(), IntroOf(g, profiles[g], maxPlayers)), players, profiles, maxPlayers)
  {
    var g := players[|players| - 1];
    var one := Map(PacketOf(), IntroOf(g, profiles[g], maxPlayers));
    IntroShows(g, profiles[g], maxPlayers);
    hide ShowsOne, IntroOf, Map;
    assert |one| == (if profiles[g].lastGame.Some? then 3 else 2) by { IntroSize(g, profiles[g], maxPlayers); }
    assert (before + one)[..|before|] == before && (before + one)[|before|..] == one;
  }

  lemma IntroShows(g: Guid, d: Profile, maxPlayers: u16)
    ensures ShowsOne(Map(PacketOf(), IntroOf(g, d, maxPlayers)), g, d, maxPlayers)
  {
    MapIs(IntroOf(g, d, maxPlayers));
  }

  lemma IntroSize(g: Guid, d: Profile, maxPlayers: u16)
    ensures |Map(PacketOf(), IntroOf(g, d, maxPlayers))| == if d.lastGame.Some? then 3 else 2
  {
    MapIs(IntroOf(g, d, maxPlayers));
  }

  lemma MapIs(ms: seq<Msg>)
    ensures |Map(PacketOf(), ms)| == |ms| && forall i :: 0 <= i < |ms| ==> Map(PacketOf(), ms)[i] == ms[i].packet
  {
  }

  /** However far a setup gets, the newcomer is shown the players of the table in some order as far as it got; and once
      all got through, those that were reached, and only those, are sent the newcomer's own connect packet. */
  lemma SetupTells(c: Core<Sid>, x: Sid, connect: Packet, maxPlayers: u16, ch: Choice)
    returns (told: seq<Packet>)
    requires HandlesLive(c) && LegalOrder(c, ch.order) && ch.cut <= |IntroAll(c, ch.order, maxPlayers)|
    requires x in c.log && ch.reached <= Everyone(c) && GetSize(connect.data) < 0x1_0000
    ensures Shows(told, ch.order, Profiles(c), maxPlayers)
    ensures var c' := Setup(c, x, connect, maxPlayers, ch).core;
            var through := c'.broadcasts != c.broadcasts;
            && (through <==> IsOrderOf(ch.order, c.clients.Keys) && ch.cut == |told|)
            && ch.cut <= |told| && c'.log.Keys == c.log.Keys
            && forall y :: y in c.log ==>
                 Hears(c, c', y, (if y == x then told[..ch.cut] else [])
                                 + if through && y in ch.reached then [connect.(dataSize := GetSize(connect.data))]
                                   else [])
  {
    hide IntroAll, Shows, Hears, Map;
    IntrosShow(c, ch.order, maxPlayers);
    var intro := IntroAll(c, ch.order, maxPlayers);
    told := Map(PacketOf(), intro);
    MapPrefix(intro, ch.cut);
    assert AllIntroduced(c, maxPlayers, ch) <==> IsOrderOf(ch.order, c.clients.Keys) && ch.cut == |told|;
    hide Setup, HandlesLive, LegalOrder, AllIntroduced, IsOrderOf;
    SetupFrame(c, x, connect, maxPlayers, ch);
    SetupNews(c, x, connect, maxPlayers, ch, x);
    forall y | y in c.log
      ensures var through := Setup(c, x, connect, maxPlayers, ch).core.broadcasts != c.broadcasts;
              Hears(c, Setup(c, x, connect, maxPlayers, ch).core, y,
                    (if y == x then told[..ch.cut] else [])
                    + if through && y in ch.reached then [connect.(dataSize := GetSize(connect.data))] else [])
    {
      SetupNews(c, x, connect, maxPlayers, ch, y);
    }
  }

  lemma MapPrefix(ms: seq<Msg>, n: nat)
    requires n <= |ms|
    ensures |Map(PacketOf(), ms)| == |ms| && Map(PacketOf(), ms[..n]) == Map(PacketOf(), ms)[..n]
    ensures Map(PacketOf(), []) == []
  {
    MapIs(ms);
    MapIs(ms[..n]);
  }

  lemma IntroduceNews(c: Core<Sid>, x: Sid, maxPlayers: u16, ch: Choice, y: Sid)
    requires HandlesLive(c) && LegalOrder(c, ch.order) && ch.cut <= |IntroAll(c, ch.order, maxPlayers)| && y in c.log
    ensures var c' := Introduce(c, x, maxPlayers, ch.order, ch.cut);
            && c'.log.Keys == c.log.Keys && c'.broadcasts == c.broadcasts
            && c'.log[y] == c.log[y] + if y == x then IntroAll(c, ch.order, maxPlayers)[..ch.cut] else []
  {
    hide IntroAll;
  }

  lemma BroadcastNews(c: Core<Sid>, p: Packet, kind: Kind, reached: set<Sid>, y: Sid)
    requires y in c.log && GetSize(p.data) < 0x1_0000
    ensures var c', m := Broadcast(c, p, kind, reached), Msg(p.(dataSize := GetSize(p.data)), kind);
            && c'.log.Keys == c.log.Keys && c'.broadcasts == c.broadcasts + [m]
            && c'.log[y] == c.log[y] + if y in reached then [m] else []
  {
  }

  lemma NewsIs(log: seq<Msg>, first: seq<Msg>, last: seq<Msg>)
    ensures var log' := log + first + last;
            && log <= log'
            && Map(PacketOf(), log'[|log|..]) == Map(PacketOf(), first) + Map(PacketOf(), last)
  {
    hide Map;
    assert (log + first + last)[|log|..] == first + last;
    MapConcat(PacketOf(), first, last);
  }

  lemma OneNews(m: Msg)
    ensures Map(PacketOf(), [m]) == [m.packet] && Map(PacketOf(), []) == []
  {
  }

  lemma SetupParts(c: Core<Sid>, x: Sid, connect: Packet, maxPlayers: u16, ch: Choice)
    requires HandlesLive(c) && LegalOrder(c, ch.order) && ch.cut <= |IntroAll(c, ch.order, maxPlayers)|
    ensures var c1 := Introduce(c, x, maxPlayers, ch.order, ch.cut);
            Setup(c, x, connect, maxPlayers, ch).core
            == if AllIntroduced(c, maxPlayers, ch) then Broadcast(c1, connect, Notice, ch.reached) else c1
  {
    hide IntroAll, AllIntroduced, Introduce, Broadcast, Everyone;
  }

  lemma SetupNews(c: Core<Sid>, x: Sid, connect: Packet, maxPlayers: u16, ch: Choice, y: Sid)
    requires HandlesLive(c) && LegalOrder(c, ch.order) && ch.cut <= |IntroAll(c, ch.order, maxPlayers)|
    requires x in c.log && ch.reached <= Everyone(c) && y in c.log && GetSize(connect.data) < 0x1_0000
    ensures var c' := Setup(c, x, connect, maxPlayers, ch).core;
            var through := c'.broadcasts != c.broadcasts;
            && (through <==> AllIntroduced(c, maxPlayers, ch))
            && Hears(c, c', y, Map(PacketOf(), if y == x then IntroAll(c, ch.order, maxPlayers)[..ch.cut] else [])
                               + if through && y in ch.reached then [connect.(dataSize := GetSize(connect.data))] else [])
  {
    var first := if y == x then IntroAll(c, ch.order, maxPlayers)[..ch.cut] else [];
    hide IntroAll, AllIntroduced, Introduce, Setup, Broadcast, Everyone, HandlesLive, LegalOrder, Map;
    var m := Msg(connect.(dataSize := GetSize(connect.data)), Notice);
    SetupParts(c, x, connect, maxPlayers, ch);
    IntroduceNews(c, x, maxPlayers, ch, y);
    BroadcastNews(Introduce(c, x, maxPlayers, ch.order, ch.cut), connect, Notice, ch.reached, y);
    assert |c.broadcasts + [m]| == |c.broadcasts| + 1;
    var last := if AllIntroduced(c, maxPlayers, ch) && y in ch.reached then [m] else [];
    assert c.log[y] + first + [] == c.log[y] + first;
    NewsIs(c.log[y], first, last);
    OneNews(m);
  }

  /** After a join that succeeds the newcomer has been shown everyone on the table, itself included, in some order, and
      everyone on the table has been sent the newcomer's own connect packet. */
  lemma JoinTells(c: Core<Sid>, settings: Settings, cli: Joiner<Sid>, connect: Packet, ch: Choice)
    returns (told: seq<Packet>, players: seq<Guid>)
    requires LegalJoin(c, settings, cli, connect, ch) && Join(c, settings, cli, connect, ch).result == Continue
    requires cli.sid in c.log
    ensures var c' := Join(c, settings, cli, connect, ch).core;
            && HandlesLive(c') && IsOrderOf(players, c'.clients.Keys)
            && Shows(told, players, Profiles(c'), settings.maxPlayers)
            && c'.log.Keys == c.log.Keys
            && forall y :: y in c.log ==>
                 Hears(c, c', y, (if y == cli.sid then told else [])
                                 + if y in c'.toClients.Values then [connect.(dataSize := 38)] else [])
  {
    JoinIsSetup(c, settings, cli, connect, ch);
    var c1 := Register(c, cli, connect.data.cType);
    RegisterLog(c, cli, connect.data.cType);
    hide *;
    told := SetupTells(c1, cli.sid, connect, settings.maxPlayers, ch);
    players := ch.order;
    var c' := SetupSucceeds(c1, cli.sid, connect, settings.maxPlayers, ch);
    SameProfiles(c1, c');
    AllHear(c, c1, c', cli.sid, told, ch.cut, ch.reached, connect.(dataSize := 38));
  }

  lemma AllHear(c: Core<Sid>, c1: Core<Sid>, c': Core<Sid>, x: Sid, told: seq<Packet>, cut: nat, reached: set<Sid>,
                connect: Packet)
    requires c1.log == c.log && cut == |told| && reached == c'.toClients.Values
    requires forall y :: y in c1.log ==>
               Hears(c1, c', y, (if y == x then told[..cut] else []) + if y in reached then [connect] else [])
    ensures forall y :: y in c.log ==>
              Hears(c, c', y, (if y == x then told else []) + if y in c'.toClients.Values then [connect] else [])
  {
    hide Map;
    assert told[..cut] == told;
  }

  lemma SetupSucceeds(c: Core<Sid>, x: Sid, connect: Packet, maxPlayers: u16, ch: Choice) returns (c': Core<Sid>)
    requires HandlesLive(c) && LegalOrder(c, ch.order) && ch.cut <= |IntroAll(c, ch.order, maxPlayers)|
    requires Setup(c, x, connect, maxPlayers, ch).result == Continue
    ensures c' == Setup(c, x, connect, maxPlayers, ch).core
    ensures c'.broadcasts != c.broadcasts && ch.reached == c'.toClients.Values
    ensures c'.clients == c.clients && c'.heap == c.heap && c'.log.Keys == c.log.Keys
  {
    AllReached(c, x, connect, maxPlayers, ch);
    SetupFrame(c, x, connect, maxPlayers, ch);
    SetupThrough(c, x, connect, maxPlayers, ch);
    hide Setup, HandlesLive, LegalOrder, IntroAll, AllIntroduced;
    c' := Setup(c, x, connect, maxPlayers, ch).core;
  }

  lemma SameProfiles(c: Core<Sid>, c': Core<Sid>)
    requires HandlesLive(c) && c'.clients == c.clients && c'.heap == c.heap
    ensures HandlesLive(c') && Profiles(c') == Profiles(c)
  {
  }

  lemma JoinIsSetup(c: Core<Sid>, settings: Settings, cli: Joiner<Sid>, connect: Packet, ch: Choice)
    requires LegalJoin(c, settings, cli, connect, ch) && Join(c, settings, cli, connect, ch).result == Continue
    ensures connect.data.Connect? && GetSize(connect.data) == 38
    ensures var c1 := Register(c, cli, connect.data.cType);
            && HandlesLive(c1) && LegalOrder(c1, ch.order)
            && ch.cut <= |IntroAll(c1, ch.order, settings.maxPlayers)| && ch.reached <= Everyone(c1)
            && Setup(c1, cli.sid, connect, settings.maxPlayers, ch) == Join(c, settings, cli, connect, ch)
  {
    hide Setup, Leave, IntroAll, Register;
  }

  lemma RegisterLog(c: Core<Sid>, cli: Joiner<Sid>, cType: ConnectionType)
    ensures Register(c, cli, cType).log == c.log
  {
    hide DataFor;
  }

  lemma SetupThrough(c: Core<Sid>, x: Sid, connect: Packet, maxPlayers: u16, ch: Choice)
    requires HandlesLive(c) && LegalOrder(c, ch.order) && ch.cut <= |IntroAll(c, ch.order, maxPlayers)|
    requires AllIntroduced(c, maxPlayers, ch)
    ensures Setup(c, x, connect, maxPlayers, ch).core.broadcasts != c.broadcasts
  {
    hide IntroAll, AllIntroduced;
    var m := Msg(Resize(connect), Notice);
    assert |c.broadcasts + [m]| == |c.broadcasts| + 1;
  }

  /** A departure under a registered guid is told to the others, and if it got to all of them, to the leaver as well; a
      departure under any other guid is told to nobody. */
  lemma LeaveTells(c: Core<Sid>, g: Guid, undone: set<Sid>, bye: bool)
    ensures var h, m := Leave(c, g, undone, bye), Msg(Packet(g, 0, Disconnect), Notice);
            var others := (c.toClients - {g}).Values;
            && h.core == c.(clients := c.clients - {g}, toClients := c.toClients - {g}, log := h.core.log,
                            broadcasts := if g in c.toClients then c.broadcasts + [m] else c.broadcasts)
            && h.core.log.Keys == c.log.Keys
            && (h.result == Continue <==> g !in c.toClients || (undone == others && bye))
            && forall x :: x in c.log ==>
                 h.core.log[x] == c.log[x] + (if g in c.toClients && x in undone then [m] else [])
                                           + if g in c.toClients && undone == others && bye && x == c.toClients[g] then [m]
                                             else []
  {
    if g in c.toClients {
      var c1 := Unregister(c, g);
      BroadcastFrame(c1, DisconnectPacket(g), Notice, undone);
      forall x | x in c.log
        ensures Broadcast(c1, DisconnectPacket(g), Notice, undone).log[x]
             == c.log[x] + if x in undone then [Msg(Packet(g, 0, Disconnect), Notice)] else []
      {
        BroadcastNews(c1, DisconnectPacket(g), Notice, undone, x);
      }
      hide Broadcast;
    }
  }

  // ---- what becomes of a packet ----

  predicate Spells(s: seq<byte>, word: string) {
    |s| == |word| && forall i :: 0 <= i < |s| ==> s[i] == word[i] as int
  }

  /** The game packet by which a player starts over. */
  predicate StartsOver(p: Packet) {
    p.data.Game? && p.data.scenarioNum == 0 && Spells(p.data.stage, "CapWorldHomeStage")
  }

  /** The game packet by which a player comes to the second kingdom, in the program's spelling. */
  predicate MovesOn(p: Packet) {
    p.data.Game? && Spells(p.data.stage, "WaterfallWordHomeStage")
  }

  lemma SpellsAscii(s: seq<byte>, word: string)
    requires forall i :: 0 <= i < |word| ==> word[i] as int < 0x80
    ensures Spells(s, word) <==> s == Ascii(word)
  {
  }

  lemma StageNames(p: Packet)
    ensures IsReset(p.data) <==> StartsOver(p)
    ensures IsWaterfall(p.data) <==> MovesOn(p)
    ensures !(StartsOver(p) && MovesOn(p)) && (StartsOver(p) || MovesOn(p) ==> p.data.Game?)
  {
    hide Spells, Ascii;
    if p.data.Game? {
      SpellsAscii(p.data.stage, "CapWorldHomeStage");
      SpellsAscii(p.data.stage, "WaterfallWordHomeStage");
      assert |Ascii("CapWorldHomeStage")| == 17 && |Ascii("WaterfallWordHomeStage")| == 22 by { AsciiLengths(); }
    }
  }

  lemma AsciiLengths()
    ensures |Ascii("CapWorldHomeStage")| == 17 && |Ascii("WaterfallWordHomeStage")| == 22
  {
  }

  /** The shines a player should be sent, and no more: none while it is on a speedrun. */
  predicate SentAll(c: Core<Sid>, ids: seq<i32>, r: Sid)
    requires r in c.heap
  {
    c.heap[r].speedrunStart || forall k :: k in c.bag && k !in c.heap[r].shineSync ==> k in ids
  }

  ghost predicate AllSynced(c: Core<Sid>, shines: map<Sid, seq<i32>>)
    requires HandlesLive(c) && shines.Keys == Everyone(c)
  {
    forall g :: g in c.clients && g in c.toClients ==> SentAll(c, shines[c.toClients[g]], c.clients[g])
  }

  lemma SyncedIsAll(c: Core<Sid>, shines: map<Sid, seq<i32>>)
    requires HandlesLive(c) && shines.Keys == Everyone(c)
    ensures Synced(c, shines) <==> AllSynced(c, shines)
  {
    forall g | g in c.clients && g in c.toClients
      ensures AllSent(shines[c.toClients[g]], c.heap[c.clients[g]], c.bag)
              <==> SentAll(c, shines[c.toClients[g]], c.clients[g])
    {
    }
  }

  /** What is passed on, and with what result: a shine is not; a costume only after everyone has got the shines it
      lacks; a game packet of the two stages above only under a registered guid; and everything else always, to everyone
      as long as sends succeed. */
  lemma PassedOnExactly(c: Core<Sid>, from: Sid, p: Packet, ch: Choice)
    requires LegalPacket(c, p, ch)
    ensures var h, m := HandlePacket(c, from, p, ch), Msg(p.(dataSize := GetSize(p.data) % 0x1_0000), Relayed(from));
            var unknown := (StartsOver(p) || MovesOn(p)) && p.id !in c.clients;
            var behind := p.data.CostumeData? && !AllSynced(c, ch.shines);
            && h.core.broadcasts == (if p.data.Shine? || unknown || behind then c.broadcasts else c.broadcasts + [m])
            && (h.result == InvalidID <==> unknown)
            && (unknown ==> h.core == c)
            && (behind ==> h.result == SendFailed)
            && (!p.data.Shine? && !unknown && !behind ==>
                  && h.result == (if ch.reached == c.toClients.Values then Continue else SendFailed)
                  && h.core.log.Keys == c.log.Keys
                  && forall x :: x in c.log ==>
                       h.core.log[x] == c.log[x] + (if p.data.CostumeData? && x in ch.shines then
                                                      ShineMsgs(DEFAULT_GUID, ch.shines[x]) else [])
                                                 + if x in ch.reached then [m] else [])
  {
    StageNames(p);
    if p.data.CostumeData? {
      SyncedIsAll(c, ch.shines);
    }
    hide StartsOver, MovesOn, IsReset, IsWaterfall, AllSynced, Synced, LegalPacket, Broadcast, BeforeBroadcast, ShineMsgs;
    if PassedOn(c, p, ch) {
      RelayedOn(c, from, p, ch);
    }
  }

  lemma RelayedOn(c: Core<Sid>, from: Sid, p: Packet, ch: Choice)
    requires LegalPacket(c, p, ch) && PassedOn(c, p, ch)
    ensures var h, m := HandlePacket(c, from, p, ch), Msg(p.(dataSize := GetSize(p.data) % 0x1_0000), Relayed(from));
            && h.core.broadcasts == c.broadcasts + [m]
            && h.result == (if ch.reached == c.toClients.Values then Continue else SendFailed)
            && h.core.log.Keys == c.log.Keys
            && forall x :: x in c.log ==>
                 h.core.log[x] == c.log[x] + (if p.data.CostumeData? && x in ch.shines then
                                                ShineMsgs(DEFAULT_GUID, ch.shines[x]) else [])
                                           + if x in ch.reached then [m] else []
  {
    hide IsReset, IsWaterfall, Synced, LegalShines, BeforeBroadcast, ShineMsgs;
    BeforeFrame(c, p, ch);
    BeforeLog(c, p, ch);
  }

  lemma BeforeLog(c: Core<Sid>, p: Packet, ch: Choice)
    requires HandlesLive(c) && Coherent(c)
    requires IsReset(p.data) || IsWaterfall(p.data) ==> p.id in c.clients
    ensures var c1 := BeforeBroadcast(c, p, ch);
            && c1.log.Keys == c.log.Keys
            && forall x :: x in c.log ==>
                 c1.log[x] == c.log[x] + if p.data.CostumeData? && x in ch.shines then
                                           ShineMsgs(DEFAULT_GUID, ch.shines[x]) else []
  {
    hide IsReset, IsWaterfall, StartSpeedrun, ShineMsgs;
  }

  // ---- speedruns ----

  lemma PassedIsBroadcast(c: Core<Sid>, from: Sid, p: Packet, ch: Choice)
    requires LegalPacket(c, p, ch) && PassedOn(c, p, ch)
    ensures HandlesLive(c) && Coherent(c)
    ensures HandlePacket(c, from, p, ch).core == Broadcast(BeforeBroadcast(c, p, ch), p, Relayed(from), ch.reached)
  {
    hide IsReset, IsWaterfall, BeforeBroadcast, Broadcast;
  }

  /** A player starts over: it is on a speedrun from now on, it and the bag have no shines, and nobody else's data is
      touched. */
  lemma StartsRun(c: Core<Sid>, from: Sid, p: Packet, ch: Choice)
    requires LegalPacket(c, p, ch) && StartsOver(p) && p.id in c.clients
    ensures var c', r := HandlePacket(c, from, p, ch).core, c.clients[p.id];
            && c'.bag == {} && c'.delayed == c.delayed && c'.heap.Keys == c.heap.Keys
            && c'.heap[r] == c.heap[r].(speedrunStart := true, shineSync := {})
            && c'.clients == c.clients && c'.toClients == c.toClients
            && forall q :: q in c.heap && q != r ==> c'.heap[q] == c.heap[q]
  {
    StageNames(p);
    hide StartsOver, MovesOn, LegalPacket, HandlePacket, Broadcast, IsReset, IsWaterfall;
    PassedIsBroadcast(c, from, p, ch);
    BroadcastFrame(BeforeBroadcast(c, p, ch), p, Relayed(from), ch.reached);
  }

  /** A player moves on: its speedrun is over, and nothing else about any player changes; a delayed sync is started, for
      its inbox, guid and data, exactly if it was on a speedrun. */
  lemma EndsRun(c: Core<Sid>, from: Sid, p: Packet, ch: Choice)
    requires LegalPacket(c, p, ch) && MovesOn(p) && p.id in c.clients
    ensures var c', r := HandlePacket(c, from, p, ch).core, c.clients[p.id];
            && p.id in c.toClients
            && c'.bag == c.bag && c'.heap.Keys == c.heap.Keys
            && c'.heap[r] == c.heap[r].(speedrunStart := false)
            && c'.clients == c.clients && c'.toClients == c.toClients
            && (forall q :: q in c.heap && q != r ==> c'.heap[q] == c.heap[q])
            && c'.delayed == (if c.heap[r].speedrunStart then c.delayed + [Delayed(c.toClients[p.id], p.id, r)]
                              else c.delayed)
  {
    StageNames(p);
    hide StartsOver, MovesOn, LegalPacket, HandlePacket, Broadcast, IsReset, IsWaterfall;
    PassedIsBroadcast(c, from, p, ch);
    BroadcastFrame(BeforeBroadcast(c, p, ch), p, Relayed(from), ch.reached);
  }

  /** No other packet changes a flag, a shine set or any other data; only shines change the bag. */
  lemma OthersKeepData(c: Core<Sid>, from: Sid, p: Packet, ch: Choice)
    requires LegalPacket(c, p, ch) && !((StartsOver(p) || MovesOn(p)) && p.id in c.clients)
    ensures var c' := HandlePacket(c, from, p, ch).core;
            && c'.heap == c.heap && c'.delayed == c.delayed
            && c'.clients == c.clients && c'.toClients == c.toClients
            && c'.bag == (if p.data.Shine? then c.bag + {p.data.shineId} else c.bag)
  {
    StageNames(p);
    hide StartsOver, MovesOn, IsReset, IsWaterfall, LegalShines, Append, Synced, Broadcast, ShineSends;
    if PassedOn(c, p, ch) {
      PassedIsBroadcast(c, from, p, ch);
      hide HandlePacket, LegalPacket;
      BroadcastFrame(BeforeBroadcast(c, p, ch), p, Relayed(from), ch.reached);
    }
  }

  // ---- syncs ----

  /** `ids` are the shines that a player lacks, each once; none while it is on a speedrun. */
  ghost predicate Lacked(c: Core<Sid>, r: Sid, ids: seq<i32>)
    requires r in c.heap
  {
    && NoDuplicates(ids)
    && forall k :: k in ids <==> !c.heap[r].speedrunStart && k in c.bag && k !in c.heap[r].shineSync
  }

  /** Which shines a sync may send, and when it has sent all. */
  lemma SyncsExactly(ids: seq<i32>, d: Profile, bag: set<i32>)
    ensures LegalShines(ids, d, bag) && AllSent(ids, d, bag)
            <==> NoDuplicates(ids) && forall k :: k in ids <==> !d.speedrunStart && k in bag && k !in d.shineSync
  {
    forall k ensures k in Missing(d, bag) <==> !d.speedrunStart && k in bag && k !in d.shineSync {
    }
    if LegalShines(ids, d, bag) && AllSent(ids, d, bag) {
      forall k ensures k in ids <==> !d.speedrunStart && k in bag && k !in d.shineSync {
        assert k in Missing(d, bag) <==> !d.speedrunStart && k in bag && k !in d.shineSync;
      }
    }
    if NoDuplicates(ids) && forall k :: k in ids <==> !d.speedrunStart && k in bag && k !in d.shineSync {
      forall i | 0 <= i < |ids| ensures ids[i] in Missing(d, bag) {
        assert ids[i] in ids;
      }
    }
  }

  /** A delayed sync runs once: it is taken off the list, and sends one packet for each shine, under the guid it was
      started for, to the inbox it was started for and to no other. */
  lemma DelayedRunsOnce(c: Core<Sid>, i: nat, ids: seq<i32>)
    requires i < |c.delayed|
    ensures var c', d := Fire(c, i, ids), c.delayed[i];
            && |c'.delayed| == |c.delayed| - 1
            && (forall j :: 0 <= j < |c'.delayed| ==> c'.delayed[j] == c.delayed[if j < i then j else j + 1])
            && c' == c.(log := c'.log, delayed := c'.delayed) && c'.log.Keys == c.log.Keys
            && (forall x :: x in c.log && x != d.chan ==> c'.log[x] == c.log[x])
            && (d.chan in c.log ==>
                  && c.log[d.chan] <= c'.log[d.chan] && |c'.log[d.chan]| == |c.log[d.chan]| + |ids|
                  && forall k :: 0 <= k < |ids| ==>
                       c'.log[d.chan][|c.log[d.chan]| + k].packet == Packet(d.guid, 5, Shine(ids[k], false)))
  {
  }

  lemma LackedIs(c: Core<Sid>, shines: map<Sid, seq<i32>>, g: Guid)
    requires HandlesLive(c) && LegalSync(c, shines) && Synced(c, shines) && g in c.clients && g in c.toClients
    ensures Lacked(c, c.clients[g], shines[c.toClients[g]])
  {
    var ids, d := shines[c.toClients[g]], c.heap[c.clients[g]];
    assert LegalShines(ids, d, c.bag) && AllSent(ids, d, c.bag);
    forall k ensures k in ids <==> !d.speedrunStart && k in c.bag && k !in d.shineSync {
      assert k in Missing(d, c.bag) <==> !d.speedrunStart && k in c.bag && k !in d.shineSync;
    }
  }

  /** A shine is put into the bag; and if no send fails, every player has been sent exactly the shines of the new bag
      that it lacks, each in one packet under the empty guid, unless it is on a speedrun. */
  lemma ShineHandled(c: Core<Sid>, from: Sid, p: Packet, ch: Choice, g: Guid)
    requires LegalPacket(c, p, ch) && p.data.Shine? && g in c.clients && g in c.toClients && c.toClients[g] in c.log
    ensures var h, x := HandlePacket(c, from, p, ch), c.toClients[g];
            && h.core.bag == c.bag + {p.data.shineId} && h.core.heap == c.heap
            && (h.result == Continue ==>
                  exists ids :: Lacked(h.core, c.clients[g], ids)
                                && h.core.log[x] == c.log[x] + ShineNews(ids))
  {
    var c1, h, x := Collect(c, p.data.shineId), HandlePacket(c, from, p, ch), c.toClients[g];
    hide Synced, LegalSync, ShineMsgs;
    if h.result == Continue {
      LackedIs(c1, ch.shines, g);
      NewsOfShines(ch.shines[x]);
      SyncedLog(c1, ch.shines, g);
      assert Lacked(h.core, c.clients[g], ch.shines[x]);
    }
  }

  lemma SyncedLog(c: Core<Sid>, shines: map<Sid, seq<i32>>, g: Guid)
    requires HandlesLive(c) && LegalSync(c, shines) && g in c.toClients && c.toClients[g] in c.log
    ensures var x := c.toClients[g];
            x in shines && SyncAll(c, shines).log[x] == c.log[x] + ShineMsgs(DEFAULT_GUID, shines[x])
  {
    assert c.toClients[g] in Everyone(c);
  }

  /** One packet for each shine, as syncs send them: from nobody, and no grand moon. */
  function ShineNews(ids: seq<i32>): seq<Msg> {
    seq(|ids|, i requires 0 <= i < |ids| =>
      Msg(Packet([0, 0, 0, 0, 0, 0, 0, 0, 0, 0, 0, 0, 0, 0, 0, 0], 5, Shine(ids[i], false)), Sync))
  }

  lemma NewsOfShines(ids: seq<i32>)
    ensures ShineMsgs(DEFAULT_GUID, ids) == ShineNews(ids)
  {
  }

  /** Once a player has moved on, a sync in which no send fails sends it exactly what it lacks. */
  lemma SyncedAgain(c: Core<Sid>, from: Sid, p: Packet, ch: Choice, shines: map<Sid, seq<i32>>)
    requires LegalPacket(c, p, ch) && MovesOn(p) && p.id in c.clients
    requires var c' := HandlePacket(c, from, p, ch).core;
             && HandlesLive(c') && LegalSync(c', shines) && Synced(c', shines) && p.id in c.toClients
             && c.toClients[p.id] in c'.log
    ensures var c', x, d := HandlePacket(c, from, p, ch).core, c.toClients[p.id], c.heap[c.clients[p.id]];
            && x in shines && NoDuplicates(shines[x])
            && (forall k :: k in shines[x] <==> k in c.bag && k !in d.shineSync)
            && SyncAll(c', shines).log[x] == c'.log[x] + ShineNews(shines[x])
  {
    EndsRun(c, from, p, ch);
    var c' := HandlePacket(c, from, p, ch).core;
    hide HandlePacket, LegalPacket, MovesOn, LegalSync, Synced, ShineMsgs;
    LackedIs(c', shines, p.id);
    SyncedLog(c', shines, p.id);
    NewsOfShines(shines[c.toClients[p.id]]);
  }
}
