/** What the coordinator does with one command, as functions of its state.

    The state is generic in `R`, the handle of a client's shared data: an object in the class `Coordinator`, a
    session id in the state machine of module `System`.  What the program leaves open (the iteration order of
    hash maps and sets, and which channel sends fail) is given by a `Choice`.

    A queued packet carries the session whose task forwarded it, and a message the reason it was sent.  These are
    annotations for stating properties; no decision reads them. */
module Protocol {
  import opened Utf8
  import opened Wire
  import opened Packets

  /** A session: one accepted socket, its client task and its inbox. */
  type Sid = nat

  /** `ClientData`, the part of a player's state that coordinator and client task share. */
  datatype Profile = Profile(
    name: Text, shineSync: set<i32>, scenario: byte, is2d: bool, isSeeking: bool,
    lastGame: Option<Packet>, speedrunStart: bool, loadedSave: bool, time: nat, costume: Costume)

  datatype Kind = Intro | Relayed(from: Sid) | Notice | Sync

  datatype Msg = Msg(packet: Packet, kind: Kind)

  /** What the coordinator sees of a client that asks to join. */
  datatype Joiner<R> = Joiner(sid: Sid, guid: Guid, ip: Ip, data: R)

  datatype Command<R> =
    | PacketCommand(from: Sid, packet: Packet)
    | NewPlayer(cli: Joiner<R>, connect: Packet)
    | DisconnectPlayer(guid: Guid)
    | Shutdown

  /** A shine sync that was put off: it writes to one channel and looks at one client's data when it runs. */
  datatype Delayed<R> = Delayed(chan: Sid, guid: Guid, data: R)

  datatype Settings = Settings(maxPlayers: u16, bannedPlayers: set<Guid>, bannedIps: set<Ip>)

  datatype Core<R(==)> = Core(
    clients: map<Guid, R>,
    toClients: map<Guid, Sid>,
    bag: set<i32>,
    heap: map<R, Profile>,          // the shared data behind each handle
    log: map<Sid, seq<Msg>>,        // everything ever put into each inbox
    broadcasts: seq<Msg>,           // everything ever broadcast
    queue: seq<Command<R>>,         // the coordinator's own inbox
    delayed: seq<Delayed<R>>,
    started: seq<Joiner<R>>)        // client tasks started so far

  datatype Refusal = TooManyPlayers | BannedID | BannedIP

  datatype Result = Continue | Stop | InvalidID | Refused(why: Refusal) | SendFailed

  datatype Handled<R(==)> = Handled(core: Core<R>, result: Result)

  /** The choices the program does not make itself.
      - `order`, `cut`: the players introduced to a newcomer, and how many introduction packets got through;
      - `reached`: the inboxes a broadcast got to before a send failed;
      - `undone`, `bye`: the same for the departure notice, and whether the leaver got its own;
      - `shines`: the shine ids sent to each inbox, in order. */
  datatype Choice = Choice(
    order: seq<Guid>, cut: nat, reached: set<Sid>, undone: set<Sid>, bye: bool, shines: map<Sid, seq<i32>>)

  // ---- messages ----

  /** Adds messages at the end of some inboxes. */
  function Append(log: map<Sid, seq<Msg>>, add: map<Sid, seq<Msg>>): (r: map<Sid, seq<Msg>>)
    ensures r.Keys == log.Keys
    ensures forall s :: s in log ==> r[s] == if s in add then log[s] + add[s] else log[s]
  {
    map s | s in log :: if s in add then log[s] + add[s] else log[s]
  }

  /** The same messages for each of some inboxes. */
  function To(sids: set<Sid>, ms: seq<Msg>): (r: map<Sid, seq<Msg>>)
    ensures r.Keys == sids && forall s :: s in sids ==> r[s] == ms
  {
    map s | s in sids :: ms
  }

  function ShinePacket(from: Guid, id: i32): Packet {
    NewPacket(from, Shine(id, false))
  }

  function ShineMsgs(from: Guid, ids: seq<i32>): (ms: seq<Msg>)
    ensures |ms| == |ids|
    ensures forall i :: 0 <= i < |ids| ==> ms[i] == Msg(ShinePacket(from, ids[i]), Sync)
  {
    seq(|ids|, i requires 0 <= i < |ids| => Msg(ShinePacket(from, ids[i]), Sync))
  }

  function DisconnectPacket(g: Guid): Packet {
    NewPacket(g, Disconnect)
  }

  // ---- broadcasting ----

  function Everyone<R>(c: Core<R>): set<Sid> {
    c.toClients.Values
  }

  function Broadcast<R>(c: Core<R>, p: Packet, kind: Kind, reached: set<Sid>): Core<R> {
    var m := Msg(Resize(p), kind);
    c.(log := Append(c.log, To(reached, [m])), broadcasts := c.broadcasts + [m])
  }

  function BroadcastResult<R>(c: Core<R>, reached: set<Sid>): Result {
    if reached == Everyone(c) then Continue else SendFailed
  }

  // ---- leaving ----

  function Unregister<R>(c: Core<R>, g: Guid): Core<R> {
    c.(clients := c.clients - {g}, toClients := c.toClients - {g})
  }

  /** The leaver is removed first; the others are told, and if all of them were, so is the leaver. */
  function Leave<R>(c: Core<R>, g: Guid, undone: set<Sid>, bye: bool): Handled<R> {
    if g !in c.toClients then Handled(Unregister(c, g), Continue)
    else
      var c1 := Unregister(c, g);
      var c2 := Broadcast(c1, DisconnectPacket(g), Notice, undone);
      if undone != Everyone(c1) || !bye then Handled(c2, SendFailed)
      else Handled(c2.(log := Append(c2.log, To({c.toClients[g]}, [Msg(DisconnectPacket(g), Notice)]))), Continue)
  }

  // ---- joining ----

  function Admission<R>(c: Core<R>, settings: Settings, cli: Joiner<R>): Option<Refusal> {
    if settings.maxPlayers < |c.clients| then Some(TooManyPlayers)
    else if cli.guid in settings.bannedPlayers then Some(BannedID)
    else if cli.ip in settings.bannedIps then Some(BannedIP)
    else None
  }

  /** How one player is introduced: a connect, a costume, and the last game packet if there was one. */
  function IntroOf(g: Guid, d: Profile, maxPlayers: u16): seq<Msg> {
    [Msg(NewPacket(g, Connect(FirstConnection, maxPlayers, d.name)), Intro),
     Msg(NewPacket(g, CostumeData(d.costume)), Intro)]
    + (if d.lastGame.Some? then [Msg(d.lastGame.value, Intro)] else [])
  }

  predicate HandlesLive<R>(c: Core<R>) {
    forall g :: g in c.clients ==> c.clients[g] in c.heap
  }

  function IntroAll<R>(c: Core<R>, order: seq<Guid>, maxPlayers: u16): seq<Msg>
    requires HandlesLive(c)
    requires forall i :: 0 <= i < |order| ==> order[i] in c.clients
  {
    if order == [] then []
    else
      var n := |order| - 1;
      IntroAll(c, order[..n], maxPlayers) + IntroOf(order[n], c.heap[c.clients[order[n]]], maxPlayers)
  }

  /** A returning player keeps its old data if it is still registered. */
  function DataFor<R>(c: Core<R>, cli: Joiner<R>, cType: ConnectionType): R {
    if cType == Reconnecting && cli.guid in c.clients then c.clients[cli.guid] else cli.data
  }

  function Register<R>(c: Core<R>, cli: Joiner<R>, cType: ConnectionType): Core<R> {
    var data := DataFor(c, cli, cType);
    c.(clients := c.clients[cli.guid := data],
       toClients := c.toClients[cli.guid := cli.sid],
       started := c.started + [cli.(data := data)])
  }

  predicate NoDuplicates<T(==)>(s: seq<T>) {
    forall i, j :: 0 <= i < j < |s| ==> s[i] != s[j]
  }

  predicate LegalOrder<R>(c: Core<R>, order: seq<Guid>) {
    NoDuplicates(order) && forall i :: 0 <= i < |order| ==> order[i] in c.clients
  }

  predicate Introduced<R>(c: Core<R>, order: seq<Guid>) {
    forall g :: g in c.clients ==> g in order
  }

  function Introduce<R>(c: Core<R>, sid: Sid, maxPlayers: u16, order: seq<Guid>, cut: nat): Core<R>
    requires HandlesLive(c) && LegalOrder(c, order) && cut <= |IntroAll(c, order, maxPlayers)|
  {
    c.(log := Append(c.log, To({sid}, IntroAll(c, order, maxPlayers)[..cut])))
  }

  /** All introductions got through. */
  predicate AllIntroduced<R>(c: Core<R>, maxPlayers: u16, ch: Choice)
    requires HandlesLive(c) && LegalOrder(c, ch.order) && ch.cut <= |IntroAll(c, ch.order, maxPlayers)|
  {
    Introduced(c, ch.order) && ch.cut == |IntroAll(c, ch.order, maxPlayers)|
  }

  /** `setup_player`: the newcomer is told about everyone, itself included, and then everyone about the newcomer. */
  function Setup<R>(c: Core<R>, sid: Sid, connect: Packet, maxPlayers: u16, ch: Choice): Handled<R>
    requires HandlesLive(c) && LegalOrder(c, ch.order) && ch.cut <= |IntroAll(c, ch.order, maxPlayers)|
  {
    var c1 := Introduce(c, sid, maxPlayers, ch.order, ch.cut);
    if !AllIntroduced(c, maxPlayers, ch) then Handled(c1, SendFailed)
    else Handled(Broadcast(c1, connect, Notice, ch.reached), BroadcastResult(c1, ch.reached))
  }

  /** A refused client asks, like any client that ends, for its guid to be disconnected. */
  function Refuse<R>(c: Core<R>, g: Guid): Core<R> {
    c.(queue := c.queue + [DisconnectPlayer(g)])
  }

  ghost predicate LegalJoin<R>(c: Core<R>, settings: Settings, cli: Joiner<R>, connect: Packet, ch: Choice) {
    && HandlesLive(c) && cli.data in c.heap && connect.data.Connect?
    && (Admission(c, settings, cli) == None ==>
        var c1 := Register(c, cli, connect.data.cType);
        && HandlesLive(c1) && LegalOrder(c1, ch.order) && ch.cut <= |IntroAll(c1, ch.order, settings.maxPlayers)|
        && ch.reached <= Everyone(c1) && ch.undone <= Everyone(Unregister(c1, cli.guid)))
  }

  function Join<R>(c: Core<R>, settings: Settings, cli: Joiner<R>, connect: Packet, ch: Choice): Handled<R>
    requires LegalJoin(c, settings, cli, connect, ch)
  {
    match Admission(c, settings, cli)
    case Some(why) => Handled(Refuse(c, cli.guid), Refused(why))
    case None =>
      var c1 := Register(c, cli, connect.data.cType);
      var setup := Setup(c1, cli.sid, connect, settings.maxPlayers, ch);
      if setup.result == Continue then setup
      else Handled(Leave(setup.core, cli.guid, ch.undone, ch.bye).core, SendFailed)
  }

  // ---- shines ----

  /** What a client should be sent: nothing while it is speedrunning. */
  function Missing(d: Profile, bag: set<i32>): set<i32> {
    if d.speedrunStart then {} else bag - d.shineSync
  }

  predicate LegalShines(ids: seq<i32>, d: Profile, bag: set<i32>) {
    NoDuplicates(ids) && forall i :: 0 <= i < |ids| ==> ids[i] in Missing(d, bag)
  }

  predicate AllSent(ids: seq<i32>, d: Profile, bag: set<i32>) {
    forall k :: k in Missing(d, bag) ==> k in ids
  }

  predicate LegalSync<R>(c: Core<R>, shines: map<Sid, seq<i32>>)
    requires HandlesLive(c)
  {
    && shines.Keys == Everyone(c)
    && forall g :: g in c.clients && g in c.toClients ==>
         LegalShines(shines[c.toClients[g]], c.heap[c.clients[g]], c.bag)
  }

  function ShineSends(shines: map<Sid, seq<i32>>): (r: map<Sid, seq<Msg>>)
    ensures r.Keys == shines.Keys
    ensures forall s :: s in shines ==> r[s] == ShineMsgs(DEFAULT_GUID, shines[s])
  {
    map s | s in shines :: ShineMsgs(DEFAULT_GUID, shines[s])
  }

  /** `sync_all_shines` */
  function SyncAll<R>(c: Core<R>, shines: map<Sid, seq<i32>>): Core<R> {
    c.(log := Append(c.log, ShineSends(shines)))
  }

  predicate Synced<R>(c: Core<R>, shines: map<Sid, seq<i32>>)
    requires HandlesLive(c) && shines.Keys == Everyone(c)
  {
    forall g :: g in c.clients && g in c.toClients ==>
      AllSent(shines[c.toClients[g]], c.heap[c.clients[g]], c.bag)
  }

  /** A delayed sync runs: it stamps its packets with the guid it was started for. */
  function Fire<R>(c: Core<R>, i: nat, ids: seq<i32>): Core<R>
    requires i < |c.delayed|
  {
    var d := c.delayed[i];
    c.(log := Append(c.log, To({d.chan}, ShineMsgs(d.guid, ids))), delayed := c.delayed[..i] + c.delayed[i + 1..])
  }

  // ---- packets ----

  function Ascii(s: string): seq<byte>
    requires forall i :: 0 <= i < |s| ==> s[i] as int < 0x80
  {
    seq(|s|, i requires 0 <= i < |s| => s[i] as int)
  }

  const CAP_STAGE: seq<byte> := Ascii("CapWorldHomeStage")
  const WATERFALL_STAGE: seq<byte> := Ascii("WaterfallWordHomeStage")  // spelled as in the program

  predicate IsReset(d: PacketData) {
    d.Game? && d.stage == CAP_STAGE && d.scenarioNum == 0
  }

  predicate IsWaterfall(d: PacketData) {
    d.Game? && !IsReset(d) && d.stage == WATERFALL_STAGE
  }

  function StartSpeedrun(d: Profile): Profile {
    d.(speedrunStart := true, shineSync := {})
  }

  /** A game starts over: the player's shines and the bag are cleared. */
  function Reset<R>(c: Core<R>, g: Guid): Core<R>
    requires HandlesLive(c) && g in c.clients
  {
    var r := c.clients[g];
    c.(heap := c.heap[r := StartSpeedrun(c.heap[r])], bag := {})
  }

  /** Syncing is enabled again for a player; if it had been off, a delayed sync is started. */
  function Resume<R>(c: Core<R>, g: Guid): Core<R>
    requires HandlesLive(c) && g in c.clients && g in c.toClients
  {
    var r := c.clients[g];
    c.(heap := c.heap[r := c.heap[r].(speedrunStart := false)],
       delayed := if c.heap[r].speedrunStart then c.delayed + [Delayed(c.toClients[g], g, r)] else c.delayed)
  }

  /** `clients` and `to_clients` always have the same keys. */
  predicate Coherent<R>(c: Core<R>) {
    c.clients.Keys == c.toClients.Keys
  }

  /** No two players share an inbox. */
  ghost predicate OwnInboxes(toClients: map<Guid, Sid>) {
    forall g, g' :: g in toClients && g' in toClients && toClients[g] == toClients[g'] ==> g == g'
  }

  function Collect<R>(c: Core<R>, id: i32): Core<R> {
    c.(bag := c.bag + {id})
  }

  ghost predicate LegalPacket<R>(c: Core<R>, p: Packet, ch: Choice) {
    && HandlesLive(c) && Coherent(c) && ch.reached <= Everyone(c)
    && (p.data.CostumeData? ==> LegalSync(c, ch.shines))
    && (p.data.Shine? ==> LegalSync(Collect(c, p.data.shineId), ch.shines))
  }

  function HandlePacket<R>(c: Core<R>, from: Sid, p: Packet, ch: Choice): Handled<R>
    requires LegalPacket(c, p, ch)
  {
    if p.data.Shine? then
      var c1 := Collect(c, p.data.shineId);
      Handled(SyncAll(c1, ch.shines), if Synced(c1, ch.shines) then Continue else SendFailed)
    else if p.data.CostumeData? && !Synced(c, ch.shines) then
      Handled(SyncAll(c, ch.shines), SendFailed)
    else if (IsReset(p.data) || IsWaterfall(p.data)) && p.id !in c.clients then
      Handled(c, InvalidID)
    else
      var c1 := BeforeBroadcast(c, p, ch);
      Handled(Broadcast(c1, p, Relayed(from), ch.reached), BroadcastResult(c1, ch.reached))
  }

  /** The packet is broadcast: it is no shine, and nothing fails before. */
  predicate PassedOn<R>(c: Core<R>, p: Packet, ch: Choice)
    requires LegalPacket(c, p, ch)
  {
    && !p.data.Shine?
    && (p.data.CostumeData? ==> Synced(c, ch.shines))
    && (IsReset(p.data) || IsWaterfall(p.data) ==> p.id in c.clients)
  }

  /** What a packet does before it is passed on. */
  function BeforeBroadcast<R>(c: Core<R>, p: Packet, ch: Choice): Core<R>
    requires HandlesLive(c) && Coherent(c)
    requires IsReset(p.data) || IsWaterfall(p.data) ==> p.id in c.clients
  {
    if p.data.CostumeData? then SyncAll(c, ch.shines)
    else if IsReset(p.data) then Reset(c, p.id)
    else if IsWaterfall(p.data) then Resume(c, p.id)
    else c
  }

  // ---- any command ----

  ghost predicate Legal<R>(c: Core<R>, settings: Settings, cmd: Command<R>, ch: Choice) {
    match cmd
    case PacketCommand(_, p) => LegalPacket(c, p, ch)
    case NewPlayer(cli, connect) => LegalJoin(c, settings, cli, connect, ch)
    case DisconnectPlayer(g) => ch.undone <= Everyone(Unregister(c, g))
    case Shutdown => true
  }

  function Handle<R>(c: Core<R>, settings: Settings, cmd: Command<R>, ch: Choice): Handled<R>
    requires Legal(c, settings, cmd, ch)
  {
    match cmd
    case PacketCommand(from, p) => HandlePacket(c, from, p, ch)
    case NewPlayer(cli, connect) => Join(c, settings, cli, connect, ch)
    case DisconnectPlayer(g) => Leave(c, g, ch.undone, ch.bye)
    case Shutdown => Handled(c, Stop)
  }
}
