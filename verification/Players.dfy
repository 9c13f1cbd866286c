/** What the server knows of a player, in every state of every run: each part of its data is what the last packet said
    that a session sharing the data has taken from its game, its shines and its speedrun are those since it last started
    over, and a player that reconnects keeps all of it. */
module Players {
  import opened Utf8
  import opened Wire
  import opened Packets
  import opened Protocol
  import opened ClientTask
  import opened System
  import opened Structure
  import opened Membership
  import opened TotalOrder
  import opened Effects

  // ---- one step ----

  /** The packet that a step takes from the game of a session that shares this data. */
  function TakenInto(s: Sys, l: Label, r: Sid): Option<Packet> {
    if l.Take? && l.sid in s.sessions && s.sessions[l.sid].data == r then Some(l.packet) else None
  }

  /** The packet that the coordinator handles in a step. */
  function HandledNow(s: Sys, l: Label): Option<Packet> {
    if l.Serve? && s.core.queue != [] && s.core.queue[0].PacketCommand? then Some(s.core.queue[0].packet) else None
  }

  /** Handled under a guid that is registered with this data. */
  predicate HandledFor(s: Sys, l: Label, r: Sid) {
    var h := HandledNow(s, l);
    h.Some? && h.value.id in s.core.clients && s.core.clients[h.value.id] == r
  }

  /** The player starts over: its session takes the packet, or the coordinator handles it. */
  predicate Restarts(s: Sys, l: Label, r: Sid) {
    || (TakenInto(s, l, r).Some? && StartsOver(TakenInto(s, l, r).value))
    || (HandledFor(s, l, r) && StartsOver(HandledNow(s, l).value))
  }

  /** The player moves on, which only the coordinator sees to. */
  predicate Resumes(s: Sys, l: Label, r: Sid) {
    HandledFor(s, l, r) && MovesOn(HandledNow(s, l).value)
  }

  predicate Is(o: Option<Packet>, want: PacketData -> bool) {
    o.Some? && want(o.value.data)
  }

  function Costumes(): PacketData -> bool { (d: PacketData) => d.CostumeData? }
  function Games(): PacketData -> bool { (d: PacketData) => d.Game? }
  function Times(): PacketData -> bool { (d: PacketData) => d.Tag? && d.updateType == Time }
  function States(): PacketData -> bool { (d: PacketData) => d.Tag? && d.updateType == State }
  function Shines(): PacketData -> bool { (d: PacketData) => d.Shine? }

  /** How a step changes a player's data, field by field. */
  ghost predicate Becomes(s: Sys, l: Label, r: Sid, d: Profile, d': Profile) {
    var t := TakenInto(s, l, r);
    && d'.name == d.name
    && d'.costume == (if Is(t, Costumes()) then t.value.data.costume else d.costume)
    && d'.loadedSave == (d.loadedSave || Is(t, Costumes()))
    && d'.lastGame == (if Is(t, Games()) then t else d.lastGame)
    && d'.is2d == (if Is(t, Games()) then t.value.data.is2d else d.is2d)
    && d'.scenario == (if Is(t, Games()) then t.value.data.scenarioNum else d.scenario)
    && d'.time == (if Is(t, Times()) then (t.value.data.seconds as int) + 60 * (t.value.data.minutes as int) else d.time)
    && d'.isSeeking == (if Is(t, States()) then t.value.data.isIt else d.isSeeking)
    && d'.speedrunStart == (if Restarts(s, l, r) then true else if Resumes(s, l, r) then false else d.speedrunStart)
    && d'.shineSync == (if Restarts(s, l, r) then {}
                        else if Is(t, Shines()) && d.loadedSave then d.shineSync + {t.value.data.shineId}
                        else d.shineSync)
  }

  /** The same when the packet is known that is taken into the data. */
  ghost predicate Takes(d: Profile, d': Profile, p: Packet) {
    && d'.name == d.name
    && d'.costume == (if p.data.CostumeData? then p.data.costume else d.costume)
    && d'.loadedSave == (d.loadedSave || p.data.CostumeData?)
    && d'.lastGame == (if p.data.Game? then Some(p) else d.lastGame)
    && d'.is2d == (if p.data.Game? then p.data.is2d else d.is2d)
    && d'.scenario == (if p.data.Game? then p.data.scenarioNum else d.scenario)
    && d'.time == (if p.data.Tag? && p.data.updateType == Time then (p.data.seconds as int) + 60 * (p.data.minutes as int)
                   else d.time)
    && d'.isSeeking == (if p.data.Tag? && p.data.updateType == State then p.data.isIt else d.isSeeking)
    && d'.speedrunStart == (StartsOver(p) || d.speedrunStart)
    && d'.shineSync == (if StartsOver(p) then {}
                        else if p.data.Shine? && d.loadedSave then d.shineSync + {p.data.shineId}
                        else d.shineSync)
  }

  lemma OnPacketTakes(d: Profile, p: Packet)
    ensures Takes(d, OnPacket(d, p), p)
  {
    StageNames(p);
    hide StartsOver, MovesOn, IsReset, IsWaterfall;
    if p.data.Game? {
      GameTakes(d, p);
    } else {
      OtherTakes(d, p);
    }
  }

  lemma GameTakes(d: Profile, p: Packet)
    requires p.data.Game? && (IsReset(p.data) <==> StartsOver(p))
    ensures Takes(d, OnPacket(d, p), p)
  {
    hide StartsOver, IsReset;
  }

  lemma OtherTakes(d: Profile, p: Packet)
    requires !p.data.Game? && !StartsOver(p)
    ensures Takes(d, OnPacket(d, p), p)
  {
    hide Takes, OnPacket, StartsOver;
    if p.data.CostumeData? || p.data.Shine? {
      OwnTakes(d, p);
    } else {
      TagTakes(d, p);
    }
  }

  lemma OwnTakes(d: Profile, p: Packet)
    requires (p.data.CostumeData? || p.data.Shine?) && !StartsOver(p)
    ensures Takes(d, OnPacket(d, p), p)
  {
    hide StartsOver;
  }

  lemma TagTakes(d: Profile, p: Packet)
    requires !p.data.Game? && !p.data.CostumeData? && !p.data.Shine? && !StartsOver(p)
    ensures Takes(d, OnPacket(d, p), p)
  {
    OnTag(d, p);
    hide StartsOver, OnPacket;
  }

  lemma OnTag(d: Profile, p: Packet)
    requires !p.data.Game? && !p.data.CostumeData? && !p.data.Shine?
    ensures OnPacket(d, p)
         == if !p.data.Tag? then d
            else if p.data.updateType == Time
            then d.(time := (p.data.seconds as int) + 60 * (p.data.minutes as int))
            else d.(isSeeking := p.data.isIt)
  {
  }

  lemma TakesBecomes(s: Sys, l: Label, r: Sid, d: Profile, d': Profile)
    requires l.Take? && TakenInto(s, l, r) == Some(l.packet) && Takes(d, d', l.packet)
    ensures Becomes(s, l, r, d, d')
  {
    hide StartsOver, MovesOn, TakenInto;
  }

  lemma TookBecomes(s: Sys, sid: Sid, p: Packet, r: Sid)
    requires Enabled(s, Take(sid, p)) && r in s.core.heap
    ensures r in Took(s, sid, p).core.heap
    ensures Becomes(s, Take(sid, p), r, s.core.heap[r], Took(s, sid, p).core.heap[r])
  {
    hide OnPacket, Becomes;
    if s.sessions[sid].data == r {
      OnPacketTakes(s.core.heap[r], p);
      TakesBecomes(s, Take(sid, p), r, s.core.heap[r], Took(s, sid, p).core.heap[r]);
    } else {
      NothingBecomes(s, Take(sid, p), r, s.core.heap[r]);
    }
  }

  lemma NothingBecomes(s: Sys, l: Label, r: Sid, d: Profile)
    requires TakenInto(s, l, r) == None && HandledNow(s, l) == None
    ensures Becomes(s, l, r, d, d)
  {
    hide TakenInto;
  }

  lemma HandledBecomes(s: Sys, l: Label, r: Sid, d: Profile, d': Profile)
    requires l.Serve? && HandledNow(s, l).Some?
    requires var p, mine := HandledNow(s, l).value, HandledFor(s, l, r);
             d' == (if mine && StartsOver(p) then d.(speedrunStart := true, shineSync := {})
                    else if mine && MovesOn(p) then d.(speedrunStart := false)
                    else d)
    ensures Becomes(s, l, r, d, d')
  {
    hide StartsOver, MovesOn, HandledNow;
  }

  lemma ServedBecomes(s: Sys, ch: Choice, r: Sid)
    requires CanServe(s, ch) && r in s.core.heap
    ensures r in ServedHead(s, ch).core.heap
    ensures Becomes(s, Serve(ch), r, s.core.heap[r], ServedHead(s, ch).core.heap[r])
  {
    var c := WithoutHead(s.core);
    hide Becomes, StartsOver, MovesOn, HandlePacket, Join, Leave, LegalPacket, LegalJoin, Admission, DataFor, JoinMissed;
    match s.core.queue[0]
    case PacketCommand(from, p) =>
      PacketBecomes(c, from, p, ch, r);
      HandledBecomes(s, Serve(ch), r, s.core.heap[r], ServedHead(s, ch).core.heap[r]);
    case NewPlayer(cli, connect) =>
      JoinHeap(c, s.settings, cli, connect, ch);
      NothingBecomes(s, Serve(ch), r, s.core.heap[r]);
    case DisconnectPlayer(g) =>
      LeaveFrame(c, g, ch.undone, ch.bye);
      NothingBecomes(s, Serve(ch), r, s.core.heap[r]);
    case Shutdown => NothingBecomes(s, Serve(ch), r, s.core.heap[r]);
  }

  lemma PacketBecomes(c: Core<Sid>, from: Sid, p: Packet, ch: Choice, r: Sid)
    requires LegalPacket(c, p, ch) && r in c.heap
    ensures var c', mine := HandlePacket(c, from, p, ch).core, p.id in c.clients && c.clients[p.id] == r;
            && r in c'.heap
            && c'.heap[r] == (if mine && StartsOver(p) then c.heap[r].(speedrunStart := true, shineSync := {})
                              else if mine && MovesOn(p) then c.heap[r].(speedrunStart := false)
                              else c.heap[r])
  {
    StageNames(p);
    hide StartsOver, MovesOn, HandlePacket, LegalPacket;
    if p.id in c.clients && StartsOver(p) {
      StartsRun(c, from, p, ch);
    } else if p.id in c.clients && MovesOn(p) {
      EndsRun(c, from, p, ch);
    } else {
      OthersKeepData(c, from, p, ch);
    }
  }

  lemma JoinHeap(c: Core<Sid>, settings: Settings, cli: Joiner<Sid>, connect: Packet, ch: Choice)
    requires LegalJoin(c, settings, cli, connect, ch)
    ensures Join(c, settings, cli, connect, ch).core.heap == c.heap
    ensures Join(c, settings, cli, connect, ch).core.bag == c.bag
  {
    hide Join, LegalJoin, Admission;
    if Admission(c, settings, cli).Some? {
      JoinRefused(c, settings, cli, connect, ch);
    } else {
      JoinFrame(c, settings, cli, connect, ch);
    }
  }

  lemma StepBecomes(s: Sys, l: Label, r: Sid)
    requires Enabled(s, l) && r in s.core.heap && s.core.heap.Keys == s.sessions.Keys
    ensures r in Step(s, l).core.heap && Becomes(s, l, r, s.core.heap[r], Step(s, l).core.heap[r])
  {
    hide CanServe, ServedHead, Becomes, Took;
    match l
    case Take(sid, p) => TookBecomes(s, sid, p, r);
    case Serve(ch) => ServedBecomes(s, ch, r);
    case _ =>
      OtherSteps(s, l);
      NothingBecomes(s, l, r, s.core.heap[r]);
  }

  lemma OtherSteps(s: Sys, l: Label)
    requires Enabled(s, l) && !l.Take? && !l.Serve? && s.core.heap.Keys == s.sessions.Keys
    ensures forall r :: r in s.core.heap ==> r in Step(s, l).core.heap && Step(s, l).core.heap[r] == s.core.heap[r]
    ensures Step(s, l).core.bag == s.core.bag
  {
    if l.Arrive? {
      hide NewProfile;
    } else {
      SameHeap(s, l);
    }
  }

  lemma RunHeap(run: seq<Sys>, labels: seq<Label>, n: nat)
    requires IsRun(run, labels) && n < |run|
    ensures run[n].core.heap.Keys == run[n].sessions.Keys
  {
    hide IsRun;
    RunWf(run, labels, n);
    hide TablesWf, QueueWf, SessionsWf, FreshWf;
  }

  /** Where data comes from: a session that arrives brings a name and defaults, `Mario` for both names of its costume. */
  lemma StepFresh(s: Sys, l: Label, r: Sid)
    requires Enabled(s, l) && r !in s.core.heap && r in Step(s, l).core.heap
    ensures l.Arrive? && l.newcomer == r
    ensures Default(Step(s, l).core.heap[r]) && Step(s, l).core.heap[r].name == l.connect.data.clientName
  {
    if l.Arrive? {
      NewProfileIsDefault(l.connect.data.clientName);
      hide NewProfile, Default;
    } else {
      KeysStay(s, l);
      hide Step, Enabled;
    }
  }

  lemma NewProfileIsDefault(name: Text)
    ensures Default(NewProfile(name)) && NewProfile(name).name == name
  {
    MarioIsMario();
    hide Spells;
  }

  lemma MarioIsMario()
    ensures Spells(MARIO, "Mario")
  {
    assert MARIO == [0x4D, 0x61, 0x72, 0x69, 0x6F];
    assert "Mario"[0] as int == 0x4D && "Mario"[1] as int == 0x61 && "Mario"[2] as int == 0x72;
    assert "Mario"[3] as int == 0x69 && "Mario"[4] as int == 0x6F;
  }

  lemma KeysStay(s: Sys, l: Label)
    requires Enabled(s, l) && !l.Arrive?
    ensures Step(s, l).core.heap.Keys == s.core.heap.Keys
  {
    match l
    case Serve(ch) => ServedHeap(s, ch);
    case Take(_, _) => hide OnPacket;
    case _ => SameHeap(s, l);
  }

  lemma ServedHeap(s: Sys, ch: Choice)
    requires CanServe(s, ch)
    ensures ServedHead(s, ch).core.heap.Keys == s.core.heap.Keys
  {
    var c := WithoutHead(s.core);
    hide HandlePacket, Join, Leave, LegalPacket, LegalJoin, Admission, DataFor;
    match s.core.queue[0]
    case PacketCommand(from, p) => PacketFrame(c, from, p, ch);
    case NewPlayer(cli, connect) => JoinHeap(c, s.settings, cli, connect, ch);
    case DisconnectPlayer(g) => LeaveFrame(c, g, ch.undone, ch.bye);
    case Shutdown =>
  }

  predicate Default(d: Profile) {
    && d.shineSync == {} && d.scenario == 0 && !d.is2d && !d.isSeeking && d.lastGame == None
    && !d.speedrunStart && !d.loadedSave && d.time == 0
    && Spells(d.costume.bodyName, "Mario") && Spells(d.costume.capName, "Mario")
  }

  // ---- whole runs ----

  /** The last packet of some kind that was taken into this data. */
  ghost function LastTaken(run: seq<Sys>, labels: seq<Label>, n: nat, r: Sid, want: PacketData -> bool): (p: Option<Packet>)
    requires |run| == |labels| + 1 && n < |run|
    ensures p.Some? ==> want(p.value.data)
  {
    if n == 0 then None
    else if Is(TakenInto(run[n - 1], labels[n - 1], r), want) then TakenInto(run[n - 1], labels[n - 1], r)
    else LastTaken(run, labels, n - 1, r, want)
  }

  /** Nothing is taken into data that is not there yet. */
  lemma {:induction false} NothingTaken(run: seq<Sys>, labels: seq<Label>, n: nat, r: Sid, want: PacketData -> bool)
    requires IsRun(run, labels) && n < |run| && r !in run[n].core.heap
    ensures LastTaken(run, labels, n, r, want) == None
  {
    hide Step;
    if n > 0 {
      var s, l := run[n - 1], labels[n - 1];
      if r in s.core.heap {
        RunHeap(run, labels, n - 1);
        StepBecomes(s, l, r);
        assert false;
      }
      NothingTaken(run, labels, n - 1, r, want);
      TakesThere(s, l);
    }
  }

  lemma TakesThere(s: Sys, l: Label)
    requires Enabled(s, l)
    ensures l.Take? ==> l.sid in s.sessions && s.sessions[l.sid].data in s.core.heap
  {
  }

  /** A player's data in terms of the last packets taken into it. */
  ghost predicate IsLast(d: Profile, costume: Option<Packet>, game: Option<Packet>, time: Option<Packet>,
                         state: Option<Packet>)
    requires Is(costume, Costumes()) || costume == None
    requires Is(game, Games()) || game == None
    requires Is(time, Times()) || time == None
    requires Is(state, States()) || state == None
  {
    && (costume.Some? ==> d.costume == costume.value.data.costume)
    && (costume == None ==> Spells(d.costume.bodyName, "Mario") && Spells(d.costume.capName, "Mario"))
    && d.loadedSave == costume.Some?
    && d.lastGame == game
    && d.is2d == (game.Some? && game.value.data.is2d)
    && d.scenario == (if game.Some? then game.value.data.scenarioNum else 0)
    && d.time == (if time.Some? then (time.value.data.seconds as int) + 60 * (time.value.data.minutes as int) else 0)
    && d.isSeeking == (state.Some? && state.value.data.isIt)
  }

  /** In every run: a player's costume, last game packet, stage, time and role are those of the last packet about them
      that a session sharing its data has taken, or the defaults if there was none. */
  lemma {:induction false} ProfileIsLast(run: seq<Sys>, labels: seq<Label>, n: nat, r: Sid)
    requires IsRun(run, labels) && n < |run| && r in run[n].core.heap
    ensures IsLast(run[n].core.heap[r],
                   LastTaken(run, labels, n, r, Costumes()), LastTaken(run, labels, n, r, Games()),
                   LastTaken(run, labels, n, r, Times()), LastTaken(run, labels, n, r, States()))
  {
    hide Step, Enabled, TakenInto, Restarts, Resumes, Spells;
    if n == 0 {
      assert false;
    } else {
      var s, l := run[n - 1], labels[n - 1];
      if r in s.core.heap {
        ProfileIsLast(run, labels, n - 1, r);
        RunHeap(run, labels, n - 1);
        StepBecomes(s, l, r);
      } else {
        StepFresh(s, l, r);
        NothingTaken(run, labels, n - 1, r, Costumes());
        NothingTaken(run, labels, n - 1, r, Games());
        NothingTaken(run, labels, n - 1, r, Times());
        NothingTaken(run, labels, n - 1, r, States());
        ArrivesOnly(s, l, r);
      }
    }
  }

  lemma ArrivesOnly(s: Sys, l: Label, r: Sid)
    requires l.Arrive?
    ensures TakenInto(s, l, r) == None
  {
  }

  // ---- shines and speedruns ----

  /** A shine is noted at step `j`, and the player has not started over since. */
  ghost predicate ShineSince(run: seq<Sys>, labels: seq<Label>, n: nat, r: Sid, k: i32, j: nat)
    requires |run| == |labels| + 1 && n < |run|
  {
    && j < n && Notes(run[j], labels[j], r, k)
    && forall m :: j < m < n ==> !Restarts(run[m], labels[m], r)
  }

  /** A session takes a shine while the player's save is loaded. */
  predicate Notes(s: Sys, l: Label, r: Sid, k: i32) {
    var t := TakenInto(s, l, r);
    Is(t, Shines()) && t.value.data.shineId == k && r in s.core.heap && s.core.heap[r].loadedSave
  }

  /** A player is thought to have exactly the shines that sessions sharing its data have taken, with a costume known,
      since it last started over. */
  lemma {:induction false} ShinesExactly(run: seq<Sys>, labels: seq<Label>, n: nat, r: Sid, k: i32)
    requires IsRun(run, labels) && n < |run| && r in run[n].core.heap
    ensures k in run[n].core.heap[r].shineSync <==> exists j :: ShineSince(run, labels, n, r, k, j)
  {
    hide Step, Enabled, Restarts, Resumes, Notes;
    if n == 0 {
      assert false;
    } else {
      var s, l := run[n - 1], labels[n - 1];
      if r in s.core.heap {
        ShinesExactly(run, labels, n - 1, r, k);
        RunHeap(run, labels, n - 1);
        StepBecomes(s, l, r);
        NotesIs(s, l, r, k);
        ShineMore(run, labels, n - 1, n, r, k);
      } else {
        StepFresh(s, l, r);
        NeverNoted(run, labels, n, r, k);
      }
    }
  }

  lemma NotesIs(s: Sys, l: Label, r: Sid, k: i32)
    requires r in s.core.heap
    ensures Notes(s, l, r, k) <==> Is(TakenInto(s, l, r), Shines()) && s.core.heap[r].loadedSave
                                   && TakenInto(s, l, r).value.data.shineId == k
    ensures Notes(s, l, r, k) ==> !Restarts(s, l, r)
  {
    hide Spells;
  }

  lemma ShineMore(run: seq<Sys>, labels: seq<Label>, m: nat, n: nat, r: Sid, k: i32)
    requires |run| == |labels| + 1 && n == m + 1 && n < |run|
    ensures (exists j :: ShineSince(run, labels, n, r, k, j))
            <==> Notes(run[m], labels[m], r, k)
                 || (!Restarts(run[m], labels[m], r) && exists j :: ShineSince(run, labels, m, r, k, j))
  {
    hide Notes, Restarts;
    if exists j :: ShineSince(run, labels, n, r, k, j) {
      var j: nat :| ShineSince(run, labels, n, r, k, j);
      if j < m {
        assert ShineSince(run, labels, m, r, k, j);
      }
    }
    if Notes(run[m], labels[m], r, k) {
      assert ShineSince(run, labels, n, r, k, m);
    }
    if !Restarts(run[m], labels[m], r) && exists j :: ShineSince(run, labels, m, r, k, j) {
      var j: nat :| ShineSince(run, labels, m, r, k, j);
      assert ShineSince(run, labels, n, r, k, j);
    }
  }

  lemma NeverNoted(run: seq<Sys>, labels: seq<Label>, n: nat, r: Sid, k: i32)
    requires IsRun(run, labels) && 0 < n < |run| && r !in run[n - 1].core.heap
    ensures forall j :: !ShineSince(run, labels, n, r, k, j)
  {
    hide Step, Enabled, Restarts;
    forall j: nat | j < n ensures !Notes(run[j], labels[j], r, k) {
      if Notes(run[j], labels[j], r, k) {
        HeapGrows(run, labels, j, n - 1, r);
      }
    }
  }

  lemma {:induction false} HeapGrows(run: seq<Sys>, labels: seq<Label>, j: nat, n: nat, r: Sid)
    requires IsRun(run, labels) && j <= n < |run| && r in run[j].core.heap
    ensures r in run[n].core.heap
    decreases n
  {
    hide Step, Enabled;
    if j < n {
      HeapGrows(run, labels, j, n - 1, r);
      RunHeap(run, labels, n - 1);
      StepBecomes(run[n - 1], labels[n - 1], r);
    }
  }

  ghost predicate RunSince(run: seq<Sys>, labels: seq<Label>, n: nat, r: Sid, j: nat)
    requires |run| == |labels| + 1 && n < |run|
  {
    && j < n && Restarts(run[j], labels[j], r)
    && forall m :: j < m < n ==> !Resumes(run[m], labels[m], r)
  }

  /** A player is on a speedrun exactly if it has started over and the coordinator has not seen it move on since. */
  lemma {:induction false} SpeedrunExactly(run: seq<Sys>, labels: seq<Label>, n: nat, r: Sid)
    requires IsRun(run, labels) && n < |run| && r in run[n].core.heap
    ensures run[n].core.heap[r].speedrunStart <==> exists j :: RunSince(run, labels, n, r, j)
  {
    hide Step, Enabled, Restarts, Resumes;
    if n == 0 {
      assert false;
    } else {
      var s, l := run[n - 1], labels[n - 1];
      NotBoth(s, l, r);
      if r in s.core.heap {
        SpeedrunExactly(run, labels, n - 1, r);
        RunHeap(run, labels, n - 1);
        StepBecomes(s, l, r);
        RunMore(run, labels, n - 1, n, r);
      } else {
        StepFresh(s, l, r);
        NeverStarted(run, labels, n, r);
      }
    }
  }

  lemma NotBoth(s: Sys, l: Label, r: Sid)
    ensures !(Restarts(s, l, r) && Resumes(s, l, r))
  {
    if HandledNow(s, l).Some? {
      StageNames(HandledNow(s, l).value);
    }
    hide StartsOver, MovesOn;
  }

  lemma RunMore(run: seq<Sys>, labels: seq<Label>, m: nat, n: nat, r: Sid)
    requires |run| == |labels| + 1 && n == m + 1 && n < |run|
    ensures (exists j :: RunSince(run, labels, n, r, j))
            <==> Restarts(run[m], labels[m], r)
                 || (!Resumes(run[m], labels[m], r) && exists j :: RunSince(run, labels, m, r, j))
  {
    hide Resumes, Restarts;
    if exists j :: RunSince(run, labels, n, r, j) {
      var j: nat :| RunSince(run, labels, n, r, j);
      if j < m {
        assert RunSince(run, labels, m, r, j);
      }
    }
    if Restarts(run[m], labels[m], r) {
      assert RunSince(run, labels, n, r, m);
    }
    if !Resumes(run[m], labels[m], r) && exists j :: RunSince(run, labels, m, r, j) {
      var j: nat :| RunSince(run, labels, m, r, j);
      assert RunSince(run, labels, n, r, j);
    }
  }

  lemma NeverStarted(run: seq<Sys>, labels: seq<Label>, n: nat, r: Sid)
    requires IsRun(run, labels) && 0 < n < |run| && r !in run[n - 1].core.heap && labels[n - 1].Arrive?
    ensures forall j :: !RunSince(run, labels, n, r, j)
  {
    hide Step, Enabled, StartsOver;
    forall j: nat | j < n ensures !Restarts(run[j], labels[j], r) {
      if Restarts(run[j], labels[j], r) {
        RestartsThere(run, labels, j, r);
        HeapGrows(run, labels, j, n - 1, r);
      }
    }
  }

  lemma RestartsThere(run: seq<Sys>, labels: seq<Label>, j: nat, r: Sid)
    requires IsRun(run, labels) && j < |labels| && Restarts(run[j], labels[j], r)
    ensures r in run[j].core.heap
  {
    TakesThere(run[j], labels[j]);
    RunWf(run, labels, j);
    hide StartsOver, Step, Enabled;
    if HandledFor(run[j], labels[j], r) {
      RegisteredData(run[j], HandledNow(run[j], labels[j]).value.id);
    }
  }

  lemma RegisteredData(s: Sys, g: Guid)
    requires Wf(s) && g in s.core.clients
    ensures s.core.clients[g] in s.core.heap
  {
    hide QueueWf, SessionsWf, FreshWf;
  }

  /** The coordinator starts everyone's shines over. */
  predicate ClearsBag(s: Sys, l: Label) {
    var h := HandledNow(s, l);
    h.Some? && StartsOver(h.value) && h.value.id in s.core.clients
  }

  predicate Collects(s: Sys, l: Label, k: i32) {
    var h := HandledNow(s, l);
    h.Some? && h.value.data.Shine? && h.value.data.shineId == k
  }

  ghost predicate CollectedSince(run: seq<Sys>, labels: seq<Label>, n: nat, k: i32, j: nat)
    requires |run| == |labels| + 1 && n < |run|
  {
    && j < n && Collects(run[j], labels[j], k)
    && forall m :: j < m < n ==> !ClearsBag(run[m], labels[m])
  }

  lemma StepBagIs(s: Sys, l: Label, k: i32)
    requires Enabled(s, l) && s.core.heap.Keys == s.sessions.Keys
    ensures k in Step(s, l).core.bag <==> Collects(s, l, k) || (k in s.core.bag && !ClearsBag(s, l))
  {
    hide CanServe, ServedHead, StartsOver, MovesOn;
    if l.Serve? {
      ServedBagIs(s, l.choice, k);
    } else if l.Take? {
      hide OnPacket;
    } else {
      OtherSteps(s, l);
    }
  }

  lemma PacketBagIs(c: Core<Sid>, from: Sid, p: Packet, ch: Choice)
    requires LegalPacket(c, p, ch)
    ensures HandlePacket(c, from, p, ch).core.bag
         == if StartsOver(p) && p.id in c.clients then {}
            else if p.data.Shine? then c.bag + {p.data.shineId}
            else c.bag
  {
    StageNames(p);
    hide StartsOver, MovesOn, HandlePacket, LegalPacket;
    if p.id in c.clients && StartsOver(p) {
      StartsRun(c, from, p, ch);
    } else if p.id in c.clients && MovesOn(p) {
      EndsRun(c, from, p, ch);
    } else {
      OthersKeepData(c, from, p, ch);
    }
  }

  lemma HandledBag(s: Sys, l: Label, p: Packet, bag: set<i32>, k: i32)
    requires HandledNow(s, l) == Some(p)
    requires bag == if StartsOver(p) && p.id in s.core.clients then {}
                    else if p.data.Shine? then s.core.bag + {p.data.shineId}
                    else s.core.bag
    ensures k in bag <==> Collects(s, l, k) || (k in s.core.bag && !ClearsBag(s, l))
  {
    StageNames(p);
    hide StartsOver, MovesOn, HandledNow;
  }

  lemma ServedBagIs(s: Sys, ch: Choice, k: i32)
    requires CanServe(s, ch)
    ensures k in ServedHead(s, ch).core.bag <==> Collects(s, Serve(ch), k) || (k in s.core.bag && !ClearsBag(s, Serve(ch)))
  {
    var c := WithoutHead(s.core);
    hide Collects, ClearsBag, StartsOver, HandlePacket, Join, Leave, LegalPacket, LegalJoin, Admission, DataFor, JoinMissed,
      PassedOn;
    match s.core.queue[0]
    case PacketCommand(from, p) =>
      PacketBagIs(c, from, p, ch);
      HandledBag(s, Serve(ch), p, ServedHead(s, ch).core.bag, k);
    case NewPlayer(cli, connect) =>
      JoinHeap(c, s.settings, cli, connect, ch);
      NothingHandled(s, Serve(ch), k);
    case DisconnectPlayer(g) =>
      LeaveFrame(c, g, ch.undone, ch.bye);
      NothingHandled(s, Serve(ch), k);
    case Shutdown => NothingHandled(s, Serve(ch), k);
  }

  lemma NothingHandled(s: Sys, l: Label, k: i32)
    requires HandledNow(s, l) == None
    ensures !Collects(s, l, k) && !ClearsBag(s, l)
  {
    hide HandledNow;
  }

  /** The bag holds exactly the shines that the coordinator has handled since a registered player last started over. */
  lemma {:induction false} BagExactly(run: seq<Sys>, labels: seq<Label>, n: nat, k: i32)
    requires IsRun(run, labels) && n < |run|
    ensures k in run[n].core.bag <==> exists j :: CollectedSince(run, labels, n, k, j)
  {
    hide Step, Enabled, Collects, ClearsBag;
    if n > 0 {
      BagExactly(run, labels, n - 1, k);
      RunHeap(run, labels, n - 1);
      StepBagIs(run[n - 1], labels[n - 1], k);
      BagMore(run, labels, n - 1, n, k);
    }
  }

  lemma BagMore(run: seq<Sys>, labels: seq<Label>, m: nat, n: nat, k: i32)
    requires |run| == |labels| + 1 && n == m + 1 && n < |run|
    ensures (exists j :: CollectedSince(run, labels, n, k, j))
            <==> Collects(run[m], labels[m], k)
                 || (!ClearsBag(run[m], labels[m]) && exists j :: CollectedSince(run, labels, m, k, j))
  {
    hide Collects, ClearsBag;
    if exists j :: CollectedSince(run, labels, n, k, j) {
      var j: nat :| CollectedSince(run, labels, n, k, j);
      if j < m {
        assert CollectedSince(run, labels, m, k, j);
      }
    }
    if Collects(run[m], labels[m], k) {
      assert CollectedSince(run, labels, n, k, m);
    }
    if !ClearsBag(run[m], labels[m]) && exists j :: CollectedSince(run, labels, m, k, j) {
      var j: nat :| CollectedSince(run, labels, m, k, j);
      assert CollectedSince(run, labels, n, k, j);
    }
  }

  // ---- whose data it is ----

  /** The coordinator and the registered session of a player look at the same data. */
  ghost predicate Shares(s: Sys) {
    forall g :: g in s.core.toClients ==>
      && g in s.core.clients && s.core.toClients[g] in s.sessions
      && s.sessions[s.core.toClients[g]].data == s.core.clients[g]
  }

  /** No entry of the tables is new or different, and no registered session has changed its data. */
  lemma StillShares(s: Sys, s': Sys)
    requires Shares(s)
    requires forall g :: g in s'.core.toClients ==>
               && g in s.core.toClients && s'.core.toClients[g] == s.core.toClients[g]
               && (g in s.core.clients ==> g in s'.core.clients && s'.core.clients[g] == s.core.clients[g])
    requires forall x :: x in s.sessions ==> x in s'.sessions && s'.sessions[x].data == s.sessions[x].data
    ensures Shares(s')
  {
  }

  /** How serving a join may end: nobody is registered, the newcomer is, with this data, or whoever was registered under
      its guid is not any more. */
  ghost predicate Unchanged(s: Sys, s': Sys, x: Sid) {
    && s'.core.clients == s.core.clients && s'.core.toClients == s.core.toClients
    && x in s.sessions && x in s'.sessions && s'.sessions[x].data == s.sessions[x].data
  }

  ghost predicate Entered(s: Sys, s': Sys, g: Guid, x: Sid, data: Sid) {
    && s'.core.toClients == s.core.toClients[g := x] && s'.core.clients == s.core.clients[g := data]
    && x in s'.sessions && s'.sessions[x].data == data
  }

  ghost predicate TakenOut(s: Sys, s': Sys, g: Guid) {
    s'.core.toClients == s.core.toClients - {g} && s'.core.clients == s.core.clients - {g}
  }

  /** A returning player's data, or the newcomer's own. */
  function DataOf(s: Sys, cli: Joiner<Sid>, connect: Packet): Sid {
    if connect.data.Connect? && connect.data.cType == Reconnecting && cli.guid in s.core.clients
    then s.core.clients[cli.guid] else cli.data
  }

  ghost predicate OthersKeep(s: Sys, s': Sys, x: Sid) {
    s'.sessions.Keys == s.sessions.Keys
    && forall y :: y in s.sessions && y != x ==> s'.sessions[y].data == s.sessions[y].data
  }

  lemma JoinEndShares(s: Sys, s': Sys, g: Guid, x: Sid, data: Sid)
    requires Shares(s) && OthersKeep(s, s', x) && forall h :: h in s.core.toClients ==> s.core.toClients[h] != x
    requires Unchanged(s, s', x) || Entered(s, s', g, x, data) || TakenOut(s, s', g)
    ensures Shares(s')
  {
  }

  lemma ServedJoinShares(s: Sys, ch: Choice)
    requires CanServe(s, ch) && s.core.queue[0].NewPlayer? && Shares(s)
    requires Wf(s)
    ensures Shares(ServedHead(s, ch))
  {
    var cli, connect := s.core.queue[0].cli, s.core.queue[0].connect;
    hide Shares, CanServe, ServedHead, Wf, Unchanged, Entered, TakenOut, OthersKeep;
    NotRegistered(s);
    ServedJoinData(s, ch);
    JoinEndShares(s, ServedHead(s, ch), cli.guid, cli.sid, DataOf(s, cli, connect));
  }

  lemma NotRegistered(s: Sys)
    requires s.core.queue != [] && s.core.queue[0].NewPlayer?
    requires Wf(s)
    ensures forall g :: g in s.core.toClients ==> s.core.toClients[g] != s.core.queue[0].cli.sid
  {
    hide SessionsWf, FreshWf;
    assert CommandWf(s.core.queue[0], Known(s.sessions), Newcomers(s.sessions));
  }

  lemma JoinEnds(c: Core<Sid>, settings: Settings, cli: Joiner<Sid>, connect: Packet, ch: Choice)
    requires LegalJoin(c, settings, cli, connect, ch)
    ensures var h, g := Join(c, settings, cli, connect, ch), cli.guid;
            var data := if connect.data.Connect? && connect.data.cType == Reconnecting && g in c.clients
                        then c.clients[g] else cli.data;
            if Admission(c, settings, cli).Some? then h.core.clients == c.clients && h.core.toClients == c.toClients
            else if h.result == Continue then
              h.core.toClients == c.toClients[g := cli.sid] && h.core.clients == c.clients[g := data]
            else h.core.toClients == c.toClients - {g} && h.core.clients == c.clients - {g}
  {
    assert connect.data.Connect?;
    hide Join, LegalJoin, Admission, DataFor;
    if Admission(c, settings, cli).Some? {
      JoinRefused(c, settings, cli, connect, ch);
    } else {
      JoinFrame(c, settings, cli, connect, ch);
      DataForIs(c, cli, connect.data.cType);
      WithAndWithout(c.clients, cli.guid, DataFor(c, cli, connect.data.cType));
      WithAndWithout(c.toClients, cli.guid, cli.sid);
    }
  }

  lemma DataForIs(c: Core<Sid>, cli: Joiner<Sid>, cType: ConnectionType)
    ensures DataFor(c, cli, cType)
         == if cType == Reconnecting && cli.guid in c.clients then c.clients[cli.guid] else cli.data
  {
  }

  lemma WithAndWithout(m: map<Guid, Sid>, g: Guid, x: Sid)
    ensures m[g := x] - {g} == m - {g}
  {
  }

  lemma ServedJoinSessions(s: Sys, ch: Choice)
    requires CanServe(s, ch) && s.core.queue[0].NewPlayer?
    ensures var cli, connect, s', c := s.core.queue[0].cli, s.core.queue[0].connect, ServedHead(s, ch), WithoutHead(s.core);
            && connect.data.Connect? && LegalJoin(c, s.settings, cli, connect, ch)
            && s'.core == Join(c, s.settings, cli, connect, ch).core
            && cli.sid in s.sessions && cli.sid in s'.sessions && OthersKeep(s, s', cli.sid)
            && s'.sessions[cli.sid].data == (if Admission(c, s.settings, cli).Some? then s.sessions[cli.sid].data
                                             else DataFor(c, cli, connect.data.cType))
  {
    hide Join, LegalJoin, ServeJoin, Admission, DataFor, JoinMissed;
    ServeJoinShape(Dequeued(s), s.core.queue[0].cli, s.core.queue[0].connect, ch);
  }

  /** What serving a join does to the tables and to whose data the newcomer uses. */
  lemma ServedJoinData(s: Sys, ch: Choice)
    requires CanServe(s, ch) && s.core.queue[0].NewPlayer?
    ensures var cli, connect, s' := s.core.queue[0].cli, s.core.queue[0].connect, ServedHead(s, ch);
            && connect.data.Connect? && OthersKeep(s, s', cli.sid)
            && (|| Unchanged(s, s', cli.sid)
                || Entered(s, s', cli.guid, cli.sid, DataOf(s, cli, connect))
                || TakenOut(s, s', cli.guid))
  {
    var c, cli, connect := WithoutHead(s.core), s.core.queue[0].cli, s.core.queue[0].connect;
    ServedJoinSessions(s, ch);
    DataForIs(c, cli, connect.data.cType);
    hide CanServe, ServedHead, Join, LegalJoin, Admission, DataFor, OthersKeep;
    JoinEnds(c, s.settings, cli, connect, ch);
  }

  lemma ServedShares(s: Sys, ch: Choice)
    requires CanServe(s, ch) && Shares(s)
    requires Wf(s)
    ensures Shares(ServedHead(s, ch))
  {
    if s.core.queue[0].NewPlayer? {
      ServedJoinShares(s, ch);
    } else {
      ServedOtherTables(s, ch);
      hide CanServe, ServedHead, Wf, Shares;
      StillShares(s, ServedHead(s, ch));
    }
  }

  lemma ServedOtherTables(s: Sys, ch: Choice)
    requires CanServe(s, ch) && !s.core.queue[0].NewPlayer?
    ensures var s' := ServedHead(s, ch);
            && (forall g :: g in s'.core.toClients ==>
                  && g in s.core.toClients && s'.core.toClients[g] == s.core.toClients[g]
                  && (g in s.core.clients ==> g in s'.core.clients && s'.core.clients[g] == s.core.clients[g]))
            && forall x :: x in s.sessions ==> x in s'.sessions && s'.sessions[x].data == s.sessions[x].data
  {
    hide HandlePacket, LegalPacket, Join, LegalJoin, Leave;
    match s.core.queue[0]
    case PacketCommand(from, p) => ServedPacketTables(s, ch);
    case DisconnectPlayer(g) => ServedLeaveTables(s, ch);
    case Shutdown => assert ServedHead(s, ch).core == WithoutHead(s.core) && ServedHead(s, ch).sessions == s.sessions;
  }

  lemma ServedLeaveTables(s: Sys, ch: Choice)
    requires CanServe(s, ch) && s.core.queue[0].DisconnectPlayer?
    ensures var s', g := ServedHead(s, ch), s.core.queue[0].guid;
            && s'.core.toClients == s.core.toClients - {g} && s'.core.clients == s.core.clients - {g}
            && s'.sessions == s.sessions
  {
    hide Leave, LeaveMissed, HandlePacket, LegalPacket, Join, LegalJoin;
    LeaveFrame(WithoutHead(s.core), s.core.queue[0].guid, ch.undone, ch.bye);
  }

  lemma ServedPacketTables(s: Sys, ch: Choice)
    requires CanServe(s, ch) && s.core.queue[0].PacketCommand?
    ensures var s' := ServedHead(s, ch);
            && s'.core.toClients == s.core.toClients && s'.core.clients == s.core.clients
            && forall x :: x in s.sessions ==> x in s'.sessions && s'.sessions[x].data == s.sessions[x].data
  {
    var from, p := s.core.queue[0].from, s.core.queue[0].packet;
    hide HandlePacket, LegalPacket, PassedOn;
    ServePacketShape(Dequeued(s), from, p, ch);
    PacketFrame(WithoutHead(s.core), from, p, ch);
  }

  lemma StepShares(s: Sys, l: Label)
    requires Enabled(s, l) && Shares(s)
    requires Wf(s)
    ensures Shares(Step(s, l))
  {
    if l.Serve? {
      ServedShares(s, l.choice);
    } else {
      OtherTables(s, l);
      hide Step, Enabled, Wf, Shares;
      StillShares(s, Step(s, l));
    }
  }

  lemma OtherTables(s: Sys, l: Label)
    requires Enabled(s, l) && !l.Serve?
    ensures var s' := Step(s, l);
            && (forall g :: g in s'.core.toClients ==>
                  && g in s.core.toClients && s'.core.toClients[g] == s.core.toClients[g]
                  && (g in s.core.clients ==> g in s'.core.clients && s'.core.clients[g] == s.core.clients[g]))
            && forall x :: x in s.sessions ==> x in s'.sessions && s'.sessions[x].data == s.sessions[x].data
  {
    hide CanServe, ServedHead, Leave, LegalShines, Append, Writes, EndsSession, LeaveMissed, NewProfile, OnPacket;
    if l.Drain? {
      LeaveFrame(s.core, l.leaver, l.undone, l.bye);
    }
  }

  /** In every reachable state the coordinator keeps for each player the very data that the player's registered session
      writes to. */
  lemma {:induction false} RunShares(run: seq<Sys>, labels: seq<Label>, n: nat)
    requires IsRun(run, labels) && n < |run|
    ensures Shares(run[n])
  {
    hide Step, Enabled, Wf, Shares;
    if n == 0 {
      assert Shares(run[0]) by { StartsShared(run[0]); }
    } else {
      RunShares(run, labels, n - 1);
      RunWf(run, labels, n - 1);
      StepShares(run[n - 1], labels[n - 1]);
    }
  }

  lemma StartsShared(s: Sys)
    requires Initial(s)
    ensures Shares(s)
  {
  }

  /** A join that the coordinator has let in: a reconnection under a registered guid goes on with the data that was
      registered, unchanged; any other newcomer has its own, fresh since it arrived. */
  lemma ReconnectionKeeps(run: seq<Sys>, labels: seq<Label>, n: nat, ch: Choice)
    requires IsRun(run, labels) && n < |run| && CanServe(run[n], ch) && run[n].core.queue[0].NewPlayer?
    requires var cli, s' := run[n].core.queue[0].cli, ServedHead(run[n], ch);
             cli.guid in s'.core.toClients && s'.core.toClients[cli.guid] == cli.sid
    ensures var s, s', cli := run[n], ServedHead(run[n], ch), run[n].core.queue[0].cli;
            var connect, g, x := s.core.queue[0].connect, cli.guid, cli.sid;
            && connect.data.Connect? && x in s'.sessions && g in s'.core.clients
            && s'.core.heap == s.core.heap
            && s'.sessions[x].data == s'.core.clients[g]
            && (connect.data.cType == Reconnecting && g in s.core.clients ==> s'.core.clients[g] == s.core.clients[g])
            && (connect.data.cType == FirstConnection || g !in s.core.clients ==>
                  s'.core.clients[g] == x && x in s.core.heap && Fresh(s.core.heap[x]))
  {
    var s := run[n];
    RunWf(run, labels, n);
    NotRegistered(s);
    ServedJoinData(s, ch);
    NewcomerFresh(s);
    ServedJoinHeap(s, ch);
    hide IsRun, CanServe, ServedHead, Wf, Fresh;
  }

  lemma ServedJoinHeap(s: Sys, ch: Choice)
    requires CanServe(s, ch) && s.core.queue[0].NewPlayer?
    ensures ServedHead(s, ch).core.heap == s.core.heap
  {
    hide Join, LegalJoin, HandlePacket, LegalPacket, Leave, Admission, JoinMissed, DataFor;
    JoinHeap(WithoutHead(s.core), s.settings, s.core.queue[0].cli, s.core.queue[0].connect, ch);
  }

  lemma NewcomerFresh(s: Sys)
    requires s.core.queue != [] && s.core.queue[0].NewPlayer?
    requires Wf(s)
    ensures var cli := s.core.queue[0].cli;
            cli.data == cli.sid && cli.sid in s.core.heap && Fresh(s.core.heap[cli.sid]) && cli.sid in s.core.log
  {
    hide TablesWf, SessionsWf;
    assert CommandWf(s.core.queue[0], Known(s.sessions), Newcomers(s.sessions));
  }

  /** What a newcomer is shown of each player is what the player's game last said: its last costume, and its last game
      packet. */
  lemma ShownIsLast(run: seq<Sys>, labels: seq<Label>, n: nat, ch: Choice)
    returns (told: seq<Packet>, players: seq<Guid>)
    requires IsRun(run, labels) && n < |run| && CanServe(run[n], ch) && run[n].core.queue[0].NewPlayer?
    requires var cli, s' := run[n].core.queue[0].cli, ServedHead(run[n], ch);
             cli.guid in s'.core.toClients && s'.core.toClients[cli.guid] == cli.sid
    ensures var s, s', x := run[n], ServedHead(run[n], ch), run[n].core.queue[0].cli.sid;
            && HandlesLive(s'.core) && IsOrderOf(players, s'.core.clients.Keys)
            && Shows(told, players, Profiles(s'.core), s.settings.maxPlayers)
            && Hears(s.core, s'.core, x, told + [s.core.queue[0].connect.(dataSize := 38)])
            && forall g :: g in s'.core.clients ==>
                 var r := s'.core.clients[g];
                 r in s.core.heap && s'.core.heap[r] == s.core.heap[r]
                 && IsLast(Profiles(s'.core)[g],
                           LastTaken(run, labels, n, r, Costumes()), LastTaken(run, labels, n, r, Games()),
                           LastTaken(run, labels, n, r, Times()), LastTaken(run, labels, n, r, States()))
  {
    var s, s' := run[n], ServedHead(run[n], ch);
    told, players := JoinShown(run, labels, n, ch);
    ServedJoinHeap(s, ch);
    hide IsRun, CanServe, ServedHead, Shows, Hears, IsOrderOf, IsLast, LastTaken;
    forall g | g in s'.core.clients
      ensures var r := s'.core.clients[g];
              r in s.core.heap && s'.core.heap[r] == s.core.heap[r]
              && IsLast(Profiles(s'.core)[g],
                        LastTaken(run, labels, n, r, Costumes()), LastTaken(run, labels, n, r, Games()),
                        LastTaken(run, labels, n, r, Times()), LastTaken(run, labels, n, r, States()))
    {
      ProfileIsLast(run, labels, n, s'.core.clients[g]);
    }
  }

  lemma JoinShown(run: seq<Sys>, labels: seq<Label>, n: nat, ch: Choice)
    returns (told: seq<Packet>, players: seq<Guid>)
    requires IsRun(run, labels) && n < |run| && CanServe(run[n], ch) && run[n].core.queue[0].NewPlayer?
    requires var cli, s' := run[n].core.queue[0].cli, ServedHead(run[n], ch);
             cli.guid in s'.core.toClients && s'.core.toClients[cli.guid] == cli.sid
    ensures var s, s', x := run[n], ServedHead(run[n], ch), run[n].core.queue[0].cli.sid;
            && HandlesLive(s'.core) && IsOrderOf(players, s'.core.clients.Keys)
            && Shows(told, players, Profiles(s'.core), s.settings.maxPlayers)
            && Hears(s.core, s'.core, x, told + [s.core.queue[0].connect.(dataSize := 38)])
  {
    var s := run[n];
    var c, cli, connect := WithoutHead(s.core), s.core.queue[0].cli, s.core.queue[0].connect;
    RunWf(run, labels, n);
    NotRegistered(s);
    NewcomerFresh(s);
    JoinContinues(s, ch);
    hide IsRun, CanServe, ServedHead, Wf, Join, LegalJoin, Shows, IsOrderOf;
    told, players := JoinTells(c, s.settings, cli, connect, ch);
    assert cli.sid in ServedHead(s, ch).core.toClients.Values;
  }

  lemma JoinContinues(s: Sys, ch: Choice)
    requires CanServe(s, ch) && s.core.queue[0].NewPlayer?
    requires forall g :: g in s.core.toClients ==> s.core.toClients[g] != s.core.queue[0].cli.sid
    requires var cli, s' := s.core.queue[0].cli, ServedHead(s, ch);
             cli.guid in s'.core.toClients && s'.core.toClients[cli.guid] == cli.sid
    ensures var c, cli, connect := WithoutHead(s.core), s.core.queue[0].cli, s.core.queue[0].connect;
            && LegalJoin(c, s.settings, cli, connect, ch)
            && Join(c, s.settings, cli, connect, ch).result == Continue
            && ServedHead(s, ch).core == Join(c, s.settings, cli, connect, ch).core
  {
    var c, cli, connect := WithoutHead(s.core), s.core.queue[0].cli, s.core.queue[0].connect;
    hide Join, LegalJoin, HandlePacket, LegalPacket, Leave, Admission, JoinMissed, DataFor;
    if Admission(c, s.settings, cli).Some? {
      JoinRefused(c, s.settings, cli, connect, ch);
    } else {
      JoinFrame(c, s.settings, cli, connect, ch);
    }
  }
}
