/** Departure notices name a guid and not a session: whose they are, whom they take off the tables, and how the notice
    of one session ends the registration of another. */
module Departures {
  import opened Utf8
  import opened Wire
  import opened Packets
  import opened Protocol
  import opened ClientTask
  import opened System
  import opened Structure
  import opened Admission
  import opened EndToEnd

  // ---- whose notices they are ----

  function EndedGuids(sessions: map<Sid, Session>): set<Guid> {
    set x | x in sessions && sessions[x].phase == Ended :: sessions[x].guid
  }

  /** Every queued notice bears the guid of a session that has ended. */
  ghost predicate NoticesOwned(queue: seq<Command<Sid>>, ended: set<Guid>) {
    forall i :: 0 <= i < |queue| && queue[i].DisconnectPlayer? ==> queue[i].guid in ended
  }

  lemma MoreEnded(queue: seq<Command<Sid>>, ended: set<Guid>, ended': set<Guid>)
    requires NoticesOwned(queue, ended) && ended <= ended'
    ensures NoticesOwned(queue, ended')
  {
  }

  lemma QueueOwned(queue: seq<Command<Sid>>, cmd: Command<Sid>, ended: set<Guid>)
    requires NoticesOwned(queue, ended) && (cmd.DisconnectPlayer? ==> cmd.guid in ended)
    ensures NoticesOwned(queue + [cmd], ended)
    ensures queue != [] ==> NoticesOwned(queue[1..], ended) && NoticesOwned(queue[1..] + [cmd], ended)
  {
  }

  /** A session that has ended stays so, under its guid. */
  lemma StillEnded(s: Sys, x: Sid, session: Session)
    requires x in s.sessions ==> (s.sessions[x].phase == Ended ==> session.phase == Ended)
                                 && session.guid == s.sessions[x].guid
    ensures EndedGuids(s.sessions) <= EndedGuids(s.sessions[x := session])
    ensures session.phase == Ended ==> session.guid in EndedGuids(s.sessions[x := session])
  {
    var sessions := s.sessions[x := session];
    forall g | g in EndedGuids(s.sessions) ensures g in EndedGuids(sessions) {
      var y :| y in s.sessions && s.sessions[y].phase == Ended && s.sessions[y].guid == g;
      assert sessions[y].phase == Ended && sessions[y].guid == g;
    }
    assert sessions[x] == session;
  }

  /** A step of one session, which may send a command: a notice only when it ends. */
  lemma SessionNotices(s: Sys, s': Sys, x: Sid, more: seq<Command<Sid>>)
    requires NoticesOwned(s.core.queue, EndedGuids(s.sessions))
    requires x in s'.sessions && s'.sessions == s.sessions[x := s'.sessions[x]]
    requires |more| <= 1 && s'.core.queue == s.core.queue + more
    requires x in s.sessions ==> (s.sessions[x].phase == Ended ==> s'.sessions[x].phase == Ended)
                                 && s'.sessions[x].guid == s.sessions[x].guid
    requires more != [] && more[0].DisconnectPlayer? ==>
               s'.sessions[x].phase == Ended && s'.sessions[x].guid == more[0].guid
    ensures NoticesOwned(s'.core.queue, EndedGuids(s'.sessions))
  {
    hide EndedGuids, NoticesOwned;
    StillEnded(s, x, s'.sessions[x]);
    MoreEnded(s.core.queue, EndedGuids(s.sessions), EndedGuids(s'.sessions));
    if more == [] {
      assert s.core.queue + [] == s.core.queue;
    } else {
      assert more == [more[0]];
      QueueOwned(s.core.queue, more[0], EndedGuids(s'.sessions));
    }
  }

  lemma ServedNotices(s: Sys, ch: Choice)
    requires CanServe(s, ch) && NoticesOwned(s.core.queue, EndedGuids(s.sessions)) && Wf(s)
    ensures var s' := ServedHead(s, ch); NoticesOwned(s'.core.queue, EndedGuids(s'.sessions))
  {
    var s', head := ServedHead(s, ch), s.core.queue[0];
    ServedQueue(s, ch);
    ServedPhases(s, ch);
    hide ServedHead, CanServe, NoticesOwned, EndedGuids, Wf;
    MoreEnded(s.core.queue, EndedGuids(s.sessions), EndedGuids(s'.sessions));
    QueueOwned(s.core.queue, Shutdown, EndedGuids(s'.sessions));
    if s'.core.queue != s.core.queue[1..] {
      QueueOwned(s.core.queue, DisconnectPlayer(head.cli.guid), EndedGuids(s'.sessions));
    }
  }

  lemma ServedPhases(s: Sys, ch: Choice)
    requires CanServe(s, ch) && Wf(s)
    ensures var s' := ServedHead(s, ch);
            && EndedGuids(s.sessions) <= EndedGuids(s'.sessions)
            && (s.core.queue[0].NewPlayer? && s'.core.queue != s.core.queue[1..] ==>
                  s.core.queue[0].cli.guid in EndedGuids(s'.sessions))
  {
    hide HandlePacket, Join, Leave, LegalPacket, LegalJoin, Protocol.Admission, DataFor, EndedGuids, Wf;
    var s' := ServedHead(s, ch);
    match s.core.queue[0]
    case PacketCommand(from, p) => StillEnded(s, from, s'.sessions[from]);
    case NewPlayer(cli, connect) =>
      HeadWaits(s);
      StillEnded(s, cli.sid, s'.sessions[cli.sid]);
      if Protocol.Admission(WithoutHead(s.core), s.settings, cli) == None {
        JoinFrame(WithoutHead(s.core), s.settings, cli, connect, ch);
      }
    case DisconnectPlayer(g) =>
    case Shutdown =>
  }

  lemma HeadWaits(s: Sys)
    requires s.core.queue != [] && s.core.queue[0].NewPlayer? && Wf(s)
    ensures var cli := s.core.queue[0].cli;
            cli.sid in s.sessions && s.sessions[cli.sid].phase == Waiting && s.sessions[cli.sid].guid == cli.guid
  {
    hide TablesWf, SessionsWf, FreshWf;
    assert CommandWf(s.core.queue[0], Known(s.sessions), Newcomers(s.sessions));
  }

  /** The session that a step is about, and what the step sends. */
  function Stepping(l: Label): Option<Sid> {
    match l
    case Arrive(x, _, _) => Some(x)
    case Take(x, _) => Some(x)
    case Forward(x) => Some(x)
    case Deliver(x, _) => Some(x)
    case End(x) => Some(x)
    case _ => None
  }

  function Sends(s: Sys, l: Label): seq<Command<Sid>> {
    match l
    case Arrive(x, ip, connect) => [NewPlayer(Joiner(x, connect.id, ip, x), connect)]
    case Forward(x) =>
      if x in s.sessions && s.sessions[x].hand.Some? && CoordinatorUp(s)
      then [PacketCommand(x, s.sessions[x].hand.value)] else []
    case End(x) => if x in s.sessions && CoordinatorUp(s) then [DisconnectPlayer(s.sessions[x].guid)] else []
    case AskShutdown => [Shutdown]
    case _ => []
  }

  lemma StepSends(s: Sys, l: Label)
    requires Enabled(s, l) && !l.Serve? && !l.Drain?
    ensures Step(s, l).core.queue == s.core.queue + Sends(s, l)
  {
    hide OnPacket, NewProfile, LegalShines, Append, Writes, EndsSession;
  }

  lemma StepSession(s: Sys, l: Label)
    requires Enabled(s, l) && Stepping(l).Some?
    ensures var s', x := Step(s, l), Stepping(l).value;
            && x in s'.sessions && s'.sessions == s.sessions[x := s'.sessions[x]]
            && (x in s.sessions ==> s.sessions[x].phase != Ended && s'.sessions[x].guid == s.sessions[x].guid)
            && (l.End? ==> x in s.sessions && s'.sessions[x].phase == Ended)
  {
    hide OnPacket, NewProfile, Append, Writes, EndsSession;
  }

  lemma StepNotices(s: Sys, l: Label)
    requires Enabled(s, l) && NoticesOwned(s.core.queue, EndedGuids(s.sessions)) && Wf(s)
    ensures NoticesOwned(Step(s, l).core.queue, EndedGuids(Step(s, l).sessions))
  {
    hide EndedGuids, NoticesOwned, CanServe, ServedHead, Leave, Wf;
    if Stepping(l).Some? {
      StepSends(s, l);
      StepSession(s, l);
      hide Step, Enabled;
      SessionNotices(s, Step(s, l), Stepping(l).value, Sends(s, l));
    } else {
      OtherNotices(s, l);
    }
  }

  lemma OtherNotices(s: Sys, l: Label)
    requires Enabled(s, l) && Stepping(l).None?
    requires NoticesOwned(s.core.queue, EndedGuids(s.sessions)) && Wf(s)
    ensures NoticesOwned(Step(s, l).core.queue, EndedGuids(Step(s, l).sessions))
  {
    hide EndedGuids, NoticesOwned, CanServe, ServedHead, Leave, LegalShines, Append, Wf;
    match l
    case Serve(ch) => ServedNotices(s, ch);
    case FireSync(i, ids) =>
    case AskShutdown => QueueOwned(s.core.queue, Shutdown, EndedGuids(s.sessions));
    case Drain(g, undone, bye) => LeaveFrame(s.core, g, undone, bye);
  }

  lemma {:induction false} RunNotices(run: seq<Sys>, labels: seq<Label>, n: nat)
    requires IsRun(run, labels) && n < |run|
    ensures NoticesOwned(run[n].core.queue, EndedGuids(run[n].sessions))
  {
    if n > 0 {
      hide Step, Enabled, Wf, NoticesOwned;
      RunNotices(run, labels, n - 1);
      RunWf(run, labels, n - 1);
      StepNotices(run[n - 1], labels[n - 1]);
    }
  }

  /** In every run each queued departure notice was sent by a session of its guid that has ended. */
  lemma NoticeHasSender(run: seq<Sys>, labels: seq<Label>, n: nat, i: nat)
    requires IsRun(run, labels) && n < |run| && i < |run[n].core.queue| && run[n].core.queue[i].DisconnectPlayer?
    ensures exists y :: y in run[n].sessions && run[n].sessions[y].phase == Ended
                        && run[n].sessions[y].guid == run[n].core.queue[i].guid
  {
    hide IsRun;
    RunNotices(run, labels, n);
  }

  // ---- whom they take off the tables ----

  /** A session that has not ended is no longer registered. */
  ghost predicate TakenOff(s: Sys, s': Sys, x: Sid) {
    && x in Everyone(s.core) && x !in Everyone(s'.core)
    && x in s'.sessions && s'.sessions[x].phase != Ended
  }

  /** Serving a departure notice takes a session off the tables that has not ended exactly if the notice's guid is
      registered for such a session; it is then that one and no other. */
  lemma TakenOffExactly(run: seq<Sys>, labels: seq<Label>, n: nat, ch: Choice, x: Sid)
    requires IsRun(run, labels) && n < |run| && CanServe(run[n], ch) && run[n].core.queue[0].DisconnectPlayer?
    ensures var s, g := run[n], run[n].core.queue[0].guid;
            TakenOff(s, ServedHead(s, ch), x)
            <==> g in s.core.toClients && x == s.core.toClients[g] && x in s.sessions && s.sessions[x].phase != Ended
  {
    var s, g := run[n], run[n].core.queue[0].guid;
    assert OwnInboxes(s.core.toClients) by {
      RegistryCoherent(run, labels, n, g);
    }
    hide IsRun, ServedHead, CanServe, OwnInboxes;
    ServedNotice(s, ch);
    OneLeaves(s.core.toClients, g, x);
  }

  lemma ServedNotice(s: Sys, ch: Choice)
    requires CanServe(s, ch) && s.core.queue[0].DisconnectPlayer?
    ensures var s' := ServedHead(s, ch);
            s'.core.toClients == s.core.toClients - {s.core.queue[0].guid} && s'.sessions == s.sessions
  {
    hide Leave, HandlePacket, LegalPacket, Join, LegalJoin, LeaveMissed;
    LeaveFrame(WithoutHead(s.core), s.core.queue[0].guid, ch.undone, ch.bye);
  }

  lemma OneLeaves(toClients: map<Guid, Sid>, g: Guid, x: Sid)
    requires OwnInboxes(toClients)
    ensures x in toClients.Values && x !in (toClients - {g}).Values <==> g in toClients && x == toClients[g]
  {
    if x in toClients.Values && x !in (toClients - {g}).Values {
      var h :| h in toClients && toClients[h] == x;
      assert h !in toClients - {g};
    }
  }

  /** The notice is then another session's, of the same guid; so with one session for each guid a notice never takes a
      session off the tables that has not ended. */
  lemma TakenOffByAnother(run: seq<Sys>, labels: seq<Label>, n: nat, ch: Choice, x: Sid)
    requires IsRun(run, labels) && n < |run| && CanServe(run[n], ch) && run[n].core.queue[0].DisconnectPlayer?
    requires TakenOff(run[n], ServedHead(run[n], ch), x)
    ensures var s := run[n];
            && x in s.sessions
            && exists y :: y in s.sessions && y != x && s.sessions[y].guid == s.sessions[x].guid
                           && s.sessions[y].phase == Ended
  {
    var s, g := run[n], run[n].core.queue[0].guid;
    TakenOffExactly(run, labels, n, ch, x);
    RegistryCoherent(run, labels, n, g);
    hide IsRun, ServedHead, CanServe, Coherent, OwnInboxes;
    NoticeHasSender(run, labels, n, 0);
    var y :| y in s.sessions && s.sessions[y].phase == Ended && s.sessions[y].guid == g;
    assert y != x && s.sessions[x].guid == g;
  }

  lemma DistinctGuidsAreSafe(run: seq<Sys>, labels: seq<Label>, n: nat, ch: Choice, x: Sid)
    requires IsRun(run, labels) && n < |run| && CanServe(run[n], ch) && run[n].core.queue[0].DisconnectPlayer?
    requires var sessions := run[n].sessions;
             forall y, z :: y in sessions && z in sessions && sessions[y].guid == sessions[z].guid ==> y == z
    ensures !TakenOff(run[n], ServedHead(run[n], ch), x)
  {
    hide IsRun, CanServe, ServedHead, TakenOff;
    if TakenOff(run[n], ServedHead(run[n], ch), x) {
      TakenOffByAnother(run, labels, n, ch, x);
    }
  }

  // ---- it does happen ----

  lemma RefusedServed(s: Sys, cli: Joiner<Sid>, connect: Packet, ch: Choice)
    requires CanServe(s, ch) && s.core.queue == [NewPlayer(cli, connect)]
    requires Protocol.Admission(s.core, s.settings, cli).Some?
    ensures var s' := ServedHead(s, ch);
            && s'.settings == s.settings && s'.mode == s.mode && s'.clean == s.clean
            && s'.core.clients == s.core.clients && s'.core.toClients == s.core.toClients
            && s'.core.queue == [DisconnectPlayer(cli.guid)]
            && cli.sid in s.sessions && s'.sessions == s.sessions[cli.sid := s.sessions[cli.sid].(phase := Ended)]
  {
    hide Join, LegalJoin, HandlePacket, LegalPacket, Leave, DataFor;
    JoinRefused(WithoutHead(s.core), s.settings, cli, connect, ch);
  }

  lemma LeaveServed(s: Sys, g: Guid, ch: Choice)
    requires CanServe(s, ch) && s.core.queue == [DisconnectPlayer(g)]
    requires Smooth(WithoutHead(s.core), s.settings, s.core.queue[0], ch)
    ensures var s' := ServedHead(s, ch);
            && s'.settings == s.settings && s'.clean == s.clean && s'.core.queue == [] && s'.sessions == s.sessions
            && s'.core.toClients == s.core.toClients - {g}
  {
    hide Leave, HandlePacket, LegalPacket, Join, LegalJoin;
    LeaveFrame(WithoutHead(s.core), g, ch.undone, ch.bye);
  }

  /** In every reachable state with nothing queued: when a newcomer under the guid of a registered player is refused,
      that player is taken off the tables, whatever its session is doing. */
  lemma RefusedTakesOff(run: seq<Sys>, labels: seq<Label>, x: Sid, ip: Ip, connect: Packet)
    returns (run': seq<Sys>, labels': seq<Label>)
    requires IsRun(run, labels) && |run| == |labels| + 1
    requires var s := run[|labels|];
             && s.core.queue == [] && s.mode == Serving && x !in s.sessions && connect.data.Connect?
             && connect.id in s.core.toClients
             && Protocol.Admission(s.core, s.settings, Joiner(x, connect.id, ip, x)).Some?
    ensures IsRun(run', labels') && |run'| == |labels'| + 1 && run <= run'
    ensures var s, s' := run[|labels|], run'[|labels'|];
            && s'.settings == s.settings && s'.clean == s.clean
            && s'.core.toClients == s.core.toClients - {connect.id}
            && (forall y :: y in s.sessions ==> y in s'.sessions && s'.sessions[y] == s.sessions[y])
  {
    hide Step, Enabled, IsRun, CanServe, ServedHead, Smooth, Protocol.Admission;
    var s, cli := run[|labels|], Joiner(x, connect.id, ip, x);
    var arrive := Arrive(x, ip, connect);
    AskedToJoin(s, x, ip, connect);
    RunGrows(run, labels, arrive);
    var s1 := Step(s, arrive);
    SameAdmission(s.core, s1.core, s.settings, cli);
    var ch;
    run', labels', ch := ServeNext(run + [s1], labels + [arrive]);
    RefusedServed(s1, cli, connect, ch);
    var s2 := ServedHead(s1, ch);
    run', labels', ch := ServeNext(run', labels');
    LeaveServed(s2, connect.id, ch);
  }

  /** And when the newcomer is let in and replaces the registered session, the end of the replaced session takes the
      newcomer off the tables. */
  lemma ReplacedTakesOff(run: seq<Sys>, labels: seq<Label>, x: Sid, ip: Ip, connect: Packet)
    returns (run': seq<Sys>, labels': seq<Label>)
    requires IsRun(run, labels) && |run| == |labels| + 1
    requires var s := run[|labels|];
             && s.core.queue == [] && s.mode == Serving && x !in s.sessions && connect.data.Connect?
             && connect.id in s.core.toClients && Idle(s, s.core.toClients[connect.id])
             && Protocol.Admission(s.core, s.settings, Joiner(x, connect.id, ip, x)).None?
    ensures IsRun(run', labels') && |run'| == |labels'| + 1 && run <= run'
    ensures var s, s' := run[|labels|], run'[|labels'|];
            && s'.settings == s.settings && s'.clean == s.clean
            && x in s'.sessions && s'.sessions[x].phase == Running && s'.sessions[x].guid == connect.id
            && s'.core.toClients == s.core.toClients - {connect.id}
  {
    hide Step, Enabled, IsRun, CanServe, ServedHead, Smooth, Protocol.Admission;
    var s, cli, old' := run[|labels|], Joiner(x, connect.id, ip, x), run[|labels|].core.toClients[connect.id];
    RegistryCoherent(run, labels, |labels|, connect.id);
    var arrive := Arrive(x, ip, connect);
    AskedToJoin(s, x, ip, connect);
    RunGrows(run, labels, arrive);
    var s1 := Step(s, arrive);
    SameAdmission(s.core, s1.core, s.settings, cli);
    var ch;
    run', labels', ch := ServeNext(run + [s1], labels + [arrive]);
    AdmittedServed(s1, cli, connect, ch);
    var s2 := ServedHead(s1, ch);
    EndedOne(s2, old');
    RunGrows(run', labels', End(old'));
    var s3 := Step(s2, End(old'));
    run', labels', ch := ServeNext(run' + [s3], labels' + [End(old')]);
    LeaveServed(s3, connect.id, ch);
  }

  lemma EndedOne(s: Sys, x: Sid)
    requires Idle(s, x) && s.mode == Serving
    ensures Enabled(s, End(x))
    ensures var s' := Step(s, End(x));
            && s'.settings == s.settings && s'.mode == s.mode && s'.clean == s.clean
            && s'.core.toClients == s.core.toClients
            && s'.core.queue == s.core.queue + [DisconnectPlayer(s.sessions[x].guid)]
            && s'.sessions == s.sessions[x := s.sessions[x].(phase := Ended)]
  {
  }

  /** Such runs exist for every limit, without any ban and without a failed send: first `maxPlayers + 1` players are
      let in, and then the first of them calls again from a second socket. */
  lemma RunningAndUnregistered(settings: Settings) returns (run: seq<Sys>, labels: seq<Label>)
    requires settings.bannedPlayers == {} && settings.bannedIps == {}
    ensures IsRun(run, labels) && |run| == |labels| + 1 && run[|labels|].clean && run[|labels|].settings == settings
    ensures var s := run[|labels|]; exists x :: Idle(s, x) && x !in Everyone(s.core)
  {
    hide Step, Enabled, IsRun, Idle, GuidOf, GuidsUpTo;
    var n := settings.maxPlayers as int + 1;
    run, labels := LimitIsPassedByOne(settings, n);
    var s, g := run[|labels|], GuidOf(0);
    FirstGuid(n);
    RegistryCoherent(run, labels, |labels|, g);
    var x := s.core.toClients[g];
    var connect := NewPacket(g, Connect(FirstConnection, 0, []));
    Full(s, Joiner(n, g, 0, n));
    run, labels := RefusedTakesOff(run, labels, n, 0, connect);
    var s' := run[|labels|];
    assert Idle(s', x) by { StillIdle(s, s', x); }
    OneLeaves(s.core.toClients, g, x);
  }

  /** The same by reconnecting, far below the limit: one player is let in twice, and its first session ends. */
  lemma ReplacedAndUnregistered(settings: Settings) returns (run: seq<Sys>, labels: seq<Label>)
    requires settings.bannedPlayers == {} && settings.bannedIps == {} && settings.maxPlayers > 0
    ensures IsRun(run, labels) && |run| == |labels| + 1 && run[|labels|].clean && run[|labels|].settings == settings
    ensures var s := run[|labels|];
            exists x :: x in s.sessions && s.sessions[x].phase == Running && x !in Everyone(s.core)
  {
    hide Step, Enabled, IsRun, Idle, GuidOf, GuidsUpTo;
    run, labels := LimitIsPassedByOne(settings, 1);
    var s, g := run[|labels|], GuidOf(0);
    FirstGuid(1);
    RegistryCoherent(run, labels, |labels|, g);
    var connect := NewPacket(g, Connect(Reconnecting, 0, []));
    RoomFor(s, Joiner(1, g, 0, 1));
    run, labels := ReplacedTakesOff(run, labels, 1, 0, connect);
    assert 1 !in Everyone(run[|labels|].core) by { NotTheirs(run, labels, |labels|, 1); }
  }

  /** An inbox belongs to no other player than the one whose session it is. */
  lemma NotTheirs(run: seq<Sys>, labels: seq<Label>, n: nat, x: Sid)
    requires IsRun(run, labels) && n < |run|
    requires x in run[n].sessions && run[n].sessions[x].guid !in run[n].core.toClients
    ensures x !in Everyone(run[n].core)
  {
    hide IsRun;
    forall h | h in run[n].core.toClients ensures run[n].core.toClients[h] != x {
      RegistryCoherent(run, labels, n, h);
    }
  }

  lemma RoomFor(s: Sys, cli: Joiner<Sid>)
    requires |s.core.clients| <= s.settings.maxPlayers as int
    requires s.settings.bannedPlayers == {} && s.settings.bannedIps == {}
    ensures Protocol.Admission(s.core, s.settings, cli).None?
  {
  }

  lemma {:induction false} FirstGuid(n: nat)
    requires 0 < n <= 0x1_0000
    ensures GuidOf(0) in GuidsUpTo(n)
  {
    if n > 1 {
      FirstGuid(n - 1);
    }
  }

  lemma Full(s: Sys, cli: Joiner<Sid>)
    requires |s.core.clients| > s.settings.maxPlayers as int
    ensures Protocol.Admission(s.core, s.settings, cli).Some?
  {
  }

  lemma StillIdle(s: Sys, s': Sys, x: Sid)
    requires Idle(s, x) && x in s'.sessions && s'.sessions[x] == s.sessions[x]
    ensures Idle(s', x)
  {
  }
}
