/** Who may connect: address blocks over whole runs of the server (server/moderation.go, handler.go, commands.go,
    operator.go). */
module Blocked {
  import opened Messages
  import opened ServerState
  import opened Commands
  import opened Ownership
  import opened Bans
  import opened Still
  import opened Moderation

  // ---------- what a step does to the tables ----------

  /** Somebody from the host waits in a queue. */
  ghost predicate QueuedFrom(s: Server, host: string) {
    exists room, e :: e in Queue(s, room) && ClientOf(s, e.client).host == host
  }

  /** The host a moderation command with this argument is about: a registered client's, or the argument as an address with
      somebody waiting. */
  ghost predicate Meant(s: Server, args: string, host: string) {
    args != "" && if args in s.clients then ClientOf(s, s.clients[args]).host == host else args == host && QueuedFrom(s, host)
  }

  ghost predicate BansHost(s: Server, a: Action, host: string) {
    match a
    case Ban(id, args, _) => ClientOf(s, id).admin && args in s.clients && Meant(s, args, host)
    case OperatorBan(args, _) => Meant(s, args, host)
    case _ => false
  }

  ghost predicate KicksHost(s: Server, a: Action, host: string) {
    match a
    case Kick(id, args) =>
      ClientOf(s, id).admin && args in s.clients && ClientOf(s, s.clients[args]).room == ClientOf(s, id).room && Meant(s, args, host)
    case OperatorKick(args, _) => Meant(s, args, host)
    case _ => false
  }

  lemma JoinBlocks(s: Server, id: ConnId, room: string, name: string)
    ensures SameBlocks(s, JoinRoom(s, id, room)) && SameBlocks(s, RemoveClient(s, name)) && SameBlocks(s, DeleteRoomIfEmpty(s, room))
  {
  }

  lemma AdmitBlocks(s: Server, room: string)
    ensures SameBlocks(s, Admit(s, room))
  {
  }

  lemma PublishBlocks(s: Server, room: string, m: Message, exclude: string)
    ensures SameBlocks(s, Publish(s, room, m, exclude))
  {
  }

  lemma {:induction false} AdmitTimesBlocks(s: Server, room: string, n: nat)
    ensures SameBlocks(s, AdmitTimes(s, room, n))
  {
    hide Admit;
    if n > 0 {
      AdmitTimesBlocks(s, room, n - 1);
      AdmitBlocks(AdmitTimes(s, room, n - 1), room);
    }
  }

  lemma {:induction false} AdmitRoomsBlocks(s: Server, rooms: seq<string>, ids: seq<ConnId>)
    ensures SameBlocks(s, AdmitRooms(s, rooms, ids))
  {
    hide AdmitTimes, SlotsOpened;
    if rooms != [] {
      var init, room := rooms[..|rooms| - 1], rooms[|rooms| - 1];
      AdmitRoomsBlocks(s, init, ids);
      AdmitTimesBlocks(AdmitRooms(s, init, ids), room, SlotsOpened(s, ids, room));
    }
  }

  lemma {:induction false} PurgeBlocks(s: Server, host: string, visit: seq<string>)
    ensures SameBlocks(s, Purge(s, host, visit).0)
  {
    hide Kept, Dropped, Renumber;
    if visit != [] {
      PurgeBlocks(s, host, visit[..|visit| - 1]);
      PurgeStep(s, host, visit);
    }
  }

  lemma {:induction false} CloseAllBlocks(s: Server, ids: seq<ConnId>)
    ensures SameBlocks(s, CloseAll(s, ids))
  {
    if ids != [] { CloseAllBlocks(s, ids[..|ids| - 1]); }
  }

  lemma SweepBlocks(s: Server, host: string, visit: seq<string>)
    ensures SameBlocks(s, PurgeAndClose(s, host, visit))
  {
    hide Purge, CloseAll;
    PurgeBlocks(s, host, visit);
    CloseAllBlocks(Purge(s, host, visit).0, Purge(s, host, visit).1);
  }

  lemma ExpelBlocks(s: Server, id: ConnId, name: string, verdict: Reason, issuer: string, now: Moment)
    ensures SameBlocks(s, Expel(s, id, name, verdict, issuer, now))
  {
    hide Publish, RemoveClient, Verb;
    var c := ClientOf(s, id);
    var marked := WithClient(s, id, c.(reason := verdict));
    JoinBlocks(marked, id, "", name);
    PublishBlocks(RemoveClient(marked, name), c.room, Note(now, Moderation, name, Verb(verdict), issuer), "");
  }

  lemma {:induction false} ExpelAllBlocks(s: Server, ids: seq<ConnId>, issuer: string, now: Moment)
    ensures SameBlocks(s, ExpelAll(s, ids, issuer, now))
  {
    hide Expel;
    if ids != [] {
      var t, id := ExpelAll(s, ids[..|ids| - 1], issuer, now), ids[|ids| - 1];
      ExpelAllBlocks(s, ids[..|ids| - 1], issuer, now);
      ExpelBlocks(t, id, ClientOf(t, id).username, Banned, issuer, now);
    }
  }

  lemma SwitchBlocks(s: Server, id: ConnId, room: string, now: Moment)
    ensures SameBlocks(s, SwitchRoom(s, id, room, now))
  {
    hide Publish, JoinRoom, Admit, DeleteRoomIfEmpty;
    var c := ClientOf(s, id);
    var leave := Note(now, Kind.Leave, c.username, "", "switched");
    PublishBlocks(s, c.room, leave, c.username);
    var parted := Publish(s, c.room, leave, c.username);
    JoinBlocks(parted, id, room, "");
    AdmitBlocks(JoinRoom(parted, id, room), c.room);
    var admitted := Admit(JoinRoom(parted, id, room), c.room);
    JoinBlocks(admitted, id, c.room, "");
    PublishBlocks(SendHistory(DeleteRoomIfEmpty(admitted, c.room), id, room), room, Note(now, Kind.Join, c.username, "", ""), c.username);
  }

  lemma CleanupBlocks(s: Server, id: ConnId, now: Moment)
    ensures SameBlocks(s, Cleanup(s, id, now))
  {
    hide Publish, RemoveClient, Admit, DeleteRoomIfEmpty, Moderated;
    var c := ClientOf(s, id);
    JoinBlocks(s, id, "", c.username);
    var m := Note(now, Kind.Leave, c.username, "", if c.reason.Unset? then "voluntary" else "drop");
    PublishBlocks(RemoveClient(s, c.username), c.room, m, c.username);
    var t := if Moderated(c) then s else Publish(RemoveClient(s, c.username), c.room, m, c.username);
    AdmitBlocks(t, c.room);
    JoinBlocks(Admit(t, c.room), id, c.room, "");
  }

  lemma KickBlocks(s: Server, name: string, issuer: string, now: Moment)
    requires name in s.clients
    ensures var t := KickTarget(s, name, issuer, now);
            && t.banned == s.banned && t.shuttingDown == s.shuttingDown
            && t.kicked == s.kicked[ClientOf(s, s.clients[name]).host := now.clock + 300]
  {
    hide Expel, Admit;
    var id := s.clients[name];
    var c := ClientOf(s, id);
    ExpelBlocks(s, id, name, Kicked, issuer, now);
    AdmitBlocks(AddKickCooldown(Expel(s, id, name, Kicked, issuer, now), c.host, now.clock), c.room);
  }

  lemma BanBlocks(s: Server, name: string, issuer: string, order: BanOrder, now: Moment)
    requires name in s.clients
    ensures var t := BanTarget(s, name, issuer, order, now);
            && t.banned == s.banned + {ClientOf(s, s.clients[name]).host} && t.shuttingDown == s.shuttingDown && t.kicked == s.kicked
  {
    hide Expel, ExpelAll, PurgeAndClose, AdmitRooms;
    var id := s.clients[name];
    var host := ClientOf(s, id).host;
    ExpelBlocks(s, id, name, Banned, issuer, now);
    ExpelAllBlocks(BanFirst(s, name, issuer, now), order.collateral, issuer, now);
    var u := BanEveryone(s, name, issuer, order, now);
    SweepBlocks(u, host, order.visit);
    AdmitRoomsBlocks(PurgeAndClose(u, host, order.visit), order.reopened, Expelled(s, name, order));
  }

  lemma {:induction false} DroppedSome(s: Server, queue: seq<Entry>, host: string)
    ensures Dropped(s, queue, host) != [] <==> exists e :: e in queue && ClientOf(s, e.client).host == host
  {
    if queue != [] {
      var init, e := queue[..|queue| - 1], queue[|queue| - 1];
      DroppedSome(s, init, host);
      assert queue == init + [e];
    }
  }

  lemma {:induction false} DroppedSomewhere(s: Server, host: string, visit: seq<string>)
    ensures DroppedAlong(s, host, visit) != [] <==> exists room, e :: room in visit && e in Queue(s, room) && ClientOf(s, e.client).host == host
  {
    hide Dropped;
    if visit != [] {
      var init, room := visit[..|visit| - 1], visit[|visit| - 1];
      DroppedSomewhere(s, host, init);
      DroppedSome(s, Queue(s, room), host);
      assert visit == init + [room];
    }
  }

  /** The sweep finds somebody exactly when somebody of the host is queued anywhere. */
  lemma SweepFinds(s: Server, host: string, visit: seq<string>)
    requires Enumerates(visit, s.rooms.Keys)
    ensures Purge(s, host, visit).1 != [] <==> QueuedFrom(s, host)
  {
    hide Purge;
    PurgeIsStableFilter(s, host, visit);
    DroppedSomewhere(s, host, visit);
    forall room, e | e in Queue(s, room) ensures room in visit { }
  }

  /** One step of the tables, exactly. */
  ghost predicate Blocks(s: Server, a: Action, now: Moment, t: Server) {
    && (forall h :: h in t.banned <==> h in s.banned || BansHost(s, a, h))
    && t.shuttingDown == (s.shuttingDown || a.BeginShutdown?)
    && (if a.Connect? then t.kicked == IsBlocked(s, a.host, now.clock).0.kicked
        else (forall h :: h in t.kicked <==> h in s.kicked || KicksHost(s, a, h))
             && (forall h :: h in t.kicked ==> t.kicked[h] == if KicksHost(s, a, h) then now.clock + 300 else s.kicked[h]))
  }

  lemma NamedBlocks(s: Server, a: Action, now: Moment)
    requires (a.OperatorKick? || a.OperatorBan?) && a.args in s.clients
    ensures Blocks(s, a, now, Step(s, a, now))
  {
    hide KickTarget, BanTarget, QueuedFrom, IsBlocked;
    if a.OperatorKick? { KickBlocks(s, a.args, "Server", now); } else { BanBlocks(s, a.args, "Server", a.order, now); }
  }

  lemma AddressBlocks(s: Server, a: Action, now: Moment)
    requires Enabled(s, a, now) && (a.OperatorKick? || a.OperatorBan?) && a.args !in s.clients
    ensures Blocks(s, a, now, Step(s, a, now))
  {
    hide PossibleOrder, Purge, PurgeAndClose, Enumerates, QueuedFrom, IsBlocked;
    var visit := if a.OperatorKick? then a.visit else a.order.visit;
    SweepFinds(s, a.args, visit);
    SweepBlocks(s, a.args, visit);
  }

  lemma MovesBlocks(s: Server, a: Action, now: Moment)
    requires a.Switch? || a.Create? || a.Leave?
    ensures SameBlocks(s, Step(s, a, now))
  {
    hide SwitchRoom, Cleanup, ValidName, HasCapacity;
    match a
    case Switch(id, args) => SwitchBlocks(s, id, args, now);
    case Create(id, args) => SwitchBlocks(s, id, args, now);
    case Leave(id, drop) => CleanupBlocks(WithClient(s, id, SetReason(ClientOf(s, id), drop)), id, now);
  }

  lemma SessionBlocks(s: Server, a: Action, now: Moment)
    requires a.Kick? || a.Ban?
    ensures Blocks(s, a, now, Step(s, a, now))
  {
    hide KickTarget, BanTarget, QueuedFrom, IsBlocked;
    if a.args in s.clients {
      if a.Kick? { KickBlocks(s, a.args, ClientOf(s, a.id).username, now); }
      else { BanBlocks(s, a.args, ClientOf(s, a.id).username, a.order, now); }
    }
  }

  lemma OthersBlocks(s: Server, a: Action, now: Moment, t: Server)
    requires t.banned == s.banned && t.shuttingDown == (s.shuttingDown || a.BeginShutdown?)
    requires t.kicked == if a.Connect? then IsBlocked(s, a.host, now.clock).0.kicked else s.kicked
    requires !a.Kick? && !a.Ban? && !a.OperatorKick? && !a.OperatorBan?
    ensures Blocks(s, a, now, t)
  {
    hide IsBlocked;
  }

  lemma StepBlocks(s: Server, a: Action, now: Moment)
    requires Enabled(s, a, now)
    ensures Blocks(s, a, now, Step(s, a, now))
  {
    hide Step, Enabled, Blocks, IsBlocked;
    if a.OperatorKick? || a.OperatorBan? {
      if a.args in s.clients { NamedBlocks(s, a, now); } else { AddressBlocks(s, a, now); }
    } else if a.Kick? || a.Ban? {
      SessionBlocks(s, a, now);
    } else {
      if a.Switch? || a.Create? || a.Leave? { MovesBlocks(s, a, now); } else { StillStep(s, a, now); }
      OthersBlocks(s, a, now, Step(s, a, now));
    }
  }

  // ---------- whole runs ----------

  /** Some step of the run banned the host. */
  ghost predicate BannedIn(s: Server, run: Run, host: string)
    decreases |run|
  {
    run != [] && (BansHost(s, run[0].0, host) || BannedIn(Step(s, run[0].0, run[0].1), run[1..], host))
  }

  /** Some step of the run kicked the host less than five minutes before the given time. */
  ghost predicate KickedIn(s: Server, run: Run, host: string, clock: int)
    decreases |run|
  {
    run != [] &&
    ((KicksHost(s, run[0].0, host) && clock < run[0].1.clock + 300) || KickedIn(Step(s, run[0].0, run[0].1), run[1..], host, clock))
  }

  predicate ShutIn(run: Run) { exists step <- run :: step.0.BeginShutdown? }

  /** The clock never goes back, and is not past the given time at the end. */
  predicate OnTime(run: Run, from: int, to: int)
    decreases |run|
  {
    if run == [] then from <= to else from <= run[0].1.clock && OnTime(run[1..], run[0].1.clock, to)
  }

  lemma {:induction false} BansStay(s: Server, run: Run, host: string)
    requires Possible(s, run)
    ensures host in After(s, run).banned <==> host in s.banned || BannedIn(s, run, host)
    decreases |run|
  {
    hide Step, Enabled, BansHost, KicksHost;
    if run != [] {
      StepBlocks(s, run[0].0, run[0].1);
      BansStay(Step(s, run[0].0, run[0].1), run[1..], host);
    }
  }

  lemma {:induction false} ShutdownStays(s: Server, run: Run)
    requires Possible(s, run)
    ensures After(s, run).shuttingDown <==> s.shuttingDown || ShutIn(run)
    decreases |run|
  {
    hide Step, Enabled, BansHost, KicksHost;
    if run != [] {
      StepBlocks(s, run[0].0, run[0].1);
      ShutdownStays(Step(s, run[0].0, run[0].1), run[1..]);
      assert run == [run[0]] + run[1..];
    }
  }

  /** The cooldown table answers for the host as every kick so far would. */
  lemma {:induction false} CooldownsExactly(s: Server, run: Run, host: string, from: int, clock: int)
    requires Possible(s, run) && OnTime(run, from, clock)
    requires host in s.kicked ==> s.kicked[host] <= from + 300
    ensures var t := After(s, run);
            (host in t.kicked && clock < t.kicked[host]) <==> (host in s.kicked && clock < s.kicked[host]) || KickedIn(s, run, host, clock)
    decreases |run|
  {
    hide Step, Enabled, BansHost, KicksHost;
    if run != [] {
      var (a, now) := run[0];
      OnTimeEnds(run[1..], now.clock, clock);
      StepBlocks(s, a, now);
      OneCooldown(s, a, now, Step(s, a, now), host, from, clock);
      CooldownsExactly(Step(s, a, now), run[1..], host, now.clock, clock);
    }
  }

  lemma OneCooldown(s: Server, a: Action, now: Moment, t: Server, host: string, from: int, clock: int)
    requires Blocks(s, a, now, t) && from <= now.clock <= clock && (host in s.kicked ==> s.kicked[host] <= from + 300)
    ensures host in t.kicked && clock < t.kicked[host] <==>
            (host in s.kicked && clock < s.kicked[host]) || (KicksHost(s, a, host) && clock < now.clock + 300)
    ensures host in t.kicked ==> t.kicked[host] <= now.clock + 300
  {
    hide QueuedFrom;
  }

  lemma {:induction false} OnTimeEnds(run: Run, from: int, to: int)
    requires OnTime(run, from, to)
    ensures from <= to
    decreases |run|
  {
    if run != [] { OnTimeEnds(run[1..], run[0].1.clock, to); }
  }

  /** Who may connect. In every state reached from a fresh server, with a clock that never goes back: a new connection is
      refused, and its client is closed and finished, if and only if some earlier step banned its host, some kick of its
      host is less than five minutes old, or the server is shutting down; otherwise it is asked for a name. Nobody else
      is touched. */
  lemma WhoMayConnect(admins: set<string>, run: Run, id: ConnId, host: string, now: Moment, from: int)
    requires Possible(Fresh(admins), run) && OnTime(run, from, now.clock) && id !in After(Fresh(admins), run).conns
    ensures var f, s := Fresh(admins), After(Fresh(admins), run);
            var t := Step(s, Connect(id, host), now);
            var refused := BannedIn(f, run, host) || KickedIn(f, run, host, now.clock) || ShutIn(run);
            && t.conns == s.conns[id := Client(host, "", "", false, false, refused, Unset, if refused then Finished else Naming)]
            && t.clients == s.clients && t.rooms == s.rooms && t.banned == s.banned
  {
    hide Possible, After, BannedIn, KickedIn, ShutIn, OnTime;
    var f, s := Fresh(admins), After(Fresh(admins), run);
    BansStay(f, run, host);
    CooldownsExactly(f, run, host, from, now.clock);
    ShutdownStays(f, run);
    Answered(s, id, host, now);
  }

  lemma Verdict(s: Server, host: string, clock: int)
    ensures var (u, blocked) := IsBlocked(s, host, clock);
            && (blocked <==> host in s.banned || (host in s.kicked && clock < s.kicked[host]))
            && u == s.(kicked := u.kicked)
  {
  }

  lemma Answered(s: Server, id: ConnId, host: string, now: Moment)
    ensures var t := Step(s, Connect(id, host), now);
            var refused := host in s.banned || (host in s.kicked && now.clock < s.kicked[host]) || s.shuttingDown;
            && t.conns == s.conns[id := Client(host, "", "", false, false, refused, Unset, if refused then Finished else Naming)]
            && t.clients == s.clients && t.rooms == s.rooms && t.banned == s.banned
  {
    hide IsBlocked;
    Verdict(s, host, now.clock);
  }

  /** A ban lasts: whatever happens between, and whatever the clock says, nobody from the banned client's host is let in
      again; and the step blocks no other host for good. */
  lemma BansKeepOut(s: Server, a: Action, now: Moment, host: string, rest: Run, id: ConnId, later: Moment)
    requires Enabled(s, a, now) && BansHost(s, a, host) && Possible(Step(s, a, now), rest)
    ensures var c := ClientOf(Step(After(Step(s, a, now), rest), Connect(id, host), later), id);
            c.closed && c.stage.Finished? && c.host == host
    ensures forall h :: h in Step(s, a, now).banned && h !in s.banned ==> h == host
  {
    hide Enabled, Step, Possible, After, BannedIn, KicksHost, QueuedFrom;
    StepBlocks(s, a, now);
    BansStay(Step(s, a, now), rest, host);
    Answered(After(Step(s, a, now), rest), id, host, later);
  }

  // ---------- the host's queued connections ----------

  lemma {:induction false} KeptExactly(s: Server, queue: seq<Entry>, host: string)
    ensures forall e :: e in Kept(s, queue, host) <==> e in queue && ClientOf(s, e.client).host != host
  {
    if queue != [] {
      var init, e := queue[..|queue| - 1], queue[|queue| - 1];
      KeptExactly(s, init, host);
      assert queue == init + [e];
    }
  }

  lemma {:induction false} DroppedExactly(s: Server, host: string, visit: seq<string>, room: string, e: Entry)
    requires room in visit && e in Queue(s, room) && ClientOf(s, e.client).host == host
    ensures e.client in DroppedAlong(s, host, visit)
  {
    hide Dropped;
    var init, last := visit[..|visit| - 1], visit[|visit| - 1];
    if room == last { DroppedHaveHost(s, Queue(s, room), host); assert HasHost(s, e.client, host); } else {
      assert visit == init + [last];
      DroppedExactly(s, host, init, room, e);
    }
  }

  lemma {:induction false} AllClosed(s: Server, ids: seq<ConnId>)
    ensures forall id <- ids :: ClientOf(CloseAll(s, ids), id).closed
  {
    if ids != [] {
      AllClosed(s, ids[..|ids| - 1]);
      assert ids == ids[..|ids| - 1] + [ids[|ids| - 1]];
    }
  }

  /** Nobody of the host is left in a queue, and everybody else is as before. */
  ghost predicate Swept(s: Server, t: Server, host: string) {
    && !QueuedFrom(t, host)
    && (forall room, e :: e in Queue(t, room) <==> e in Queue(s, room) && ClientOf(s, e.client).host != host)
    && (forall room, e :: e in Queue(s, room) && ClientOf(s, e.client).host == host ==> ClientOf(t, e.client).closed)
    && t.admitted == s.admitted && t.clients == s.clients
    && (forall x :: ClientOf(s, x).host != host ==> ClientOf(t, x) == ClientOf(s, x))
    && (forall x :: ClientOf(t, x).host == ClientOf(s, x).host)
  }

  lemma SweepSweeps(s: Server, host: string, visit: seq<string>)
    requires Enumerates(visit, s.rooms.Keys)
    ensures Swept(s, PurgeAndClose(s, host, visit), host)
  {
    hide Purge, CloseAll, Kept, DroppedAlong, ClientOf;
    var (p, removed) := Purge(s, host, visit);
    var t := CloseAll(p, removed);
    PurgeIsStableFilter(s, host, visit);
    CloseAllFrame(p, removed);
    AllClosed(p, removed);
    DroppedAlongHaveHost(s, host, visit);
    SameConns(s, p);
    forall room, e ensures e in Queue(t, room) <==> e in Queue(s, room) && ClientOf(s, e.client).host != host {
      KeptExactly(s, Queue(s, room), host);
      assert Queue(t, room) == Queue(p, room);
      if room !in visit { assert Queue(s, room) == []; }
    }
    forall room, e | e in Queue(s, room) && ClientOf(s, e.client).host == host ensures ClientOf(t, e.client).closed {
      DroppedExactly(s, host, visit, room, e);
    }
    forall x ensures ClientOf(t, x).host == ClientOf(s, x).host { }
    assert t == PurgeAndClose(s, host, visit) && t.admitted == s.admitted && t.clients == s.clients;
    forall x | ClientOf(s, x).host != host ensures ClientOf(t, x) == ClientOf(s, x) { assert x !in removed; }
    SweptIf(s, t, host);
  }

  lemma SweptFields(s: Server, t: Server, u: Server, host: string)
    requires Swept(s, t, host) && u.rooms == t.rooms && u.conns == t.conns && u.clients == t.clients && u.admitted == t.admitted
    ensures Swept(s, u, host)
  {
    assert forall room :: Queue(u, room) == Queue(t, room);
    assert forall x :: ClientOf(u, x) == ClientOf(t, x);
    forall room, e ensures e in Queue(u, room) <==> e in Queue(s, room) && ClientOf(s, e.client).host != host { SweptEntry(s, t, host, room, e); }
    SweptIf(s, u, host);
  }

  lemma SweptEntry(s: Server, t: Server, host: string, room: string, e: Entry)
    requires Swept(s, t, host)
    ensures e in Queue(t, room) <==> e in Queue(s, room) && ClientOf(s, e.client).host != host
  {
  }

  lemma SweptIf(s: Server, t: Server, host: string)
    requires forall room, e :: e in Queue(t, room) <==> e in Queue(s, room) && ClientOf(s, e.client).host != host
    requires forall room, e :: e in Queue(s, room) && ClientOf(s, e.client).host == host ==> ClientOf(t, e.client).closed
    requires t.admitted == s.admitted && t.clients == s.clients
    requires forall x :: ClientOf(s, x).host != host ==> ClientOf(t, x) == ClientOf(s, x)
    requires forall x :: ClientOf(t, x).host == ClientOf(s, x).host
    ensures Swept(s, t, host)
  {
    forall room, e | e in Queue(t, room) ensures ClientOf(t, e.client).host != host { }
  }

  lemma NobodySwept(s: Server, host: string)
    requires !QueuedFrom(s, host)
    ensures Swept(s, s, host)
  {
    hide ClientOf, Queue;
  }

  /** Moderation by address takes everybody of that host out of every queue, in any order of visiting the rooms, and
      closes them. */
  lemma SweepClosesTheHost(s: Server, a: Action, now: Moment)
    requires Enabled(s, a, now) && (a.OperatorKick? || a.OperatorBan?) && a.args != "" && a.args !in s.clients
    ensures Swept(s, Step(s, a, now), a.args)
  {
    hide Purge, PurgeAndClose, QueuedFrom, PossibleOrder, Swept, Enumerates;
    var visit := if a.OperatorKick? then a.visit else a.order.visit;
    SweepFinds(s, a.args, visit);
    SweepSweeps(s, a.args, visit);
    if Purge(s, a.args, visit).1 == [] { NobodySwept(s, a.args); }
    else { SweptFields(s, PurgeAndClose(s, a.args, visit), Step(s, a, now), a.args); }
  }
}
