/** The connection handler, the commands and the operator's moderation as methods on the live server, each tied to its
    whole-command step (server/handler.go, commands.go, operator.go). */
module LiveCommands {
  import opened Text
  import opened Messages
  import opened ServerState
  import opened Commands
  import opened LiveSteps
  import opened LiveServer
  import Ownership
  import Bans

  method Publish(srv: LiveServer, room: string, m: Message, exclude: string)
    requires srv.Valid()
    modifies srv, srv.rooms.Values
    ensures srv.Valid() && fresh(srv.rooms.Values - old(srv.rooms.Values))
    ensures srv.View() == Commands.Publish(old(srv.View()), room, m, exclude)
  {
    var e := srv.RecordRoomEvent(room, m);
    srv.BroadcastRoom(room, e, exclude);
  }

  method SetConn(srv: LiveServer, id: ConnId, c: Client)
    modifies srv`conns
    ensures srv.View() == WithClient(old(srv.View()), id, c)
  {
    srv.conns := srv.conns[id := c];
  }

  // ---------- entering and leaving (handler.go) ----------

  method RegisterClientName(srv: LiveServer, id: ConnId, name: string)
    modifies srv
    ensures srv.rooms == old(srv.rooms)
    ensures srv.View() == SubmitName(old(srv.View()), id, name)
  {
    if !ValidName(name) || Reserved(name) { return; }
    var ok := srv.RegisterClient(id, name);
    if !ok { return; }
    var c := srv.Conn(id);
    SetConn(srv, id, c.(stage := Choosing, admin := c.admin || name in srv.admins));
  }

  /** Join, history, and the announcement of the newcomer. */
  method Enter(srv: LiveServer, id: ConnId, room: string, now: Moment)
    requires srv.Valid()
    modifies srv, srv.rooms.Values
    ensures srv.Valid() && fresh(srv.rooms.Values - old(srv.rooms.Values))
    ensures srv.View() == EnterRoom(old(srv.View()), id, room, now)
  {
    hide JoinRoom, SendHistory, Commands.Publish;
    srv.JoinRoom(id, room);
    var c := srv.Conn(id);
    srv.SendRoomHistory(id, room);
    SetConn(srv, id, c.(stage := Active));
    Publish(srv, room, Note(now, Kind.Join, c.username, "", ""), c.username);
  }

  method DropPending(srv: LiveServer, id: ConnId)
    requires srv.Valid()
    modifies srv, srv.rooms.Values
    ensures srv.Valid() && fresh(srv.rooms.Values - old(srv.rooms.Values))
    ensures srv.View() == FinishPending(old(srv.View()), id)
  {
    hide RemoveClient;
    var c := srv.Conn(id);
    srv.RemoveClient(c.username);
    var d := srv.Conn(id);
    SetConn(srv, id, d.(closed := true, stage := Finished));
  }

  /** The room choice: refused, dropped in shutdown, let in, or queued. */
  method CheckOrQueueRoom(srv: LiveServer, id: ConnId, line: string, now: Moment)
    requires srv.Valid()
    modifies srv, srv.rooms.Values
    ensures srv.Valid() && fresh(srv.rooms.Values - old(srv.rooms.Values))
    ensures srv.View() == SubmitRoom(old(srv.View()), id, line, now)
  {
    hide FinishPending, EnterRoom, Enqueue, ValidName, TrimSpace, HasCapacity;
    var choice := TrimSpace(line);
    var room := if choice == "" then DEFAULT_ROOM else choice;
    if !ValidName(room) { return; }
    if srv.shuttingDown {
      DropPending(srv, id);
      return;
    }
    var free := srv.CheckRoomCapacity(room);
    if free {
      Enter(srv, id, room, now);
    } else {
      var ticket := srv.JoinQueue(id, room);
      var c := srv.Conn(id);
      SetConn(srv, id, c.(stage := Asked(room, ticket)));
    }
  }

  method GiveUp(srv: LiveServer, id: ConnId)
    requires srv.Valid()
    modifies srv, srv.rooms.Values
    ensures srv.Valid() && fresh(srv.rooms.Values - old(srv.rooms.Values))
    ensures srv.View() == GiveUpStep(old(srv.View()), id)
  {
    hide FinishPending, RemoveFromQueue;
    var c := srv.Conn(id);
    if c.stage.Naming? {
      SetConn(srv, id, c.(closed := true, stage := Finished));
    } else if c.stage.Choosing? {
      DropPending(srv, id);
    } else if c.stage.Asked? || c.stage.Waiting? {
      srv.RemoveFromRoomQueue(c.stage.room, c.stage.ticket);
      DropPending(srv, id);
    }
  }

  method CleanupConnection(srv: LiveServer, id: ConnId, now: Moment)
    requires srv.Valid()
    modifies srv, srv.rooms.Values
    ensures srv.Valid() && fresh(srv.rooms.Values - old(srv.rooms.Values))
    ensures srv.View() == Cleanup(old(srv.View()), id, now)
  {
    hide RemoveClient, Commands.Publish, Admit, DeleteRoomIfEmpty;
    var c := srv.Conn(id);
    if !Moderated(c) {
      srv.RemoveClient(c.username);
      var reason := if c.reason.Unset? then "voluntary" else "drop";
      Publish(srv, c.room, Note(now, Kind.Leave, c.username, "", reason), c.username);
    }
    srv.AdmitFromRoomQueue(c.room);
    srv.DeleteRoomIfEmpty(c.room);
    var d := srv.Conn(id);
    SetConn(srv, id, d.(closed := true, stage := Finished));
  }

  // ---------- commands (commands.go) ----------

  method HandleChatMessage(srv: LiveServer, id: ConnId, line: string, now: Moment)
    requires srv.Valid()
    modifies srv, srv.rooms.Values
    ensures srv.Valid() && fresh(srv.rooms.Values - old(srv.rooms.Values))
    ensures srv.View() == SayStep(old(srv.View()), id, line, now)
  {
    hide Commands.Publish, TrimSpace, ByteLen;
    if TrimSpace(line) == "" || ByteLen(line) > 2048 { return; }
    var c := srv.Conn(id);
    if c.muted { return; }
    Publish(srv, c.room, Note(now, Chat, c.username, line, ""), c.username);
  }

  method SwitchClientRoom(srv: LiveServer, id: ConnId, room: string, now: Moment)
    requires srv.Valid()
    modifies srv, srv.rooms.Values
    ensures srv.Valid() && fresh(srv.rooms.Values - old(srv.rooms.Values))
    ensures srv.View() == SwitchRoom(old(srv.View()), id, room, now)
  {
    hide JoinRoom, SendHistory, Commands.Publish, Admit, DeleteRoomIfEmpty;
    var c := srv.Conn(id);
    Publish(srv, c.room, Note(now, Kind.Leave, c.username, "", "switched"), c.username);
    srv.JoinRoom(id, room);
    srv.AdmitFromRoomQueue(c.room);
    srv.DeleteRoomIfEmpty(c.room);
    srv.SendRoomHistory(id, room);
    Publish(srv, room, Note(now, Kind.Join, c.username, "", ""), c.username);
  }

  method CmdSwitch(srv: LiveServer, id: ConnId, args: string, now: Moment)
    requires srv.Valid()
    modifies srv, srv.rooms.Values
    ensures srv.Valid() && fresh(srv.rooms.Values - old(srv.rooms.Values))
    ensures srv.View() == SwitchStep(old(srv.View()), id, args, now)
  {
    hide SwitchRoom, ValidName, HasCapacity;
    if args == "" || !ValidName(args) || args == srv.Conn(id).room { return; }
    var free := srv.CheckRoomCapacity(args);
    if !free { return; }
    SwitchClientRoom(srv, id, args, now);
  }

  method CmdCreate(srv: LiveServer, id: ConnId, args: string, now: Moment)
    requires srv.Valid()
    modifies srv, srv.rooms.Values
    ensures srv.Valid() && fresh(srv.rooms.Values - old(srv.rooms.Values))
    ensures srv.View() == CreateStep(old(srv.View()), id, args, now)
  {
    hide SwitchRoom, ValidName;
    if args == "" || !ValidName(args) || srv.HasRoom(args) { return; }
    SwitchClientRoom(srv, id, args, now);
  }

  method CmdName(srv: LiveServer, id: ConnId, args: string, now: Moment)
    requires srv.Valid()
    modifies srv, srv.rooms.Values
    ensures srv.Valid() && fresh(srv.rooms.Values - old(srv.rooms.Values))
    ensures srv.View() == RenameStep(old(srv.View()), id, args, now)
  {
    hide RenameClient, RenameAdmin, ValidName, Commands.Publish;
    var c := srv.Conn(id);
    if args == "" || !ValidName(args) || Reserved(args) || args == c.username { return; }
    RefusedRename(srv.View(), id, c.username, args);
    var ok := srv.RenameClient(id, c.username, args);
    if !ok { return; }
    if c.admin { srv.RenameAdmin(c.username, args); }
    Publish(srv, c.room, Note(now, NameChange, args, "", c.username), "");
  }

  // ---------- moderation (commands.go, operator.go) ----------

  method ExpelOne(srv: LiveServer, id: ConnId, name: string, verdict: Reason, issuer: string, now: Moment)
    requires srv.Valid()
    modifies srv, srv.rooms.Values
    ensures srv.Valid() && fresh(srv.rooms.Values - old(srv.rooms.Values))
    ensures srv.View() == Expel(old(srv.View()), id, name, verdict, issuer, now)
  {
    hide RemoveClient, Commands.Publish;
    var c := srv.Conn(id);
    SetConn(srv, id, c.(reason := verdict));
    srv.RemoveClient(name);
    Publish(srv, c.room, Note(now, Moderation, name, Verb(verdict), issuer), "");
    var d := srv.Conn(id);
    SetConn(srv, id, d.(closed := true));
  }

  method Kick(srv: LiveServer, name: string, issuer: string, now: Moment)
    requires srv.Valid() && name in srv.clients
    modifies srv, srv.rooms.Values
    ensures srv.Valid() && fresh(srv.rooms.Values - old(srv.rooms.Values))
    ensures srv.View() == KickTarget(old(srv.View()), name, issuer, now)
  {
    hide Expel, Admit;
    var id := srv.clients[name];
    var c := srv.Conn(id);
    ExpelOne(srv, id, name, Kicked, issuer, now);
    srv.AddKickCooldown(c.host, now.clock);
    srv.AdmitFromRoomQueue(c.room);
  }

  method CmdKick(srv: LiveServer, id: ConnId, args: string, now: Moment)
    requires srv.Valid()
    modifies srv, srv.rooms.Values
    ensures srv.Valid() && fresh(srv.rooms.Values - old(srv.rooms.Values))
    ensures srv.View() == Step(old(srv.View()), Action.Kick(id, args), now)
  {
    hide KickTarget;
    var c := srv.Conn(id);
    if !c.admin || args == "" || args !in srv.clients { return; }
    if srv.Conn(srv.clients[args]).room != c.room { return; }
    Kick(srv, args, c.username, now);
  }

  method CloseAllOf(srv: LiveServer, ids: seq<ConnId>)
    modifies srv`conns
    ensures srv.View() == CloseAll(old(srv.View()), ids)
  {
    hide CloseConn;
    ghost var s := srv.View();
    for i := 0 to |ids|
      invariant srv.View() == CloseAll(s, ids[..i])
    {
      CloseOneMore(s, ids, i);
      var c := srv.Conn(ids[i]);
      SetConn(srv, ids[i], c.(closed := true));
    }
    assert ids[..|ids|] == ids;
  }

  lemma CloseOneMore(s: Server, ids: seq<ConnId>, i: nat)
    requires i < |ids|
    ensures var t := CloseAll(s, ids[..i]);
            CloseAll(s, ids[..i + 1]) == WithClient(t, ids[i], ClientOf(t, ids[i]).(closed := true))
  {
    assert ids[..i + 1][..i] == ids[..i];
  }

  /** The queued connections of a host are dropped from every queue and closed. */
  method SweepQueues(srv: LiveServer, host: string) returns (removed: seq<ConnId>, ghost visit: seq<string>)
    requires srv.Valid()
    modifies srv, srv.rooms.Values
    ensures srv.Valid() && fresh(srv.rooms.Values - old(srv.rooms.Values))
    ensures Enumerates(visit, old(srv.View()).rooms.Keys)
    ensures srv.View() == PurgeAndClose(old(srv.View()), host, visit) && removed == Purge(old(srv.View()), host, visit).1
  {
    hide Purge, CloseAll, Enumerates;
    removed, visit := srv.RemoveFromAllRoomQueuesByIP(host);
    CloseAllOf(srv, removed);
  }

  /** A kick by address, when the operator names nobody who is registered. */
  method KickByAddress(srv: LiveServer, host: string, now: Moment) returns (ghost visit: seq<string>)
    requires srv.Valid()
    modifies srv, srv.rooms.Values
    ensures srv.Valid() && fresh(srv.rooms.Values - old(srv.rooms.Values))
    ensures Enumerates(visit, old(srv.View()).rooms.Keys)
    ensures srv.View() == KickQueued(old(srv.View()), host, visit, now)
  {
    hide Purge, PurgeAndClose, Enumerates;
    ghost var s := srv.View();
    var removed: seq<ConnId>;
    removed, visit := SweepQueues(srv, host);
    Bans.NothingSwept(s, host, visit);
    if |removed| == 0 { return; }
    srv.AddKickCooldown(host, now.clock);
  }

  method BanByAddress(srv: LiveServer, host: string) returns (ghost visit: seq<string>)
    requires srv.Valid()
    modifies srv, srv.rooms.Values
    ensures srv.Valid() && fresh(srv.rooms.Values - old(srv.rooms.Values))
    ensures Enumerates(visit, old(srv.View()).rooms.Keys)
    ensures srv.View() == BanQueued(old(srv.View()), host, visit)
  {
    hide Purge, PurgeAndClose, Enumerates;
    ghost var s := srv.View();
    var removed: seq<ConnId>;
    removed, visit := SweepQueues(srv, host);
    Bans.NothingSwept(s, host, visit);
    if |removed| == 0 { return; }
    srv.AddBanIP(host);
  }

  /** The slots a ban has opened so far, counted by room. */
  ghost predicate Counts(counts: map<string, nat>, s: Server, ids: seq<ConnId>) {
    && (forall room :: (if room in counts then counts[room] else 0) == SlotsOpened(s, ids, room))
    && counts.Keys == set id | id in ids :: ClientOf(s, id).room
  }

  lemma CountOneMore(counts: map<string, nat>, s: Server, ids: seq<ConnId>, id: ConnId)
    requires Counts(counts, s, ids)
    ensures var room := ClientOf(s, id).room;
            Counts(counts[room := (if room in counts then counts[room] else 0) + 1], s, ids + [id])
  {
    hide ClientOf;
    var more := ids + [id];
    assert more[..|more| - 1] == ids && more[|more| - 1] == id;
    forall r ensures SlotsOpened(s, more, r) == SlotsOpened(s, ids, r) + if ClientOf(s, id).room == r then 1 else 0 { }
    hide SlotsOpened;
    assert (set x | x in more :: ClientOf(s, x).room) == (set x | x in ids :: ClientOf(s, x).room) + {ClientOf(s, id).room};
  }

  /** Every client of a ban in turn; the rooms they were in are counted. */
  method ExpelEach(srv: LiveServer, ids: seq<ConnId>, issuer: string, now: Moment, before: map<string, nat>, ghost s0: Server, ghost first: seq<ConnId>)
    returns (counts: map<string, nat>)
    requires srv.Valid() && Counts(before, s0, first)
    requires forall id :: ClientOf(srv.View(), id).room == ClientOf(s0, id).room
    modifies srv, srv.rooms.Values
    ensures srv.Valid() && fresh(srv.rooms.Values - old(srv.rooms.Values))
    ensures srv.View() == ExpelAll(old(srv.View()), ids, issuer, now) && Counts(counts, s0, first + ids)
    ensures forall id :: ClientOf(srv.View(), id).room == ClientOf(s0, id).room
  {
    hide Expel, Counts;
    ghost var s := srv.View();
    counts := before;
    assert first + ids[..0] == first;
    for i := 0 to |ids|
      invariant srv.Valid() && fresh(srv.rooms.Values - old(srv.rooms.Values))
      invariant srv.View() == ExpelAll(s, ids[..i], issuer, now) && Counts(counts, s0, first + ids[..i])
      invariant forall id :: ClientOf(srv.View(), id).room == ClientOf(s0, id).room
    {
      ExpelOneMore(s, ids, i, issuer, now);
      ghost var t := srv.View();
      var c := srv.Conn(ids[i]);
      ExpelOne(srv, ids[i], c.username, Banned, issuer, now);
      Bans.ExpelKeepsRooms(t, ids[i], c.username, Banned, issuer, now);
      CountOneMore(counts, s0, first + ids[..i], ids[i]);
      assert first + ids[..i] + [ids[i]] == first + ids[..i + 1];
      counts := counts[c.room := (if c.room in counts then counts[c.room] else 0) + 1];
    }
    assert ids[..|ids|] == ids;
  }

  lemma ExpelOneMore(s: Server, ids: seq<ConnId>, i: nat, issuer: string, now: Moment)
    requires i < |ids|
    ensures var t := ExpelAll(s, ids[..i], issuer, now);
            ExpelAll(s, ids[..i + 1], issuer, now) == Expel(t, ids[i], ClientOf(t, ids[i]).username, Banned, issuer, now)
  {
    assert ids[..i + 1][..i] == ids[..i];
  }

  method AdmitRepeatedly(srv: LiveServer, room: string, n: nat)
    requires srv.Valid()
    modifies srv, srv.rooms.Values
    ensures srv.Valid() && fresh(srv.rooms.Values - old(srv.rooms.Values))
    ensures srv.View() == AdmitTimes(old(srv.View()), room, n)
  {
    hide Admit;
    ghost var s := srv.View();
    for i := 0 to n
      invariant srv.Valid() && fresh(srv.rooms.Values - old(srv.rooms.Values))
      invariant srv.View() == AdmitTimes(s, room, i)
    {
      srv.AdmitFromRoomQueue(room);
    }
  }

  /** Every room gets as many admissions as it lost clients, the rooms in any order. */
  method AdmitOpened(srv: LiveServer, counts: map<string, nat>, ghost ids: seq<ConnId>) returns (ghost reopened: seq<string>)
    requires srv.Valid() && Counts(counts, srv.View(), ids)
    modifies srv, srv.rooms.Values
    ensures srv.Valid() && fresh(srv.rooms.Values - old(srv.rooms.Values))
    ensures Enumerates(reopened, set id | id in ids :: ClientOf(old(srv.View()), id).room)
    ensures srv.View() == AdmitRooms(old(srv.View()), reopened, ids)
  {
    hide AdmitTimes, Enumerates;
    ghost var s := srv.View();
    var left := counts.Keys;
    reopened := [];
    AdmitNoRooms(s, ids, counts.Keys);
    while left != {}
      invariant srv.Valid() && fresh(srv.rooms.Values - old(srv.rooms.Values))
      invariant left <= counts.Keys && Enumerates(reopened, counts.Keys - left)
      invariant srv.View() == AdmitRooms(s, reopened, ids)
      decreases |left|
    {
      var room :| room in left;
      AdmitOneRoom(s, reopened, ids, room);
      VisitOneMore(reopened, counts.Keys, left, room);
      AdmitRepeatedly(srv, room, counts[room]);
      left, reopened := left - {room}, reopened + [room];
    }
    assert counts.Keys - left == counts.Keys;
  }

  lemma AdmitNoRooms(s: Server, ids: seq<ConnId>, all: set<string>)
    ensures AdmitRooms(s, [], ids) == s && Enumerates<string>([], all - all)
  {
  }

  lemma AdmitOneRoom(s: Server, rooms: seq<string>, ids: seq<ConnId>, room: string)
    ensures AdmitRooms(s, rooms + [room], ids) == AdmitTimes(AdmitRooms(s, rooms, ids), room, SlotsOpened(s, ids, room))
  {
    assert (rooms + [room])[..|rooms + [room]| - 1] == rooms;
  }

  lemma CountsFor(counts: map<string, nat>, s: Server, t: Server, ids: seq<ConnId>)
    requires Counts(counts, s, ids) && forall id :: ClientOf(t, id).room == ClientOf(s, id).room
    ensures Counts(counts, t, ids)
    ensures (set id | id in ids :: ClientOf(t, id).room) == set id | id in ids :: ClientOf(s, id).room
  {
    forall room ensures SlotsOpened(t, ids, room) == SlotsOpened(s, ids, room) { Bans.SameSlots(s, t, ids, room); }
  }

  lemma CountFirst(s: Server, id: ConnId)
    ensures Counts(map[ClientOf(s, id).room := 1], s, [id])
  {
    assert [id][..0] == [];
  }

  lemma FirstOfBan(s: Server, name: string, issuer: string, now: Moment)
    requires name in s.clients
    ensures var t := BanFirst(s, name, issuer, now);
            && (OwnNames(s) ==> OwnNames(t))
            && (forall id :: ClientOf(t, id).room == ClientOf(s, id).room)
  {
    hide Expel, Ownership.SameLinks;
    var id := s.clients[name];
    Ownership.ExpelLinks(s, id, name, Banned, issuer, now);
    LinkedClients(s, Expel(s, id, name, Banned, issuer, now), id, name);
  }

  lemma LinkedClients(s: Server, t: Server, id: ConnId, name: string)
    requires Ownership.SameLinks(Ownership.ExpelledLinks(s, id, name, Banned), t)
    ensures t.clients == Ownership.ExpelledLinks(s, id, name, Banned).clients
    ensures forall n :: n in t.clients ==> n in s.clients && t.clients[n] == s.clients[n]
  {
  }

  /** The ban, as /ban and as the operator's ban. The orders its map iterations took are returned for the
      specification's sake. */
  method Ban(srv: LiveServer, name: string, issuer: string, exclude: string, now: Moment) returns (ghost order: BanOrder)
    requires srv.Valid() && name in srv.clients
    modifies srv, srv.rooms.Values
    ensures srv.Valid() && fresh(srv.rooms.Values - old(srv.rooms.Values))
    ensures srv.View() == BanTarget(old(srv.View()), name, issuer, order, now)
    ensures OwnNames(old(srv.View())) ==> PossibleOrder(old(srv.View()), name, issuer, exclude, order, now)
  {
    hide Expel, ExpelAll, PurgeAndClose, AdmitRooms, Counts, Enumerates, ClientsByHost, OwnNames;
    ghost var s := srv.View();
    var id := srv.clients[name];
    var c := srv.Conn(id);
    FirstOfBan(s, name, issuer, now);
    CountFirst(s, id);
    ExpelOne(srv, id, name, Banned, issuer, now);
    srv.AddBanIP(c.host);
    var collateral := srv.GetClientsByIP(c.host, exclude);
    var counts := ExpelEach(srv, collateral, issuer, now, map[c.room := 1], s, [id]);
    ghost var expelled := srv.View();
    var removed, visit := SweepQueues(srv, c.host);
    Bans.SweepKeepsRooms(expelled, c.host, visit);
    CountsFor(counts, s, srv.View(), [id] + collateral);
    ghost var reopened := AdmitOpened(srv, counts, [id] + collateral);
    order := BanOrder(collateral, visit, reopened);
  }

  method CmdBan(srv: LiveServer, id: ConnId, args: string, now: Moment) returns (ghost order: BanOrder)
    requires srv.Valid()
    modifies srv, srv.rooms.Values
    ensures srv.Valid() && fresh(srv.rooms.Values - old(srv.rooms.Values))
    ensures srv.View() == Step(old(srv.View()), Action.Ban(id, args, order), now)
    ensures OwnNames(old(srv.View())) && args in old(srv.clients) && IsAdmin(old(srv.View()), id) && args != "" ==>
              PossibleOrder(old(srv.View()), args, ClientOf(old(srv.View()), id).username, ClientOf(old(srv.View()), id).username, order, now)
  {
    hide BanTarget, PossibleOrder, OwnNames;
    var c := srv.Conn(id);
    order := BanOrder([], [], []);
    if !c.admin || args == "" || args !in srv.clients { return; }
    order := Ban(srv, args, c.username, c.username, now);
  }

  // ---------- operator.go ----------

  method OperatorCmdKick(srv: LiveServer, args: string, now: Moment) returns (ghost visit: seq<string>)
    requires srv.Valid()
    modifies srv, srv.rooms.Values
    ensures srv.Valid() && fresh(srv.rooms.Values - old(srv.rooms.Values))
    ensures srv.View() == Step(old(srv.View()), OperatorKick(args, visit), now)
    ensures args != "" && args !in old(srv.clients) ==> Enumerates(visit, old(srv.View()).rooms.Keys)
  {
    hide KickTarget, KickQueued, Enumerates;
    visit := [];
    if args == "" { return; }
    if args in srv.clients { Kick(srv, args, "Server", now); } else { visit := KickByAddress(srv, args, now); }
  }

  method OperatorCmdBan(srv: LiveServer, args: string, now: Moment) returns (ghost order: BanOrder)
    requires srv.Valid()
    modifies srv, srv.rooms.Values
    ensures srv.Valid() && fresh(srv.rooms.Values - old(srv.rooms.Values))
    ensures srv.View() == Step(old(srv.View()), OperatorBan(args, order), now)
    ensures OwnNames(old(srv.View())) && args != "" ==>
              if args in old(srv.clients) then PossibleOrder(old(srv.View()), args, "Server", "", order, now)
              else Enumerates(order.visit, old(srv.View()).rooms.Keys)
  {
    hide BanTarget, BanQueued, PossibleOrder, OwnNames, Enumerates;
    order := BanOrder([], [], []);
    if args == "" { return; }
    if args in srv.clients {
      order := Ban(srv, args, "Server", "", now);
    } else {
      ghost var visit := BanByAddress(srv, args);
      order := BanOrder([], visit, []);
    }
  }

  method SetAdminFlag(srv: LiveServer, name: string, on: bool, now: Moment)
    requires srv.Valid() && name in srv.clients
    modifies srv, srv.rooms.Values
    ensures srv.Valid() && fresh(srv.rooms.Values - old(srv.rooms.Values))
    ensures srv.View() == PromoteTarget(old(srv.View()), name, on, "Server", now)
  {
    hide Record;
    var id := srv.clients[name];
    var c := srv.Conn(id);
    if c.admin == on { return; }
    SetConn(srv, id, c.(admin := on));
    srv.admins := if on then srv.admins + {name} else srv.admins - {name};
    var verb := if on then "promoted" else "demoted";
    var _ := srv.RecordRoomEvent(c.room, Note(now, Moderation, name, verb, "Server"));
  }

  method OperatorCmdPromote(srv: LiveServer, args: string, now: Moment)
    requires srv.Valid()
    modifies srv, srv.rooms.Values
    ensures srv.Valid() && fresh(srv.rooms.Values - old(srv.rooms.Values))
    ensures srv.View() == Step(old(srv.View()), OperatorPromote(args), now)
  {
    hide PromoteTarget;
    if args != "" && args in srv.clients { SetAdminFlag(srv, args, true, now); }
  }

  method OperatorCmdDemote(srv: LiveServer, args: string, now: Moment)
    requires srv.Valid()
    modifies srv, srv.rooms.Values
    ensures srv.Valid() && fresh(srv.rooms.Values - old(srv.rooms.Values))
    ensures srv.View() == Step(old(srv.View()), OperatorDemote(args), now)
  {
    hide PromoteTarget;
    if args != "" && args in srv.clients { SetAdminFlag(srv, args, false, now); }
  }
}
