/** Which steps admit, and which rooms go: only departures admit, and a room goes exactly when the departure leaves it
    empty (server/room.go, commands.go, handler.go). */
module Tidiness {
  import opened Text
  import opened Messages
  import opened ServerState
  import opened Commands
  import opened Ownership
  import opened OwnershipRuns
  import opened Indexes
  import opened Grounds
  import opened Queues
  import opened QueueRuns
  import opened Bans
  import opened Departures
  import opened Still
  import opened Blocked

  // ---------- rooms stay ----------

  predicate RoomsGrow(s: Server, t: Server) { s.rooms.Keys <= t.rooms.Keys }

  lemma ExpelGrows(s: Server, id: ConnId, name: string, verdict: Reason, issuer: string, now: Moment)
    ensures RoomsGrow(s, Expel(s, id, name, verdict, issuer, now))
  {
    hide Verb;
  }

  lemma AdmitGrows(s: Server, room: string)
    ensures RoomsGrow(s, Admit(s, room))
  {
  }

  lemma {:induction false} ExpelAllGrows(s: Server, ids: seq<ConnId>, issuer: string, now: Moment)
    ensures RoomsGrow(s, ExpelAll(s, ids, issuer, now))
  {
    hide Expel;
    if ids != [] {
      var t, id := ExpelAll(s, ids[..|ids| - 1], issuer, now), ids[|ids| - 1];
      ExpelAllGrows(s, ids[..|ids| - 1], issuer, now);
      ExpelGrows(t, id, ClientOf(t, id).username, Banned, issuer, now);
    }
  }

  lemma {:induction false} AdmitTimesGrows(s: Server, room: string, n: nat)
    ensures RoomsGrow(s, AdmitTimes(s, room, n))
  {
    hide Admit;
    if n > 0 {
      AdmitTimesGrows(s, room, n - 1);
      AdmitGrows(AdmitTimes(s, room, n - 1), room);
    }
  }

  lemma {:induction false} AdmitRoomsGrows(s: Server, rooms: seq<string>, ids: seq<ConnId>)
    ensures RoomsGrow(s, AdmitRooms(s, rooms, ids))
  {
    hide AdmitTimes, SlotsOpened;
    if rooms != [] {
      var init, room := rooms[..|rooms| - 1], rooms[|rooms| - 1];
      AdmitRoomsGrows(s, init, ids);
      AdmitTimesGrows(AdmitRooms(s, init, ids), room, SlotsOpened(s, ids, room));
    }
  }

  lemma {:induction false} PurgeGrows(s: Server, host: string, visit: seq<string>)
    ensures RoomsGrow(s, Purge(s, host, visit).0)
  {
    hide Kept, Dropped, Renumber;
    if visit != [] {
      PurgeGrows(s, host, visit[..|visit| - 1]);
      PurgeStep(s, host, visit);
    }
  }

  lemma SweepGrows(s: Server, host: string, visit: seq<string>)
    ensures RoomsGrow(s, PurgeAndClose(s, host, visit))
  {
    hide Purge, CloseAll;
    PurgeGrows(s, host, visit);
    Bans.CloseAllFrame(Purge(s, host, visit).0, Purge(s, host, visit).1);
  }

  lemma KickGrows(s: Server, name: string, issuer: string, now: Moment)
    requires name in s.clients
    ensures RoomsGrow(s, KickTarget(s, name, issuer, now))
  {
    hide Expel, Admit;
    var id := s.clients[name];
    ExpelGrows(s, id, name, Kicked, issuer, now);
    AdmitGrows(AddKickCooldown(Expel(s, id, name, Kicked, issuer, now), ClientOf(s, id).host, now.clock), ClientOf(s, id).room);
  }

  lemma BanGrows(s: Server, name: string, issuer: string, order: BanOrder, now: Moment)
    requires name in s.clients
    ensures RoomsGrow(s, BanTarget(s, name, issuer, order, now))
  {
    hide Expel, ExpelAll, PurgeAndClose, AdmitRooms;
    var id := s.clients[name];
    ExpelGrows(s, id, name, Banned, issuer, now);
    ExpelAllGrows(BanFirst(s, name, issuer, now), order.collateral, issuer, now);
    var u := BanEveryone(s, name, issuer, order, now);
    SweepGrows(u, ClientOf(s, id).host, order.visit);
    AdmitRoomsGrows(PurgeAndClose(u, ClientOf(s, id).host, order.visit), order.reopened, Expelled(s, name, order));
  }

  /** Moderation deletes no room. */
  lemma ModerationGrows(s: Server, a: Action, now: Moment)
    requires a.Kick? || a.Ban? || a.OperatorKick? || a.OperatorBan?
    ensures RoomsGrow(s, Step(s, a, now))
  {
    hide KickTarget, BanTarget, PurgeAndClose, Purge;
    match a
    case Kick(id, args) => if args in s.clients { KickGrows(s, args, ClientOf(s, id).username, now); }
    case Ban(id, args, order) => if args in s.clients { BanGrows(s, args, ClientOf(s, id).username, order, now); }
    case OperatorKick(args, visit) =>
      if args in s.clients { KickGrows(s, args, "Server", now); }
      SweepGrows(s, args, visit);
    case OperatorBan(args, order) =>
      if args in s.clients { BanGrows(s, args, "Server", order, now); }
      SweepGrows(s, args, order.visit);
  }

  // ---------- the room left ----------

  /** The room is still there exactly if it is the default one, or somebody is in it, or somebody waits for it. */
  predicate KeptFor(t: Server, room: string) {
    room in t.rooms <==> room == DEFAULT_ROOM || Members(t, room) != map[] || Queue(t, room) != []
  }

  lemma DeletedIfEmpty(s: Server, room: string)
    requires DEFAULT_ROOM in s.rooms
    ensures var t := DeleteRoomIfEmpty(s, room);
            && KeptFor(t, room) && DEFAULT_ROOM in t.rooms
            && (forall r :: r != room && r in s.rooms ==> r in t.rooms)
            && (forall r :: Members(t, r) == Members(s, r) && Queue(t, r) == Queue(s, r))
            && (room !in t.rooms ==> History(t, room) == [])
  {
    hide History;
    if room !in s.rooms || DeleteRoomIfEmpty(s, room) != s { assert History(DeleteRoomIfEmpty(s, room), room) == [] by { NoHistory(DeleteRoomIfEmpty(s, room), room); } }
  }

  lemma NoHistory(s: Server, room: string)
    requires room !in s.rooms
    ensures History(s, room) == []
  {
  }

  /** Publishing in another room leaves this one as it is. */
  lemma PublishElsewhere(s: Server, room: string, m: Message, exclude: string)
    ensures var t := Publish(s, room, m, exclude);
            && t.rooms.Keys == s.rooms.Keys + {room}
            && (forall r :: Members(t, r) == Members(s, r) && Queue(t, r) == Queue(s, r))
            && (forall r :: r != room ==> History(t, r) == History(s, r))
  {
  }

  lemma AdmitRest(s: Server, room: string)
    ensures var t := Admit(s, room); t.rooms.Keys == s.rooms.Keys && forall r :: Members(t, r) == Members(s, r)
  {
  }

  lemma JoinRest(s: Server, id: ConnId, to: string)
    ensures JoinRoom(s, id, to).rooms.Keys == s.rooms.Keys + {to}
  {
  }

  lemma SwitchTidies(s: Server, id: ConnId, to: string, now: Moment)
    requires DEFAULT_ROOM in s.rooms && ClientOf(s, id).room != ""
    ensures var c, t := ClientOf(s, id), SwitchRoom(s, id, to, now);
            && KeptFor(t, c.room) && DEFAULT_ROOM in t.rooms
            && Members(t, c.room) == (if c.room == to then (Members(s, c.room) - {c.username})[c.username := id] else Members(s, c.room) - {c.username})
            && (forall r :: r != c.room && r in s.rooms ==> r in t.rooms)
            && (c.room !in t.rooms ==> History(t, c.room) == [])
  {
    hide Publish, JoinRoom, Admit, DeleteRoomIfEmpty, Members, Queue, History;
    var c := ClientOf(s, id);
    var leave, join := Note(now, Kind.Leave, c.username, "", "switched"), Note(now, Kind.Join, c.username, "", "");
    var parted := Publish(s, c.room, leave, c.username);
    PublishElsewhere(s, c.room, leave, c.username);
    PublishData(s, c.room, leave, c.username);
    var joined := JoinRoom(parted, id, to);
    JoinMembers(parted, id, to, c.room);
    JoinRest(parted, id, to);
    assert ClientOf(parted, id) == c;
    var admitted := Admit(joined, c.room);
    AdmitRest(joined, c.room);
    DeletedIfEmpty(admitted, c.room);
    var arrived := DeleteRoomIfEmpty(admitted, c.room);
    var sent := SendHistory(arrived, id, to);
    SentSame(arrived, id, to);
    PublishElsewhere(sent, to, join, c.username);
    var t := SwitchRoom(s, id, to, now);
    if c.room == to { assert c.username in Members(t, to) && to in t.rooms; }
  }

  lemma SentSame(s: Server, id: ConnId, to: string)
    ensures var t := SendHistory(s, id, to);
            t.rooms == s.rooms && forall r :: Members(t, r) == Members(s, r) && Queue(t, r) == Queue(s, r) && History(t, r) == History(s, r)
  {
  }

  lemma CleanupTidies(s: Server, id: ConnId, now: Moment)
    requires DEFAULT_ROOM in s.rooms && ClientOf(s, id).room != ""
    ensures Parted(s, Cleanup(s, id, now), id)
  {
    hide Publish, RemoveClient, Admit, DeleteRoomIfEmpty, Members, Queue, History, Moderated;
    var c := ClientOf(s, id);
    var m := Note(now, Kind.Leave, c.username, "", if c.reason.Unset? then "voluntary" else "drop");
    var removed := RemoveClient(s, c.username);
    if c.username in s.clients { RemoveMembers(s, c.username, c.room); } else { assert removed == s by { NobodyRemoved(s, c.username); } }
    RemovedKeys(s, c.username);
    PublishElsewhere(removed, c.room, m, c.username);
    var t := if Moderated(c) then s else Publish(removed, c.room, m, c.username);
    AdmitRest(t, c.room);
    DeletedIfEmpty(Admit(t, c.room), c.room);
    var u := DeleteRoomIfEmpty(Admit(t, c.room), c.room);
    OneClientSame(u, id, ClientOf(u, id).(closed := true, stage := Finished));
  }

  lemma NobodyRemoved(s: Server, name: string)
    requires name !in s.clients
    ensures RemoveClient(s, name) == s
  {
  }

  lemma RemovedKeys(s: Server, name: string)
    ensures RemoveClient(s, name).rooms.Keys == s.rooms.Keys
  {
  }

  lemma OneClientSame(s: Server, id: ConnId, c: Client)
    ensures var t := WithClient(s, id, c);
            t.rooms == s.rooms && t.clients == s.clients && forall r :: Members(t, r) == Members(s, r) && Queue(t, r) == Queue(s, r) && History(t, r) == History(s, r)
  {
  }

  /** What a session's end leaves of the rooms. */
  ghost predicate Parted(s: Server, t: Server, id: ConnId) {
    var c := ClientOf(s, id);
            && KeptFor(t, c.room) && DEFAULT_ROOM in t.rooms
            && Members(t, c.room) == (if Moderated(c) || c.username !in s.clients || ClientOf(s, s.clients[c.username]).room != c.room
                                      then Members(s, c.room) else Members(s, c.room) - {c.username})
            && (forall r :: r != c.room && r in s.rooms ==> r in t.rooms)
            && (c.room !in t.rooms ==> History(t, c.room) == [])
  }

  lemma PartedIgnoresReason(s: Server, id: ConnId, c: Client, t: Server)
    requires c == ClientOf(s, id).(reason := c.reason) && Moderated(c) == Moderated(ClientOf(s, id))
    requires Parted(WithClient(s, id, c), t, id)
    ensures Parted(s, t, id)
  {
    hide History, Queue, KeptFor, Moderated;
  }

  lemma LeaveTidies(s: Server, id: ConnId, drop: bool, now: Moment)
    requires DEFAULT_ROOM in s.rooms && ClientOf(s, id).room != ""
    ensures Parted(s, Step(s, Action.Leave(id, drop), now), id)
  {
    hide Cleanup, Parted;
    var c := SetReason(ClientOf(s, id), drop);
    CleanupTidies(WithClient(s, id, c), id, now);
    PartedIgnoresReason(s, id, c, Cleanup(WithClient(s, id, c), id, now));
  }

  /** Moving or leaving; the others delete no room. */
  predicate Goes(a: Action) { a.Switch? || a.Create? || a.Leave? }

  /** What becomes of the rooms in one step. */
  lemma StepTidies(s: Server, a: Action, now: Moment)
    requires Grounded(s) && DEFAULT_ROOM in s.rooms && Enabled(s, a, now)
    ensures var t := Step(s, a, now);
            && DEFAULT_ROOM in t.rooms
            && (forall r :: r in s.rooms && r !in t.rooms ==> Goes(a) && Departs(s, a, r))
            && (Goes(a) && Departs(s, a, ClientOf(s, a.id).room) ==>
                 KeptFor(t, ClientOf(s, a.id).room) && (ClientOf(s, a.id).room !in t.rooms ==> History(t, ClientOf(s, a.id).room) == []))
  {
    hide Grounded, SwitchRoom, Step, Enabled, KeptFor, ValidName, History;
    if !Removes(a) {
      StillStep(s, a, now);
    } else if !Goes(a) {
      ModerationGrows(s, a, now);
    } else {
      OfGrounded(s, a.id);
      assert ClientOf(s, a.id).room != "" by { GoesFromRoom(s, a, now); }
      if a.Leave? {
        LeaveTidies(s, a.id, a.drop, now);
      } else if Departs(s, a, ClientOf(s, a.id).room) {
        MoveStep(s, a, now);
        SwitchTidies(s, a.id, a.args, now);
      } else {
        MoveRefused(s, a, now);
      }
    }
  }

  lemma GoesFromRoom(s: Server, a: Action, now: Moment)
    requires Goes(a) && Enabled(s, a, now) && ConnGrounded(ClientOf(s, a.id))
    ensures ClientOf(s, a.id).room != ""
  {
  }

  lemma MoveStep(s: Server, a: Action, now: Moment)
    requires (a.Switch? || a.Create?) && Departs(s, a, ClientOf(s, a.id).room)
    ensures Step(s, a, now) == SwitchRoom(s, a.id, a.args, now)
  {
    hide SwitchRoom, ValidName;
  }

  lemma MoveRefused(s: Server, a: Action, now: Moment)
    requires (a.Switch? || a.Create?) && !Departs(s, a, ClientOf(s, a.id).room)
    ensures Step(s, a, now) == s
  {
    hide SwitchRoom, ValidName;
  }

  // ---------- reachable states ----------

  lemma {:induction false} DefaultStays(s: Server, run: Run)
    requires Grounded(s) && DEFAULT_ROOM in s.rooms && Possible(s, run)
    ensures DEFAULT_ROOM in After(s, run).rooms
    decreases |run|
  {
    hide Grounded, Step, Enabled, KeptFor, Departs;
    if run != [] {
      StepTidies(s, run[0].0, run[0].1);
      StepGrounded(s, run[0].0, run[0].1);
      DefaultStays(Step(s, run[0].0, run[0].1), run[1..]);
    }
  }

  lemma ReachableRooms(admins: set<string>, run: Run)
    requires Possible(Fresh(admins), run)
    ensures Grounded(After(Fresh(admins), run)) && QueuesOk(After(Fresh(admins), run)) && DEFAULT_ROOM in After(Fresh(admins), run).rooms
  {
    hide Grounded, QueuesOk, Possible, After;
    FreshGrounded(admins);
    FreshQueuesOk(admins);
    RunGrounded(Fresh(admins), run);
    RunQueuesOk(Fresh(admins), run);
    DefaultStays(Fresh(admins), run);
  }

  /** In every reachable state: a step deletes a room only if it is the room somebody moves out of or leaves; the room left
      then stays exactly if it is the default one, or has a member, or somebody waits for it; and a deleted room has no
      history and can be created again. */
  lemma AbandonedRoomsGo(admins: set<string>, run: Run, a: Action, now: Moment)
    requires Possible(Fresh(admins), run) && Enabled(After(Fresh(admins), run), a, now)
    ensures var s := After(Fresh(admins), run);
            var t := Step(s, a, now);
            && DEFAULT_ROOM in t.rooms
            && (forall r :: r in s.rooms && r !in t.rooms ==> Goes(a) && Departs(s, a, r) && History(t, r) == [] && Members(t, r) == map[] && Queue(t, r) == [])
            && (forall r :: r in s.rooms && r !in t.rooms && r != "" && ValidName(r) ==> Creates(t, r))
            && (Goes(a) && Departs(s, a, ClientOf(s, a.id).room) ==>
                 (ClientOf(s, a.id).room in t.rooms
                  <==> ClientOf(s, a.id).room == DEFAULT_ROOM || Members(t, ClientOf(s, a.id).room) != map[] || Queue(t, ClientOf(s, a.id).room) != []))
  {
    hide Possible, After, Grounded, QueuesOk, Step, Enabled, ValidName, History;
    ReachableRooms(admins, run);
    var s := After(Fresh(admins), run);
    var t := Step(s, a, now);
    StepTidies(s, a, now);
    forall r | r in s.rooms && r !in t.rooms ensures Goes(a) && Departs(s, a, r) && History(t, r) == [] && Members(t, r) == map[] && Queue(t, r) == [] {
      NoHistory(t, r);
      OwnRoom(s, a, r);
    }
  }

  lemma OwnRoom(s: Server, a: Action, room: string)
    requires Goes(a) && Departs(s, a, room)
    ensures room == ClientOf(s, a.id).room
  {
    hide ValidName;
  }

  /** The last one out: a member alone in its room, nobody waiting, moves to another room or, while the indexes are owned,
      leaves unmoderated: the room is gone, unless it is the default one. */
  lemma LastOneOut(s: Server, a: Action, now: Moment)
    requires Grounded(s) && QueuesOk(s) && DEFAULT_ROOM in s.rooms && Enabled(s, a, now) && Goes(a) && !s.shuttingDown
    requires var c := ClientOf(s, a.id);
             && Departs(s, a, c.room) && c.room != DEFAULT_ROOM && Queue(s, c.room) == [] && Members(s, c.room).Keys <= {c.username}
             && (if a.Leave? then Owned(s) && !Moderated(c) else a.args != c.room)
    ensures ClientOf(s, a.id).room !in Step(s, a, now).rooms
  {
    hide Grounded, QueuesOk, Step, Enabled, ValidName, History, Owned;
    var c, t := ClientOf(s, a.id), Step(s, a, now);
    StepTidies(s, a, now);
    DepartureServes(s, a, now, c.room);
    assert Queue(t, c.room) == [] by { NobodyServed(s, t, c.room); }
    OfGrounded(s, a.id);
    GoesFromRoom(s, a, now);
    if a.Leave? {
      LeaveTidies(s, a.id, a.drop, now);
      SessionRegistered(s, a.id, now, a.drop);
    } else {
      MoveStep(s, a, now);
      SwitchTidies(s, a.id, a.args, now);
    }
  }

  lemma NobodyServed(s: Server, t: Server, room: string)
    requires Served(s, t, room) && Queue(s, room) == []
    ensures Queue(t, room) == []
  {
    var k: nat :| ServedAt(s, t, room, k);
  }

  lemma SessionRegistered(s: Server, id: ConnId, now: Moment, drop: bool)
    requires Owned(s) && Enabled(s, Action.Leave(id, drop), now) && !Moderated(ClientOf(s, id))
    ensures ClientOf(s, id).username in s.clients && s.clients[ClientOf(s, id).username] == id
  {
    hide Owned;
    ActiveFacts(s, id);
  }

  // ---------- who admits ----------

  lemma NamelessQueue(s: Server)
    requires Grounded(s) && QueuesOk(s)
    ensures Queue(s, "") == []
  {
    hide Grounded, QueuesOk;
    if Queue(s, "") != [] {
      var e := Queue(s, "")[0];
      QueuedEntry(s, "", e);
      OfGrounded(s, e.client);
    }
  }

  lemma NothingToAdmit(s: Server, room: string)
    requires Queue(s, room) == []
    ensures Admit(s, room).admitted == s.admitted
  {
  }

  lemma PendingKickAdmitsNobody(s: Server, name: string, issuer: string, now: Moment)
    requires Grounded(s) && QueuesOk(s) && name in s.clients && ClientOf(s, s.clients[name]).room == ""
    ensures KickTarget(s, name, issuer, now).admitted == s.admitted
  {
    hide Expel, Admit, Grounded, QueuesOk;
    var id := s.clients[name];
    NamelessQueue(s);
    ExpelData(s, id, name, Kicked, issuer, now);
    NothingToAdmit(AddKickCooldown(Expel(s, id, name, Kicked, issuer, now), ClientOf(s, id).host, now.clock), "");
  }

  /** A step that is no departure and no ban admits nobody. */
  lemma OnlyDeparturesAdmit(s: Server, a: Action, now: Moment)
    requires Grounded(s) && QueuesOk(s) && Enabled(s, a, now) && !a.Ban? && !a.OperatorBan? && forall room :: !Departs(s, a, room)
    ensures Step(s, a, now).admitted == s.admitted
  {
    hide Grounded, QueuesOk, KickTarget, PurgeAndClose, Purge, SwitchRoom, PossibleOrder, Enumerates, ValidName, Departs;
    if !Removes(a) {
      hide Step, Enabled;
      StillStep(s, a, now);
    } else if a.OperatorKick? {
      OperatorKickAdmits(s, a, now);
    } else if a.Leave? {
      assert Departs(s, a, ClientOf(s, a.id).room) by { LeaveDeparts(s, a); }
    } else if a.Kick? {
      KickRefused(s, a, now);
    } else {
      MoveRefused(s, a, now);
    }
  }

  lemma LeaveDeparts(s: Server, a: Action)
    requires a.Leave?
    ensures Departs(s, a, ClientOf(s, a.id).room)
  {
  }

  lemma KickRefused(s: Server, a: Action, now: Moment)
    requires a.Kick? && forall room :: !Departs(s, a, room)
    ensures Step(s, a, now) == s
  {
    hide KickTarget;
    assert !Departs(s, a, ClientOf(s, a.id).room);
  }

  lemma OperatorKickAdmits(s: Server, a: Action, now: Moment)
    requires Grounded(s) && QueuesOk(s) && Enabled(s, a, now) && a.OperatorKick? && forall room :: !Departs(s, a, room)
    ensures Step(s, a, now).admitted == s.admitted
  {
    hide Grounded, QueuesOk, KickTarget, PurgeAndClose, Purge, Swept;
    if a.args != "" {
      if a.args in s.clients {
        assert !Departs(s, a, ClientOf(s, s.clients[a.args]).room);
        PendingKickAdmitsNobody(s, a.args, "Server", now);
      } else {
        SweepClosesTheHost(s, a, now);
        assert Step(s, a, now).admitted == s.admitted by { SweptAdmits(s, Step(s, a, now), a.args); }
      }
    }
  }

  lemma SweptAdmits(s: Server, t: Server, host: string)
    requires Swept(s, t, host)
    ensures t.admitted == s.admitted
  {
  }
}
