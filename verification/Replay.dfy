/** Folding a room's history gives exactly the room's members: over every run, exactly as long as no name leaves or
    enters a room's index without the event that says so. */
module Replay {
  import opened Text
  import opened Messages
  import opened ServerState
  import opened Commands
  import opened Ownership
  import opened OwnershipRuns
  import opened Indexes
  import opened Grounds

  // ---------- the fold ----------

  /** Effect of one history item on the names present. */
  function Apply(names: set<string>, m: Message): set<string> {
    match m.kind
    case Join => names + {m.sender}
    case Leave => names - {m.sender}
    case NameChange => names - {m.extra} + {m.sender}
    case Moderation => if m.content == "kicked" || m.content == "banned" then names - {m.sender} else names
    case _ => names
  }

  function Present(base: set<string>, history: seq<Event>): set<string> {
    if history == [] then base else Apply(Present(base, history[..|history| - 1]), history[|history| - 1].msg)
  }

  /** Members of each room when its history last began. */
  type Base = map<string, set<string>>

  function BaseOf(base: Base, room: string): set<string> { if room in base then base[room] else {} }

  predicate RoomReplays(s: Server, base: Base, room: string) {
    Present(BaseOf(base, room), History(s, room)) == Members(s, room).Keys
  }

  ghost predicate Replays(s: Server, base: Base) {
    base.Keys <= s.rooms.Keys && forall room :: RoomReplays(s, base, room)
  }

  /** A deleted room starts again from nothing; clearing all histories restarts each fold at the current members. */
  function NextBase(base: Base, s: Server, a: Action, t: Server): Base {
    if a.Midnight? then map room | room in s.rooms :: Members(s, room).Keys
    else map room | room in base && room in t.rooms :: base[room]
  }

  // ---------- one recorded item ----------

  lemma PresentAppend(base: set<string>, h: seq<Event>, e: Event)
    ensures Present(base, h + [e]) == Apply(Present(base, h), e.msg)
  {
    hide Apply;
    assert (h + [e])[..|h|] == h;
  }

  ghost predicate SameRooms(s: Server, t: Server) {
    s.rooms.Keys <= t.rooms.Keys
    && forall room :: Members(t, room).Keys == Members(s, room).Keys && History(t, room) == History(s, room)
  }

  /** t differs from s by one item in one room's history and the member change it stands for. */
  ghost predicate OneItem(s: Server, t: Server, room: string, e: Event) {
    && s.rooms.Keys <= t.rooms.Keys
    && History(t, room) == History(s, room) + [e]
    && Members(t, room).Keys == Apply(Members(s, room).Keys, e.msg)
    && (forall r :: r != room ==> History(t, r) == History(s, r) && Members(t, r).Keys == Members(s, r).Keys)
  }

  lemma SameRoomsReplays(s: Server, t: Server, base: Base)
    requires Replays(s, base) && SameRooms(s, t)
    ensures Replays(t, base)
  {
    forall room ensures RoomReplays(t, base, room) { assert RoomReplays(s, base, room); }
  }

  lemma OneItemReplays(s: Server, t: Server, base: Base, room: string, e: Event)
    requires Replays(s, base) && OneItem(s, t, room, e)
    ensures Replays(t, base)
  {
    hide Apply;
    forall r ensures RoomReplays(t, base, r) {
      assert RoomReplays(s, base, r);
      if r == room {
        PresentAppend(BaseOf(base, r), History(s, r), e);
      }
    }
  }

  lemma SameRoomsTrans(s: Server, t: Server, u: Server)
    requires SameRooms(s, t) && SameRooms(t, u)
    ensures SameRooms(s, u)
  {
  }

  // ---------- sections ----------

  /** Publishing an item records it and changes nothing else. */
  lemma PublishRooms(s: Server, room: string, m: Message, exclude: string)
    ensures var t := Publish(s, room, m, exclude);
            && t.rooms.Keys == s.rooms.Keys + {room}
            && History(t, room) == History(s, room) + [EventOf(s, room, m)]
            && (forall r :: Members(t, r) == Members(s, r))
            && (forall r :: r != room ==> History(t, r) == History(s, r))
  {
  }

  lemma RecordRooms(s: Server, room: string, m: Message)
    ensures var t := Record(s, room, m);
            && t.rooms.Keys == s.rooms.Keys + {room}
            && History(t, room) == History(s, room) + [EventOf(s, room, m)]
            && (forall r :: Members(t, r) == Members(s, r))
            && (forall r :: r != room ==> History(t, r) == History(s, r))
  {
  }

  lemma WithQueueRooms(s: Server, room: string, queue: seq<Entry>)
    requires room in s.rooms
    ensures SameRooms(s, WithQueue(s, room, queue))
  {
  }

  lemma AdmitRoomsSame(s: Server, room: string)
    ensures SameRooms(s, Admit(s, room))
    ensures Admit(s, room).rooms.Keys == s.rooms.Keys
    ensures forall r :: Members(Admit(s, room), r) == Members(s, r)
  {
    hide ClosedAhead, Renumber;
    if room in s.rooms {
      var queue := Queue(s, room);
      WithQueueRooms(s, room, []);
      var k := ClosedAhead(s, queue);
      if k < |queue| {
        WithQueueRooms(s, room, queue[k + 1..]);
      }
    }
  }

  lemma RemoveFromQueueRooms(s: Server, room: string, ticket: nat)
    ensures SameRooms(s, RemoveFromQueue(s, room, ticket))
  {
    hide WithoutTicket, Renumber;
  }

  function Restrict(base: Base, t: Server): Base { map room | room in base && room in t.rooms :: base[room] }

  /** Deleting an empty room drops its history and its base together. */
  lemma DeleteReplays(s: Server, room: string, base: Base)
    requires Replays(s, base)
    ensures Replays(DeleteRoomIfEmpty(s, room), Restrict(base, DeleteRoomIfEmpty(s, room)))
  {
    var t := DeleteRoomIfEmpty(s, room);
    forall r ensures RoomReplays(t, Restrict(base, t), r) { assert RoomReplays(s, base, r); }
  }

  lemma RestrictAll(base: Base, t: Server)
    requires base.Keys <= t.rooms.Keys
    ensures Restrict(base, t) == base
  {
  }

  // ---------- composite steps ----------

  lemma EnterRoomReplays(s: Server, id: ConnId, room: string, now: Moment, base: Base)
    requires Grounded(s) && Replays(s, base) && Pending(ClientOf(s, id).stage) && ValidName(room)
    ensures Replays(EnterRoom(s, id, room, now), base)
  {
    hide Grounded, ValidName, Publish, Replays;
    OfGrounded(s, id);
    var c := ClientOf(s, id);
    var joined := JoinRoom(s, id, room);
    JoinedRooms(s, id, room);
    var settled := WithClient(SendHistory(joined, id, room), id, ClientOf(joined, id).(stage := Active));
    var m := Note(now, Kind.Join, c.username, "", "");
    PublishRooms(settled, room, m, c.username);
    OneItemReplays(s, EnterRoom(s, id, room, now), base, room, EventOf(settled, room, m));
  }

  lemma JoinedRooms(s: Server, id: ConnId, room: string)
    requires ClientOf(s, id).room == ""
    ensures var t := JoinRoom(s, id, room);
            && t.rooms.Keys == s.rooms.Keys + {room}
            && (forall r :: History(t, r) == History(s, r))
            && (forall r :: Members(t, r).Keys == if r == room then Members(s, r).Keys + {ClientOf(s, id).username} else Members(s, r).Keys)
  {
  }

  /** Removing the name would take a member out of a room that records no event for it. */
  predicate Vanishes(s: Server, name: string) {
    name in s.clients && ClientOf(s, s.clients[name]).room != "" && name in Members(s, ClientOf(s, s.clients[name]).room)
  }

  /** Same histories; the keys of one room may differ. */
  lemma WrongRoom(s: Server, t: Server, base: Base, next: Base, room: string)
    requires Replays(s, base) && BaseOf(next, room) == BaseOf(base, room)
    requires History(t, room) == History(s, room) && Members(t, room).Keys != Members(s, room).Keys
    ensures !Replays(t, next)
  {
    assert RoomReplays(s, base, room);
    assert !RoomReplays(t, next, room);
  }

  lemma RemovedHistories(s: Server, name: string)
    ensures RemoveClient(s, name).rooms.Keys == s.rooms.Keys && forall r :: History(RemoveClient(s, name), r) == History(s, r)
  {
  }

  /** The end of a pending connection records nothing, so it must remove nobody. */
  lemma FinishReplays(s: Server, id: ConnId, base: Base)
    requires Replays(s, base)
    ensures Replays(FinishPending(s, id), base) <==> !Vanishes(s, ClientOf(s, id).username)
  {
    hide Replays, RemoveClient, Members;
    var name := ClientOf(s, id).username;
    var t := FinishPending(s, id);
    assert t.rooms == RemoveClient(s, name).rooms;
    RemovedHistories(s, name);
    SameRoomMap(RemoveClient(s, name), t);
    if Vanishes(s, name) {
      var room := ClientOf(s, s.clients[name]).room;
      RemoveMembers(s, name, room);
      WrongRoom(s, t, base, base, room);
    } else {
      forall r ensures Members(t, r).Keys == Members(s, r).Keys {
        if name in s.clients { RemoveMembers(s, name, r); } else { AbsentName(s, name); }
      }
      SameRoomsReplays(s, t, base);
    }
  }

  lemma GiveUpReplays(s: Server, id: ConnId, base: Base)
    requires Replays(s, base) && (ClientOf(s, id).stage.Naming? || Pending(ClientOf(s, id).stage))
    ensures Replays(GiveUpStep(s, id), base) <==> !(Pending(ClientOf(s, id).stage) && Vanishes(s, ClientOf(s, id).username))
  {
    hide Replays, FinishPending, RemoveFromQueue, Vanishes;
    match ClientOf(s, id).stage
    case Naming => SameRoomsReplays(s, GiveUpStep(s, id), base);
    case Choosing => FinishReplays(s, id, base);
    case Asked(room, ticket) => ExitQueueReplays(s, id, room, ticket, base);
    case Waiting(room, ticket) => ExitQueueReplays(s, id, room, ticket, base);
  }

  lemma ExitQueueReplays(s: Server, id: ConnId, room: string, ticket: nat, base: Base)
    requires Replays(s, base)
    ensures Replays(FinishPending(RemoveFromQueue(s, room, ticket), id), base) <==> !Vanishes(s, ClientOf(s, id).username)
  {
    hide Replays, FinishPending, RemoveFromQueue, SameRooms, Members;
    var t := RemoveFromQueue(s, room, ticket);
    SameQueueConns(s, room, ticket);
    RemoveFromQueueRooms(s, room, ticket);
    SameRoomsReplays(s, t, base);
    FinishReplays(t, id, base);
    RemoveFromQueueLinks(s, room, ticket);
    SameVanishes(s, t, ClientOf(s, id).username);
  }

  lemma SameVanishes(s: Server, t: Server, name: string)
    requires t.conns == s.conns && SameLinks(s, t)
    ensures Vanishes(t, name) == Vanishes(s, name)
  {
  }

  lemma SubmitRoomReplays(s: Server, id: ConnId, line: string, now: Moment, base: Base)
    requires Grounded(s) && Replays(s, base) && ClientOf(s, id).stage.Choosing?
    ensures Replays(SubmitRoom(s, id, line, now), base) <==>
              !(ValidName(ChosenRoom(line)) && s.shuttingDown && Vanishes(s, ClientOf(s, id).username))
  {
    hide Grounded, Replays, EnterRoom, FinishPending, ValidName, TrimSpace, Vanishes;
    var room := ChosenRoom(line);
    if !ValidName(room) {
    } else if s.shuttingDown {
      FinishReplays(s, id, base);
    } else if HasCapacity(s, room) {
      EnterRoomReplays(s, id, room, now, base);
    } else {
      SameRoomsReplays(s, SubmitRoom(s, id, line, now), base);
    }
  }

  lemma {:induction false} AdmitTimesRooms(s: Server, room: string, n: nat)
    ensures SameRooms(s, AdmitTimes(s, room, n))
  {
    hide SameRooms, Admit;
    if n == 0 {
      SameRoomsSelf(s);
    } else {
      AdmitTimesRooms(s, room, n - 1);
      AdmitRoomsSame(AdmitTimes(s, room, n - 1), room);
      SameRoomsTrans(s, AdmitTimes(s, room, n - 1), AdmitTimes(s, room, n));
    }
  }

  lemma SameRoomsSelf(s: Server)
    ensures SameRooms(s, s)
  {
  }

  lemma {:induction false} AdmitAllRooms(s: Server, rooms: seq<string>, ids: seq<ConnId>)
    ensures SameRooms(s, AdmitRooms(s, rooms, ids))
  {
    hide SameRooms, AdmitTimes, SlotsOpened;
    if rooms == [] {
      SameRoomsSelf(s);
    } else {
      var init, room := rooms[..|rooms| - 1], rooms[|rooms| - 1];
      AdmitAllRooms(s, init, ids);
      var t := AdmitRooms(s, init, ids);
      AdmitTimesRooms(t, room, SlotsOpened(s, ids, room));
      SameRoomsTrans(s, t, AdmitTimes(t, room, SlotsOpened(s, ids, room)));
    }
  }

  lemma SwitchReplays(s: Server, id: ConnId, room: string, now: Moment, base: Base)
    requires Replays(s, base) && ClientOf(s, id).room != ""
    ensures var t := SwitchRoom(s, id, room, now); Replays(t, Restrict(base, t))
  {
    hide Publish, Admit, DeleteRoomIfEmpty, JoinRoom, SameLinks, Replays, Members;
    var c := ClientOf(s, id);
    var leave, join := Note(now, Kind.Leave, c.username, "", "switched"), Note(now, Kind.Join, c.username, "", "");
    var parted := Publish(s, c.room, leave, c.username);
    SamePublishConns(s, c.room, leave, c.username);
    PublishRooms(s, c.room, leave, c.username);
    var joined := JoinRoom(parted, id, room);
    forall r ensures Members(joined, r).Keys == Moved(Members(s, r).Keys, c.username, c.room, room, r) { JoinMembers(parted, id, room, r); }
    MoveRooms(parted, id, room);
    var admitted := Admit(joined, c.room);
    AdmitRoomsSame(joined, c.room);
    var arrived := DeleteRoomIfEmpty(admitted, c.room);
    var sent := SendHistory(arrived, id, room);
    SameRoomMap(arrived, sent);
    PublishRooms(sent, room, join, c.username);
    SwitchEffect(s, admitted, arrived, SwitchRoom(s, id, room, now), c.username, c.room, room, EventOf(s, c.room, leave), EventOf(sent, room, join), base);
  }

  /** Names in a room after somebody has moved from one room to another, perhaps the same. */
  function Moved(names: set<string>, name: string, from: string, to: string, room: string): set<string> {
    var left := if room == from then names - {name} else names;
    if room == to then left + {name} else left
  }

  lemma MoveRooms(s: Server, id: ConnId, room: string)
    ensures var t := JoinRoom(s, id, room);
            t.rooms.Keys == s.rooms.Keys + {room} && forall r :: History(t, r) == History(s, r)
  {
  }

  /** Leaving one room, deleting it if empty, and joining another, seen through members and histories only. */
  lemma SwitchEffect(s: Server, u: Server, v: Server, t: Server, name: string, from: string, to: string, leave: Event, join: Event, base: Base)
    requires Replays(s, base)
    requires leave.msg.kind == Kind.Leave && leave.msg.sender == name && join.msg.kind == Kind.Join && join.msg.sender == name
    requires u.rooms.Keys == s.rooms.Keys + {from, to}
    requires forall r :: History(u, r) == if r == from then History(s, r) + [leave] else History(s, r)
    requires forall r :: Members(u, r).Keys == Moved(Members(s, r).Keys, name, from, to, r)
    requires v == DeleteRoomIfEmpty(u, from) && t.rooms.Keys == v.rooms.Keys + {to}
    requires forall r :: Members(t, r) == Members(v, r)
    requires forall r :: History(t, r) == if r == to then History(v, r) + [join] else History(v, r)
    ensures Replays(t, Restrict(base, t))
  {
    hide DeleteRoomIfEmpty, Apply, Present;
    DeleteShape(u, from);
    forall r ensures RoomReplays(t, Restrict(base, t), r) {
      assert RoomReplays(s, base, r);
      if r == from == to {
        assert name in Members(u, r).Keys;
        PresentAppend(BaseOf(base, r), History(s, r), leave);
        ApplyLeave(Members(s, r).Keys, leave.msg);
        PresentAppend(BaseOf(base, r), History(s, r) + [leave], join);
        ApplyJoin(Members(s, r).Keys - {name}, join.msg);
      } else if r == to {
        PresentAppend(BaseOf(base, r), History(s, r), join);
        ApplyJoin(Members(s, r).Keys, join.msg);
      } else if r == from {
        PresentAppend(BaseOf(base, r), History(s, r), leave);
        ApplyLeave(Members(s, r).Keys, leave.msg);
        NothingPresent();
      } else {
        NothingPresent();
      }
    }
  }

  lemma DeleteShape(s: Server, room: string)
    ensures var t := DeleteRoomIfEmpty(s, room);
            && (t.rooms == s.rooms || (t.rooms == s.rooms - {room} && Members(s, room) == map[]))
            && (forall r :: r != room ==> Members(t, r) == Members(s, r) && History(t, r) == History(s, r))
  {
  }

  lemma ApplyJoin(names: set<string>, m: Message)
    requires m.kind == Kind.Join
    ensures Apply(names, m) == names + {m.sender}
  {
  }

  lemma ApplyLeave(names: set<string>, m: Message)
    requires m.kind == Kind.Leave
    ensures Apply(names, m) == names - {m.sender}
  {
  }

  lemma NothingPresent()
    ensures Present({}, []) == {}
  {
  }

  /** A rename that goes through although the renaming connection's room is gone. */
  predicate RenamesNowhere(s: Server, id: ConnId, args: string) {
    args != "" && ValidName(args) && args != ClientOf(s, id).username && CanRekey(s, args) && ClientOf(s, id).room !in s.rooms
  }

  /** A rename records its event in the connection's room, and re-keys that room only if it still exists. */
  lemma RenameReplays(s: Server, id: ConnId, args: string, now: Moment, base: Base)
    requires Replays(s, base) && ClientOf(s, id).room != ""
    ensures Replays(RenameStep(s, id, args, now), base) <==> !RenamesNowhere(s, id, args)
  {
    hide Publish, ValidName, Reserved, Replays, RenameClient, Apply, Present, Members;
    var c := ClientOf(s, id);
    if args != "" && ValidName(args) && args != c.username && CanRekey(s, args) {
      RenameHistories(s, id, c.username, args);
      forall r ensures Members(RenameClient(s, id, c.username, args).0, r).Keys
                    == if r == c.room && r in s.rooms then Members(s, r).Keys - {c.username} + {args} else Members(s, r).Keys {
        RekeyMembers(s, id, args, r);
      }
      var (t, ok) := RenameClient(s, id, c.username, args);
      RenameOk(s, id, c.username, args);
      var u := if c.admin then RenameAdmin(t, c.username, args) else t;
      SameRoomMap(t, u);
      var m := Note(now, NameChange, args, "", c.username);
      PublishRooms(u, c.room, m, "");
      ApplyRename(Members(s, c.room).Keys, EventOf(u, c.room, m).msg);
      if c.room in s.rooms {
        OneItemReplays(s, Publish(u, c.room, m, ""), base, c.room, EventOf(u, c.room, m));
      } else {
        RenamedNowhere(s, Publish(u, c.room, m, ""), base, c.room, EventOf(u, c.room, m));
      }
    } else {
      RenameRefused(s, id, args, now);
    }
  }

  lemma RenameOk(s: Server, id: ConnId, oldName: string, newName: string)
    requires CanRekey(s, newName)
    ensures RenameClient(s, id, oldName, newName).1
  {
  }

  lemma RenameRefused(s: Server, id: ConnId, args: string, now: Moment)
    requires !(args != "" && ValidName(args) && args != ClientOf(s, id).username && CanRekey(s, args))
    ensures RenameStep(s, id, args, now) == s
  {
  }

  lemma ApplyRename(names: set<string>, m: Message)
    requires m.kind == NameChange
    ensures Apply(names, m) == names - {m.extra} + {m.sender}
  {
  }

  lemma RenamedNowhere(s: Server, t: Server, base: Base, room: string, e: Event)
    requires Replays(s, base) && room !in s.rooms && e.msg.kind == NameChange
    requires History(t, room) == History(s, room) + [e] && Members(t, room).Keys == Members(s, room).Keys
    ensures !Replays(t, base)
  {
    hide Apply, Present;
    assert RoomReplays(s, base, room);
    PresentAppend(BaseOf(base, room), History(s, room), e);
    ApplyRename(Members(s, room).Keys, e.msg);
    assert e.msg.sender in Present(BaseOf(base, room), History(t, room)) && e.msg.sender !in Members(t, room).Keys;
    assert !RoomReplays(t, base, room);
  }

  lemma RenameHistories(s: Server, id: ConnId, oldName: string, newName: string)
    requires newName !in s.clients && !Reserved(newName)
    ensures var t := RenameClient(s, id, oldName, newName).0;
            t.rooms.Keys == s.rooms.Keys && forall r :: History(t, r) == History(s, r)
  {
    hide Reserved;
  }

  /** Expelling a registered client records exactly the removal of its name. */
  lemma ExpelReplays(s: Server, id: ConnId, name: string, verdict: Reason, issuer: string, now: Moment, base: Base)
    requires Grounded(s) && Replays(s, base) && name in s.clients && s.clients[name] == id && verdict in {Kicked, Banned}
    ensures Replays(Expel(s, id, name, verdict, issuer, now), base)
  {
    hide Grounded, Replays, Expel, Apply, Verb, Members;
    var c := ClientOf(s, id);
    var e := EventOf(s, c.room, Note(now, Moderation, name, Verb(verdict), issuer));
    ExpelRooms(s, id, name, verdict, issuer, now);
    ApplyExpulsion(Members(s, c.room).Keys, e.msg, verdict);
    if c.room == "" { NamelessRoom(s); }
    OneItemReplays(s, Expel(s, id, name, verdict, issuer, now), base, c.room, e);
  }

  lemma NamelessRoom(s: Server)
    requires Grounded(s)
    ensures Members(s, "") == map[]
  {
  }

  lemma ExpelRooms(s: Server, id: ConnId, name: string, verdict: Reason, issuer: string, now: Moment)
    requires name in s.clients && s.clients[name] == id
    ensures var c := ClientOf(s, id);
            var m := Note(now, Moderation, name, Verb(verdict), issuer);
            var t := Expel(s, id, name, verdict, issuer, now);
            && t.rooms.Keys == s.rooms.Keys + {c.room}
            && History(t, c.room) == History(s, c.room) + [EventOf(s, c.room, m)]
            && (forall r :: Members(t, r) == if r == c.room && r != "" then Members(s, r) - {name} else Members(s, r))
            && (forall r :: r != c.room ==> History(t, r) == History(s, r))
  {
    hide Publish, RemoveClient, Verb, Members;
    var c := ClientOf(s, id);
    var m := Note(now, Moderation, name, Verb(verdict), issuer);
    var marked := WithClient(s, id, c.(reason := verdict));
    SameRoomMap(s, marked);
    var t := RemoveClient(marked, name);
    forall r ensures Members(t, r) == if r == c.room && r != "" then Members(s, r) - {name} else Members(s, r) { RemoveMembers(marked, name, r); }
    RemovedHistories(marked, name);
    RemovedStamps(marked, name);
    PublishRooms(t, c.room, m, "");
    SameRoomMap(Publish(t, c.room, m, ""), Expel(s, id, name, verdict, issuer, now));
  }

  lemma RemovedStamps(s: Server, name: string)
    ensures RemoveClient(s, name).stamps == s.stamps
  {
  }

  lemma SameRoomMap(s: Server, t: Server)
    requires s.rooms == t.rooms
    ensures forall r :: Members(t, r) == Members(s, r) && History(t, r) == History(s, r)
  {
  }

  lemma ApplyExpulsion(names: set<string>, m: Message, verdict: Reason)
    requires m.kind == Moderation && m.content == Verb(verdict)
    ensures Apply(names, m) == names - {m.sender}
  {
  }

  lemma SameRoomsOnly(s: Server, t: Server, base: Base)
    requires Replays(s, base) && t.rooms == s.rooms
    ensures Replays(t, base)
  {
    SameRoomsReplays(s, t, base);
  }

  lemma KickReplays(s: Server, name: string, issuer: string, now: Moment, base: Base)
    requires Grounded(s) && Replays(s, base) && name in s.clients
    ensures Replays(KickTarget(s, name, issuer, now), base)
  {
    hide Grounded, Expel, Admit, Replays, SameRooms;
    var id := s.clients[name];
    var c := ClientOf(s, id);
    ExpelReplays(s, id, name, Kicked, issuer, now, base);
    var t := Expel(s, id, name, Kicked, issuer, now);
    var u := AddKickCooldown(t, c.host, now.clock);
    SameRoomsOnly(t, u, base);
    AdmitRoomsSame(u, c.room);
    SameRoomsReplays(u, Admit(u, c.room), base);
  }

  /** Expelling one registered client leaves the others registered. */
  lemma OthersRegistered(s: Server, id: ConnId, other: ConnId, issuer: string, now: Moment)
    requires Registered(s, id) && Registered(s, other) && id != other
    ensures Registered(Expel(s, id, ClientOf(s, id).username, Banned, issuer, now), other)
  {
    hide SameLinks, Expel;
    ExpelLinks(s, id, ClientOf(s, id).username, Banned, issuer, now);
    LinkedClients(ExpelledLinks(s, id, ClientOf(s, id).username, Banned), Expel(s, id, ClientOf(s, id).username, Banned, issuer, now));
  }

  lemma LinkedClients(s: Server, t: Server)
    requires SameLinks(s, t)
    ensures t.clients == s.clients
  {
  }

  lemma {:induction false} ExpelAllReplays(s: Server, ids: seq<ConnId>, issuer: string, now: Moment, base: Base)
    requires Grounded(s) && Replays(s, base) && Distinct(ids) && forall id <- ids :: Registered(s, id)
    ensures var t := ExpelAll(s, ids, issuer, now);
            Replays(t, base) && Grounded(t) && forall x :: Registered(s, x) && x !in ids ==> Registered(t, x)
  {
    hide Grounded, Expel, Replays, Registered, Lessened;
    if ids != [] {
      var init, id := ids[..|ids| - 1], ids[|ids| - 1];
      DistinctInit(ids);
      ExpelAllReplays(s, init, issuer, now, base);
      assert id in ids;
      var t := ExpelAll(s, init, issuer, now);
      OwnKey(t, id);
      var name := ClientOf(t, id).username;
      ExpelReplays(t, id, name, Banned, issuer, now, base);
      ExpelLessens(t, id, name, Banned, issuer, now);
      LessenedGrounded(t, ExpelAll(s, ids, issuer, now));
      forall x | Registered(s, x) && x !in ids ensures Registered(ExpelAll(s, ids, issuer, now), x) { OthersRegistered(t, id, x, issuer, now); }
    }
  }

  lemma OwnKey(s: Server, id: ConnId)
    requires Registered(s, id)
    ensures ClientOf(s, id).username in s.clients && s.clients[ClientOf(s, id).username] == id
  {
  }

  lemma {:induction false} PurgeRooms(s: Server, host: string, visit: seq<string>)
    requires forall room <- visit :: room in s.rooms
    ensures SameRooms(s, Purge(s, host, visit).0)
  {
    hide SameRooms, Kept, Dropped, Renumber;
    if visit == [] {
      SameRoomsSelf(s);
    } else {
      var init, room := visit[..|visit| - 1], visit[|visit| - 1];
      assert room in visit && forall r <- init :: r in visit;
      PurgeRooms(s, host, init);
      PurgeStep(s, host, visit);
      var t := Purge(s, host, init).0;
      var kept := Kept(t, Queue(t, room), host);
      assert room in t.rooms by { KeysGrow(s, t); }
      WithQueueRooms(t, room, kept);
      SameRoomsPosition(t, WithQueue(t, room, kept), Renumber(t.position, kept));
      SameRoomsTrans(s, t, WithQueue(t, room, kept).(position := Renumber(t.position, kept)));
    }
  }

  lemma KeysGrow(s: Server, t: Server)
    requires SameRooms(s, t)
    ensures s.rooms.Keys <= t.rooms.Keys
  {
  }

  lemma SameRoomsPosition(s: Server, t: Server, position: map<ConnId, nat>)
    requires SameRooms(s, t)
    ensures SameRooms(s, t.(position := position))
  {
  }

  lemma {:induction false} CloseAllRooms(s: Server, ids: seq<ConnId>)
    ensures CloseAll(s, ids).rooms == s.rooms
  {
    if ids != [] {
      CloseAllRooms(s, ids[..|ids| - 1]);
    }
  }

  lemma PurgeAndCloseReplays(s: Server, host: string, visit: seq<string>, base: Base)
    requires Replays(s, base) && forall room <- visit :: room in s.rooms
    ensures Replays(PurgeAndClose(s, host, visit), base)
  {
    hide Replays, SameRooms, Purge, CloseAll;
    var (t, removed) := Purge(s, host, visit);
    PurgeRooms(s, host, visit);
    SameRoomsReplays(s, t, base);
    CloseAllRooms(t, removed);
    SameRoomsOnly(t, CloseAll(t, removed), base);
  }

  lemma BanReplays(s: Server, name: string, issuer: string, exclude: string, order: BanOrder, now: Moment, base: Base)
    requires Grounded(s) && Replays(s, base) && name in s.clients && PossibleOrder(s, name, issuer, exclude, order, now)
    ensures Replays(BanTarget(s, name, issuer, order, now), base)
  {
    hide Grounded, Expel, ExpelAll, PurgeAndClose, AdmitRooms, SameRooms, Replays, Distinct, Lessened, ClientsByHost, SameLinks;
    var id := s.clients[name];
    ExpelReplays(s, id, name, Banned, issuer, now, base);
    var out := Expel(s, id, name, Banned, issuer, now);
    var first := BanFirst(s, name, issuer, now);
    SameRoomsOnly(out, first, base);
    ExpelLessens(s, id, name, Banned, issuer, now);
    LessenedGrounded(s, out);
    AdminLinks(out, first);
    LinksLessen(out, first);
    LessenedGrounded(out, first);
    CollateralRegistered(first, ClientOf(s, id).host, exclude, order.collateral);
    ExpelAllReplays(first, order.collateral, issuer, now, base);
    var t := BanEveryone(s, name, issuer, order, now);
    var u := PurgeAndClose(t, ClientOf(s, id).host, order.visit);
    assert forall room <- order.visit :: room in t.rooms.Keys;
    PurgeAndCloseReplays(t, ClientOf(s, id).host, order.visit, base);
    AdmitAllRooms(u, order.reopened, Expelled(s, name, order));
    SameRoomsReplays(u, AdmitRooms(u, order.reopened, Expelled(s, name, order)), base);
  }

  lemma CollateralRegistered(s: Server, host: string, exclude: string, ids: seq<ConnId>)
    requires Grounded(s) && Enumerates(ids, ClientsByHost(s, host, exclude))
    ensures Distinct(ids) && forall id <- ids :: Registered(s, id)
  {
    forall id | id in ids ensures Registered(s, id) {
      assert id in ClientsByHost(s, host, exclude);
      var n :| n in s.clients && s.clients[n] == id;
      assert KeyGrounded(s, n);
    }
  }

  lemma QueuedModerationReplays(s: Server, host: string, visit: seq<string>, now: Moment, base: Base)
    requires Replays(s, base) && Enumerates(visit, s.rooms.Keys)
    ensures Replays(KickQueued(s, host, visit, now), base) && Replays(BanQueued(s, host, visit), base)
  {
    hide Replays, PurgeAndClose, Purge;
    var t := PurgeAndClose(s, host, visit);
    assert forall room <- visit :: room in s.rooms.Keys;
    PurgeAndCloseReplays(s, host, visit, base);
    SameRoomsOnly(t, AddKickCooldown(t, host, now.clock), base);
    SameRoomsOnly(t, AddBan(t, host), base);
  }

  /** Items that do not concern membership. */
  lemma NeutralItem(s: Server, t: Server, room: string, m: Message, base: Base)
    requires Replays(s, base) && t.rooms == Record(s, room, m).rooms
    requires forall names :: Apply(names, m) == names
    ensures Replays(t, base)
  {
    hide Replays, Record, Apply;
    RecordRooms(s, room, m);
    var e := EventOf(s, room, m);
    assert forall names :: Apply(names, e.msg) == Apply(names, m) by { RoomTagIgnored(m, room); }
    assert forall r :: Members(t, r) == Members(Record(s, room, m), r) && History(t, r) == History(Record(s, room, m), r);
    OneItemReplays(s, t, base, room, e);
  }

  lemma RoomTagIgnored(m: Message, room: string)
    ensures forall names :: Apply(names, m.(room := room)) == Apply(names, m)
  {
  }

  lemma NeutralVerbs(now: Moment, name: string, issuer: string)
    ensures forall names, verb :: verb in ["muted", "unmuted", "promoted", "demoted"] ==>
              Apply(names, Note(now, Moderation, name, verb, issuer)) == names
  {
    assert |"muted"| != |"kicked"| && |"unmuted"| != |"kicked"| && |"promoted"| != |"kicked"|;
    assert "demoted"[0] != "kicked"[0] && |"demoted"| != |"banned"|;
  }

  lemma FlagReplays(s: Server, name: string, on: bool, issuer: string, now: Moment, base: Base)
    requires Replays(s, base) && name in s.clients
    ensures Replays(MuteTarget(s, name, on, issuer, now), base) && Replays(PromoteTarget(s, name, on, issuer, now), base)
  {
    hide Replays, Apply, Record, Note;
    var id := s.clients[name];
    var c := ClientOf(s, id);
    NeutralVerbs(now, name, issuer);
    var mute := Note(now, Moderation, name, if on then "muted" else "unmuted", issuer);
    var promote := Note(now, Moderation, name, if on then "promoted" else "demoted", issuer);
    var muted := WithClient(s, id, c.(muted := on));
    var flagged := WithClient(s, id, c.(admin := on)).(admins := if on then s.admins + {name} else s.admins - {name});
    SameRoomsOnly(s, muted, base);
    SameRoomsOnly(s, flagged, base);
    NeutralItem(muted, Record(muted, c.room, mute), c.room, mute, base);
    NeutralItem(flagged, Record(flagged, c.room, promote), c.room, promote, base);
  }

  lemma {:induction false} AnnounceReplays(s: Server, names: seq<string>, text: string, issuer: string, now: Moment, base: Base)
    requires Replays(s, base)
    ensures Replays(AnnounceIn(s, names, text, issuer, now), base)
  {
    hide Replays, Record;
    if names != [] {
      AnnounceReplays(s, names[..|names| - 1], text, issuer, now, base);
      var t := AnnounceIn(s, names[..|names| - 1], text, issuer, now);
      var m := Note(now, Announcement, "", text, issuer);
      NeutralItem(t, Record(t, names[|names| - 1], m), names[|names| - 1], m, base);
    }
  }

  lemma SayReplays(s: Server, id: ConnId, line: string, now: Moment, base: Base)
    requires Replays(s, base)
    ensures Replays(SayStep(s, id, line, now), base)
  {
    hide Replays, Record, TrimSpace, ByteLen;
    var c := ClientOf(s, id);
    NeutralItem(s, Publish(s, c.room, Note(now, Chat, c.username, line, ""), c.username), c.room, Note(now, Chat, c.username, line, ""), base);
  }

  /** The end of a session removes its name from the room that records the departure, and from no other. */
  predicate LeavesCleanly(s: Server, name: string, room: string) {
    && (name in Members(s, room) ==> name in s.clients && ClientOf(s, s.clients[name]).room == room)
    && (Vanishes(s, name) ==> ClientOf(s, s.clients[name]).room == room)
  }

  lemma CleanupReplays(s: Server, id: ConnId, now: Moment, base: Base)
    requires Replays(s, base) && ClientOf(s, id).room != ""
    ensures var c, t := ClientOf(s, id), Cleanup(s, id, now);
            Replays(t, Restrict(base, t)) <==> (Moderated(c) || LeavesCleanly(s, c.username, c.room))
  {
    hide Publish, Admit, DeleteRoomIfEmpty, RemoveClient, Replays, SameRooms, Moderated, LeavesCleanly, Members;
    var c := ClientOf(s, id);
    var m := Note(now, Kind.Leave, c.username, "", if c.reason.Unset? then "voluntary" else "drop");
    var t := if Moderated(c) then s else Publish(RemoveClient(s, c.username), c.room, m, c.username);
    var u := DeleteRoomIfEmpty(Admit(t, c.room), c.room);
    AdmitRoomsSame(t, c.room);
    if Moderated(c) || LeavesCleanly(s, c.username, c.room) {
      if !Moderated(c) { DepartureReplays(s, c.username, c.room, m, base); }
      SameRoomsReplays(t, Admit(t, c.room), base);
      DeleteReplays(Admit(t, c.room), c.room, base);
      SameRoomsOnly(u, Cleanup(s, id, now), Restrict(base, u));
    } else {
      StaleDeparture(s, c.username, c.room, m, base, Admit(t, c.room), u);
      if Replays(Cleanup(s, id, now), Restrict(base, Cleanup(s, id, now))) {
        SameRoomsOnly(Cleanup(s, id, now), u, Restrict(base, u));
      }
    }
  }

  /** Members and histories after the name has been removed and the departure recorded. */
  lemma DepartureRooms(s: Server, name: string, room: string, m: Message)
    requires room != ""
    ensures var t := Publish(RemoveClient(s, name), room, m, name);
            && t.rooms.Keys == s.rooms.Keys + {room}
            && History(t, room) == History(s, room) + [EventOf(s, room, m)]
            && (forall r :: r != room ==> History(t, r) == History(s, r))
            && (forall r :: Members(t, r).Keys == if name in s.clients && r != "" && r == ClientOf(s, s.clients[name]).room
                                                 then Members(s, r).Keys - {name} else Members(s, r).Keys)
  {
    hide Publish, RemoveClient, Members;
    var t := RemoveClient(s, name);
    RemovedHistories(s, name);
    RemovedStamps(s, name);
    PublishRooms(t, room, m, name);
    forall r ensures Members(t, r).Keys == if name in s.clients && r != "" && r == ClientOf(s, s.clients[name]).room
                                          then Members(s, r).Keys - {name} else Members(s, r).Keys {
      if name in s.clients { RemoveMembers(s, name, r); } else { AbsentName(s, name); }
    }
  }

  lemma DepartureReplays(s: Server, name: string, room: string, m: Message, base: Base)
    requires Replays(s, base) && room != "" && LeavesCleanly(s, name, room)
    requires m.kind == Kind.Leave && m.sender == name
    ensures Replays(Publish(RemoveClient(s, name), room, m, name), base)
  {
    hide Publish, Replays, RemoveClient, Members;
    DepartureRooms(s, name, room, m);
    ApplyLeave(Members(s, room).Keys, EventOf(s, room, m).msg);
    OneItemReplays(s, Publish(RemoveClient(s, name), room, m, name), base, room, EventOf(s, room, m));
  }

  /** Otherwise some room's members no longer match its history, and that room is not deleted. */
  lemma StaleDeparture(s: Server, name: string, room: string, m: Message, base: Base, t: Server, u: Server)
    requires Replays(s, base) && room != "" && !LeavesCleanly(s, name, room)
    requires m.kind == Kind.Leave && m.sender == name
    requires SameRooms(Publish(RemoveClient(s, name), room, m, name), t) && u == DeleteRoomIfEmpty(t, room)
    ensures !Replays(u, Restrict(base, u))
  {
    hide Publish, RemoveClient, Members, DeleteRoomIfEmpty, Apply, Present;
    DepartureRooms(s, name, room, m);
    DeleteShape(t, room);
    assert RoomReplays(s, base, room);
    if name in Members(s, room) && !(name in s.clients && ClientOf(s, s.clients[name]).room == room) {
      PresentAppend(BaseOf(base, room), History(s, room), EventOf(s, room, m));
      ApplyLeave(Members(s, room).Keys, EventOf(s, room, m).msg);
      assert name in Members(t, room).Keys;
      SameRoomMap(t, u);
      KnownRoom(t, room);
      assert !RoomReplays(u, Restrict(base, u), room);
    } else {
      var other := ClientOf(s, s.clients[name]).room;
      assert RoomReplays(s, base, other);
      KnownRoom(s, other);
      assert !RoomReplays(u, Restrict(base, u), other);
    }
  }

  lemma KnownRoom(s: Server, room: string)
    ensures Members(s, room) != map[] ==> room in s.rooms
  {
  }

  lemma ClearReplays(s: Server)
    ensures Replays(ClearHistory(s), map room | room in s.rooms :: Members(s, room).Keys)
  {
    var base := map room | room in s.rooms :: Members(s, room).Keys;
    forall r ensures RoomReplays(ClearHistory(s), base, r) { }
  }

  // ---------- one step ----------

  /** The step changes who is in a room without recording it there: a pending connection ends under the name of somebody
      who is in a room, a session ends although its name is another's by now, or a session whose room is gone renames
      itself. */
  predicate Unrecorded(s: Server, a: Action) {
    || (Exits(s, a) && Vanishes(s, ClientOf(s, Actor(a)).username))
    || (a.Leave? && !Moderated(ClientOf(s, a.id)) && !LeavesCleanly(s, ClientOf(s, a.id).username, ClientOf(s, a.id).room))
    || (a.Rename? && RenamesNowhere(s, a.id, a.args))
  }

  lemma OnboardingReplays(s: Server, a: Action, now: Moment, base: Base)
    requires Grounded(s) && Replays(s, base) && Enabled(s, a, now) && Onboarding(a)
    ensures Replays(Step(s, a, now), base) <==> !Unrecorded(s, a)
  {
    hide Grounded, Replays, Step, Unrecorded, Enabled;
    if a.Connect? || a.EnterName? { ArrivalReplays(s, a, now, base); } else { PendingReplays(s, a, now, base); }
  }

  lemma ArrivalReplays(s: Server, a: Action, now: Moment, base: Base)
    requires Replays(s, base) && Enabled(s, a, now) && (a.Connect? || a.EnterName?)
    ensures Replays(Step(s, a, now), base) && !Unrecorded(s, a)
  {
    hide Replays, ValidName, Reserved;
    SameRoomsOnly(s, Step(s, a, now), base);
  }

  lemma PendingReplays(s: Server, a: Action, now: Moment, base: Base)
    requires Grounded(s) && Replays(s, base) && Enabled(s, a, now) && Onboarding(a) && !a.Connect? && !a.EnterName?
    ensures Replays(Step(s, a, now), base) <==> !Unrecorded(s, a)
  {
    hide Grounded, Replays, EnterRoom, GiveUpStep, ValidName, TrimSpace, SubmitRoom, Vanishes;
    match a
    case ChooseRoom(id, line) => SubmitRoomReplays(s, id, line, now, base);
    case Answer(id, line) =>
      if TrimSpace(line) == "no" { GiveUpReplays(s, id, base); YesIsNotNo(); } else { SameRoomsOnly(s, Step(s, a, now), base); }
    case TakeSlot(id) => OfGrounded(s, id); EnterRoomReplays(s, id, ClientOf(s, id).stage.room, now, base);
    case GiveUp(id) => GiveUpReplays(s, id, base);
  }

  lemma SessionReplays(s: Server, a: Action, now: Moment, base: Base)
    requires Grounded(s) && Replays(s, base) && Enabled(s, a, now)
    requires a.Say? || a.Rename? || a.Kick? || a.Ban? || a.SetMute? || a.Announce?
    ensures Replays(Step(s, a, now), base) <==> !Unrecorded(s, a)
  {
    hide Grounded, Replays, SayStep, RenameStep, KickTarget, BanTarget, MuteTarget, AnnounceIn, PossibleOrder, Enumerates, TrimSpace, RenamesNowhere;
    match a
    case Say(id, line) => SayReplays(s, id, line, now, base);
    case Rename(id, args) => OfGrounded(s, id); RenameReplays(s, id, args, now, base);
    case Kick(id, args) => if args in s.clients { KickReplays(s, args, ClientOf(s, id).username, now, base); }
    case Ban(id, args, order) =>
      if args in s.clients { BanReplays(s, args, ClientOf(s, id).username, ClientOf(s, id).username, order, now, base); }
    case SetMute(id, args, on) => if args in s.clients { FlagReplays(s, args, on, ClientOf(s, id).username, now, base); }
    case Announce(id, args, names) => AnnounceReplays(s, names, args, ClientOf(s, id).username, now, base);
  }

  lemma DepartingReplays(s: Server, a: Action, now: Moment, base: Base)
    requires Grounded(s) && Replays(s, base) && Enabled(s, a, now) && (a.Switch? || a.Create? || a.Leave?)
    ensures Replays(Step(s, a, now), Restrict(base, Step(s, a, now))) <==> !Unrecorded(s, a)
  {
    hide Grounded, Replays, SwitchRoom, Cleanup, ValidName, HasCapacity, LeavesCleanly;
    assert base.Keys <= s.rooms.Keys by { BaseInRooms(s, base); }
    RestrictAll(base, s);
    OfGrounded(s, a.id);
    match a
    case Switch(id, args) => SwitchReplays(s, id, args, now, base);
    case Create(id, args) => SwitchReplays(s, id, args, now, base);
    case Leave(id, drop) =>
      var t := WithClient(s, id, SetReason(ClientOf(s, id), drop));
      SameRoomsOnly(s, t, base);
      CleanupReplays(t, id, now, base);
      SameLeaving(s, id, drop);
  }

  lemma SameLeaving(s: Server, id: ConnId, drop: bool)
    ensures var c, t := ClientOf(s, id), WithClient(s, id, SetReason(ClientOf(s, id), drop));
            && LeavesCleanly(t, c.username, c.room) == LeavesCleanly(s, c.username, c.room)
            && Moderated(ClientOf(t, id)) == Moderated(c) && ClientOf(t, id).username == c.username && ClientOf(t, id).room == c.room
  {
  }

  lemma BaseInRooms(s: Server, base: Base)
    requires Replays(s, base)
    ensures base.Keys <= s.rooms.Keys
  {
  }

  lemma OperatorReplays(s: Server, a: Action, now: Moment, base: Base)
    requires Grounded(s) && Replays(s, base) && Enabled(s, a, now) && OperatorAction(a) && !a.Midnight?
    ensures Replays(Step(s, a, now), base)
  {
    hide Grounded, Replays, KickTarget, BanTarget, MuteTarget, AnnounceIn, PromoteTarget, KickQueued, BanQueued, PossibleOrder,
         Enumerates, TrimSpace;
    match a
    case OperatorKick(args, visit) =>
      if args in s.clients { KickReplays(s, args, "Server", now, base); }
      QueuedModerationReplays(s, args, visit, now, base);
    case OperatorBan(args, order) =>
      if args in s.clients { BanReplays(s, args, "Server", "", order, now, base); }
      else { QueuedModerationReplays(s, args, order.visit, now, base); }
    case OperatorSetMute(args, on) => if args in s.clients { FlagReplays(s, args, on, "Server", now, base); }
    case OperatorAnnounce(args, names) => AnnounceReplays(s, names, args, "Server", now, base);
    case OperatorPromote(args) => if args in s.clients { FlagReplays(s, args, true, "Server", now, base); }
    case OperatorDemote(args) => if args in s.clients { FlagReplays(s, args, false, "Server", now, base); }
    case Sever(id, drop) => SameRoomsOnly(s, Step(s, a, now), base);
    case BeginShutdown => SameRoomsOnly(s, Step(s, a, now), base);
  }

  /** Ends and renames keep all rooms. */
  lemma KeptRooms(s: Server, a: Action, now: Moment)
    requires Enabled(s, a, now) && Unrecorded(s, a) && !a.Leave?
    ensures s.rooms.Keys <= Step(s, a, now).rooms.Keys
  {
    hide Vanishes, RenamesNowhere, TrimSpace, ValidName, RenameStep, GiveUpStep, FinishPending, EnterRoom;
    if a.Rename? {
      RenamedKeys(s, a.id, a.args, now);
    } else {
      GivenUpKeys(s, Actor(a));
    }
    if a.Answer? { YesIsNotNo(); }
  }

  lemma RenamedKeys(s: Server, id: ConnId, args: string, now: Moment)
    ensures s.rooms.Keys <= RenameStep(s, id, args, now).rooms.Keys
  {
    hide ValidName;
  }

  lemma FinishedKeys(s: Server, id: ConnId)
    ensures FinishPending(s, id).rooms.Keys == s.rooms.Keys
  {
    hide RemoveClient;
    RemovedHistories(s, ClientOf(s, id).username);
  }

  lemma DequeuedKeys(s: Server, room: string, ticket: nat)
    ensures RemoveFromQueue(s, room, ticket).rooms.Keys == s.rooms.Keys
  {
    hide Renumber, WithoutTicket;
  }

  lemma GivenUpKeys(s: Server, id: ConnId)
    ensures FinishPending(s, id).rooms.Keys == s.rooms.Keys
    ensures GiveUpStep(s, id).rooms.Keys == s.rooms.Keys
  {
    hide FinishPending, RemoveFromQueue;
    FinishedKeys(s, id);
    var stage := ClientOf(s, id).stage;
    if stage.Asked? || stage.Waiting? {
      DequeuedKeys(s, stage.room, stage.ticket);
      FinishedKeys(RemoveFromQueue(s, stage.room, stage.ticket), id);
    }
  }

  /** Replay survives a step exactly when the step is recorded where it happens. */
  lemma StepReplaysExactly(s: Server, a: Action, now: Moment, base: Base)
    requires Grounded(s) && Replays(s, base) && Enabled(s, a, now)
    ensures Replays(Step(s, a, now), NextBase(base, s, a, Step(s, a, now))) <==> !Unrecorded(s, a)
  {
    hide Grounded, Replays, Enabled, Step, Unrecorded;
    var t := Step(s, a, now);
    if a.Midnight? {
      ClearReplays(s);
      assert t == ClearHistory(s) by { MidnightStep(s, now); }
      OthersRecord(s, a);
    } else if a.Switch? || a.Create? || a.Leave? {
      DepartingReplays(s, a, now, base);
    } else {
      if OperatorAction(a) {
        OperatorReplays(s, a, now, base);
        OthersRecord(s, a);
      } else if a.Say? || a.Rename? || a.Kick? || a.Ban? || a.SetMute? || a.Announce? {
        SessionReplays(s, a, now, base);
      } else {
        OnboardingReplays(s, a, now, base);
      }
      BaseInRooms(s, base);
      if Unrecorded(s, a) { KeptRooms(s, a, now); } else { BaseInRooms(t, base); }
      RestrictAll(base, t);
    }
  }

  lemma OthersRecord(s: Server, a: Action)
    requires OperatorAction(a)
    ensures !Unrecorded(s, a)
  {
  }

  lemma MidnightStep(s: Server, now: Moment)
    ensures Step(s, Midnight, now) == ClearHistory(s)
  {
  }

  /** While both indexes are owned, the only unrecorded step is the exit of a moderated pending connection whose name has
      passed to somebody who is in a room. */
  lemma UnrecordedWhileOwned(s: Server, a: Action, now: Moment)
    requires Owned(s) && Enabled(s, a, now)
    ensures var c := ClientOf(s, Actor(a));
            Unrecorded(s, a) <==> (Exits(s, a) && Moderated(c) && c.username in s.clients && ClientOf(s, s.clients[c.username]).room != "")
  {
  }

  // ---------- runs ----------

  function BaseAfter(s: Server, base: Base, run: Run): Base
    decreases |run|
  {
    if run == [] then base
    else
      var t := Step(s, run[0].0, run[0].1);
      BaseAfter(t, NextBase(base, s, run[0].0, t), run[1..])
  }

  /** No step of the run is unrecorded. */
  predicate AllRecorded(s: Server, run: Run)
    decreases |run|
  {
    run == [] || (!Unrecorded(s, run[0].0) && AllRecorded(Step(s, run[0].0, run[0].1), run[1..]))
  }

  /** At every point of the run the histories replay to the members. */
  ghost predicate AlwaysReplays(s: Server, run: Run, base: Base)
    decreases |run|
  {
    Replays(s, base) &&
    (run == [] ||
     var t := Step(s, run[0].0, run[0].1);
     AlwaysReplays(t, run[1..], NextBase(base, s, run[0].0, t)))
  }

  /** Over every run, moderation of pending connections included: at each of its points, folding a room's history over
      its members at the last clearing gives exactly the names in the room, if and only if every step is recorded. */
  lemma {:induction false} RunReplaysExactly(s: Server, run: Run, base: Base)
    requires Grounded(s) && Replays(s, base) && Possible(s, run)
    ensures AlwaysReplays(s, run, base) <==> AllRecorded(s, run)
    ensures AllRecorded(s, run) ==> Replays(After(s, run), BaseAfter(s, base, run))
    decreases |run|
  {
    hide Grounded, Replays, Enabled, Step, NextBase, Unrecorded;
    if run != [] {
      var (a, now) := run[0];
      var t := Step(s, a, now);
      StepReplaysExactly(s, a, now, base);
      if !Unrecorded(s, a) {
        StepGrounded(s, a, now);
        RunReplaysExactly(t, run[1..], NextBase(base, s, a, t));
      }
    }
  }

  predicate NoMidnight(run: Run) { forall step <- run :: !step.0.Midnight? }

  lemma {:induction false} BaseStaysEmpty(s: Server, run: Run)
    requires NoMidnight(run)
    ensures BaseAfter(s, map[], run) == map[]
    decreases |run|
  {
    hide Step;
    if run != [] {
      assert run[0] in run && forall step <- run[1..] :: step in run;
      BaseStaysEmpty(Step(s, run[0].0, run[0].1), run[1..]);
    }
  }

  lemma FreshReplays(admins: set<string>)
    ensures Replays(Fresh(admins), map[])
  {
    forall r ensures RoomReplays(Fresh(admins), map[], r) { }
  }

  /** From a fresh server and without clearing, a room's history alone determines its members. */
  lemma HistoryDeterminesMembers(admins: set<string>, run: Run, room: string)
    requires Possible(Fresh(admins), run) && AllRecorded(Fresh(admins), run) && NoMidnight(run)
    ensures Present({}, History(After(Fresh(admins), run), room)) == Members(After(Fresh(admins), run), room).Keys
  {
    hide Grounded, Possible, AllRecorded;
    FreshGrounded(admins);
    FreshReplays(admins);
    RunReplaysExactly(Fresh(admins), run, map[]);
    BaseStaysEmpty(Fresh(admins), run);
    assert RoomReplays(After(Fresh(admins), run), map[], room);
  }

  /** Every run whose kicks and bans hit only members of rooms is recorded throughout. */
  lemma {:induction false} ActiveModerationIsRecorded(s: Server, run: Run)
    requires Owned(s) && Calm(s) && Possible(s, run) && AllHitActive(s, run)
    ensures AllRecorded(s, run)
    decreases |run|
  {
    hide Owned, Enabled, Step, HitsActive, Guard, Unrecorded, Calm;
    if run != [] {
      var (a, now) := run[0];
      UnrecordedWhileOwned(s, a, now);
      if Exits(s, a) { NobodyModeratedExits(s, a, now); }
      assert Possible(Step(s, a, now), []) && [run[0]][0] == run[0] && [run[0]][1..] == [];
      ActiveModerationKeepsOwned(s, [run[0]]);
      assert After(s, [run[0]]) == Step(s, a, now);
      ActiveModerationIsRecorded(Step(s, a, now), run[1..]);
    }
  }

  lemma NobodyModeratedExits(s: Server, a: Action, now: Moment)
    requires Calm(s) && Enabled(s, a, now) && Exits(s, a)
    ensures !Moderated(ClientOf(s, Actor(a)))
  {
  }
}
