/** What each command does to those who see it, exactly: who is where, what is recorded, who is sent it
    (server/handler.go, commands.go, operator.go). */
module Effects {
  import opened Text
  import opened Messages
  import opened ServerState
  import opened Commands
  import opened Ownership
  import opened Indexes
  import opened Grounds
  import opened Admins
  import Bans
  import opened Departures
  import opened Speech

  /** The connections registered in the room under another name than this. */
  ghost predicate InRoomBut(s: Server, room: string, exclude: string, x: ConnId) {
    exists name :: name in Members(s, room) && name != exclude && Members(s, room)[name] == x
  }

  /** All that is not about events is the same. */
  predicate SameBodies(s: Server, t: Server) {
    && t.conns == s.conns && t.clients == s.clients && t.admins == s.admins && t.admitted == s.admitted && t.tickets == s.tickets
    && t.position == s.position && t.kicked == s.kicked && t.banned == s.banned && t.shuttingDown == s.shuttingDown
  }

  /** Exactly one event has been added, in one room and in the log, and exactly the members of that room but one name have
      been sent it. */
  ghost predicate Posted(s: Server, t: Server, room: string, e: Event, exclude: string) {
    && SameBodies(s, t)
    && (forall r :: Members(t, r) == Members(s, r) && Queue(t, r) == Queue(s, r))
    && (forall r :: History(t, r) == History(s, r) + if r == room then [e] else [])
    && t.log == s.log + [e.msg]
    && t.rooms.Keys == s.rooms.Keys + {room}
    && (forall x: ConnId, d :: (x, d) in t.heard <==> (x, d) in s.heard || (d == e && InRoomBut(s, room, exclude, x)))
  }

  lemma PublishPosts(s: Server, room: string, m: Message, exclude: string)
    ensures Posted(s, Publish(s, room, m, exclude), room, Event(s.stamps, m.(room := room)), exclude)
  {
    var r := Record(s, room, m);
    assert forall q :: Members(r, q) == Members(s, q) && Queue(r, q) == Queue(s, q);
    HeardBy(r, room, EventOf(s, room, m), exclude);
  }

  // ---------- arriving ----------

  /** Choosing a name succeeds exactly for a valid name that is neither reserved nor taken; it registers the connection
      under it, an admin if the name is stored. Otherwise nothing changes. */
  lemma EnterNameExactly(s: Server, id: ConnId, name: string, now: Moment)
    requires Enabled(s, EnterName(id, name), now)
    ensures var c, t := ClientOf(s, id), Step(s, EnterName(id, name), now);
            if ValidName(name) && name != "Server" && name !in s.clients then
              t == s.(conns := s.conns[id := c.(username := name, stage := Choosing, admin := c.admin || name in s.admins)],
                      clients := s.clients[name := id])
            else t == s
  {
    hide ValidName;
  }

  /** The connection has joined the room: it is a member under its name, it has been sent everything in the room's history,
      and the others have been sent one event saying so. */
  ghost predicate Joined(s: Server, t: Server, id: ConnId, room: string, now: Moment) {
    var c := ClientOf(s, id);
    var e := Event(s.stamps, Message(now.time, c.username, "", Kind.Join, "", room));
    && t.conns == s.conns[id := c.(room := room, stage := Active)] && t.clients == s.clients && t.admitted == s.admitted && t.tickets == s.tickets
    && (forall r :: Members(t, r) == if r == room then Members(s, r)[c.username := id] else Members(s, r))
    && (forall r :: Queue(t, r) == Queue(s, r) && History(t, r) == History(s, r) + if r == room then [e] else [])
    && t.log == s.log + [e.msg]
    && (forall x: ConnId, d :: (x, d) in t.heard <==>
         (x, d) in s.heard || (x == id && d in History(s, room)) || (d == e && InRoomBut(t, room, c.username, x)))
  }

  lemma EnterJoins(s: Server, id: ConnId, room: string, now: Moment)
    requires ClientOf(s, id).room == ""
    ensures Joined(s, EnterRoom(s, id, room, now), id, room, now)
  {
    hide JoinRoom, Publish, SendHistory;
    var c := ClientOf(s, id);
    var joined := JoinRoom(s, id, room);
    JoinedFields(s, id, room);
    var sent := SendHistory(joined, id, room);
    SentFields(joined, id, room);
    var settled := WithClient(sent, id, ClientOf(joined, id).(stage := Active));
    SettledFields(sent, id, ClientOf(joined, id).(stage := Active));
    var m := Note(now, Kind.Join, c.username, "", "");
    PublishPosts(settled, room, m, c.username);
    var t := EnterRoom(s, id, room, now);
    hide Members, History, Queue;
    forall x: ConnId ensures InRoomBut(settled, room, c.username, x) <==> InRoomBut(t, room, c.username, x) { }
    hide InRoomBut;
    assert t.conns == s.conns[id := c.(room := room, stage := Active)];
  }

  lemma JoinedFields(s: Server, id: ConnId, room: string)
    requires ClientOf(s, id).room == ""
    ensures var c, t := ClientOf(s, id), JoinRoom(s, id, room);
            && t.conns == s.conns[id := c.(room := room)] && ClientOf(t, id) == c.(room := room)
            && t == s.(conns := t.conns, rooms := t.rooms)
            && (forall r :: Members(t, r) == if r == room then Members(s, r)[c.username := id] else Members(s, r))
            && (forall r :: Queue(t, r) == Queue(s, r) && History(t, r) == History(s, r))
  {
  }

  lemma SentFields(s: Server, id: ConnId, room: string)
    ensures var t := SendHistory(s, id, room);
            t == s.(heard := t.heard) && forall x: ConnId, d :: (x, d) in t.heard <==> (x, d) in s.heard || (x == id && d in History(s, room))
  {
    hide History;
  }

  lemma SettledFields(s: Server, id: ConnId, c: Client)
    ensures var t := WithClient(s, id, c);
            t == s.(conns := s.conns[id := c]) && forall r :: Members(t, r) == Members(s, r) && Queue(t, r) == Queue(s, r) && History(t, r) == History(s, r)
  {
  }

  /** The connection is gone: finished, closed, and its name registered for nobody. */
  predicate Ended(s: Server, t: Server, id: ConnId) {
    t.conns == s.conns[id := ClientOf(s, id).(closed := true, stage := Finished)] && t.clients == s.clients - {ClientOf(s, id).username}
  }

  lemma FinishEnds(s: Server, id: ConnId)
    ensures Ended(s, FinishPending(s, id), id)
  {
    hide RemoveClient;
    RemovedFields(s, ClientOf(s, id).username);
  }

  /** The connection stands last in the room's queue, has been told its place, and is asked whether it wants to wait. */
  predicate LinedUp(s: Server, t: Server, id: ConnId, room: string) {
    var ticket := |s.tickets|;
    && Queue(t, room) == Queue(s, room) + [Entry(id, ticket)] && t.tickets == s.tickets + [Ticket(room, id)]
    && t.conns == s.conns[id := ClientOf(s, id).(stage := Asked(room, ticket))]
    && t.position == s.position[id := |Queue(s, room)| + 1]
    && t.clients == s.clients && t.admitted == s.admitted && t.heard == s.heard && t.log == s.log
  }

  function Chosen(line: string): string { if Blank(line) then "general" else TrimSpace(line) }

  /** Choosing a room: a blank line means the default room, an invalid name changes nothing, in shutdown the connection
      ends; a room with fewer than ten members is joined at once, for a fuller one the connection lines up. */
  lemma ChooseRoomExactly(s: Server, id: ConnId, line: string, now: Moment)
    requires Grounded(s) && Enabled(s, ChooseRoom(id, line), now)
    ensures var t, room := Step(s, ChooseRoom(id, line), now), Chosen(line);
            if !ValidName(room) then t == s
            else if s.shuttingDown then Ended(s, t, id)
            else if |Members(s, room)| < 10 then Joined(s, t, id, room, now)
            else LinedUp(s, t, id, room)
  {
    hide Grounded, ValidName, TrimSpace, Blank, EnterRoom, FinishPending, Joined, Ended, LinedUp, Members;
    TrimmedBlank(line);
    assert ClientOf(s, id).room == "" by { OfGrounded(s, id); }
    FinishEnds(s, id);
    EnterJoins(s, id, Chosen(line), now);
    LinesUp(s, id, Chosen(line));
  }

  lemma LinesUp(s: Server, id: ConnId, room: string)
    ensures var t := Enqueue(s, id, room); LinedUp(s, WithClient(t, id, ClientOf(t, id).(stage := Asked(room, |s.tickets|))), id, room)
  {
  }

  /** A place handed out is taken up by joining the room waited for. */
  lemma TakeSlotExactly(s: Server, id: ConnId, now: Moment)
    requires Grounded(s) && Enabled(s, TakeSlot(id), now)
    ensures Joined(s, Step(s, TakeSlot(id), now), id, ClientOf(s, id).stage.room, now)
  {
    hide Grounded, EnterRoom, Joined, ValidName;
    OfGrounded(s, id);
    EnterJoins(s, id, ClientOf(s, id).stage.room, now);
  }

  /** The answer to the question whether to wait: "yes" waits, "no" leaves the queue and ends, anything else asks again. */
  lemma AnswerExactly(s: Server, id: ConnId, line: string, now: Moment)
    requires Enabled(s, Answer(id, line), now)
    ensures var c, t := ClientOf(s, id), Step(s, Answer(id, line), now);
            if TrimSpace(line) == "yes" then t == s.(conns := s.conns[id := c.(stage := Waiting(c.stage.room, c.stage.ticket))])
            else if TrimSpace(line) == "no" then Ended(s, t, id) && Queue(t, c.stage.room) == WithoutTicket(Queue(s, c.stage.room), c.stage.ticket)
            else t == s
  {
    hide TrimSpace, FinishPending, WithoutTicket, Renumber;
    if TrimSpace(line) == "no" { GivesUp(s, id); }
  }

  lemma GivesUp(s: Server, id: ConnId)
    requires ClientOf(s, id).stage.Asked?
    ensures var c, t := ClientOf(s, id), GiveUpStep(s, id);
            Ended(s, t, id) && Queue(t, c.stage.room) == WithoutTicket(Queue(s, c.stage.room), c.stage.ticket)
  {
    hide FinishPending, Renumber;
    var c := ClientOf(s, id);
    var u := RemoveFromQueue(s, c.stage.room, c.stage.ticket);
    FinishEnds(u, id);
    FinishKeepsQueues(u, id);
  }

  lemma FinishKeepsQueues(s: Server, id: ConnId)
    ensures forall r :: Queue(FinishPending(s, id), r) == Queue(s, r)
  {
  }

  // ---------- moving, renaming, leaving ----------

  /** A successful move: the connection is in the new room only, has been sent everything in that room's history, each room
      has recorded its event, and their members have been sent it. */
  ghost predicate Moved(s: Server, t: Server, id: ConnId, to: string, now: Moment) {
    var c := ClientOf(s, id);
    var leave := Event(s.stamps, Message(now.time, c.username, "", Kind.Leave, "switched", c.room));
    var join := Event(s.stamps + 1, Message(now.time, c.username, "", Kind.Join, "", to));
    && t.conns == s.conns[id := c.(room := to)] && t.clients == s.clients && t.log == s.log + [leave.msg, join.msg]
    && (forall r :: Members(t, r) == if r == to then Members(s, r)[c.username := id]
                                     else if r == c.room then Members(s, r) - {c.username} else Members(s, r))
    && History(t, to) == History(s, to) + [join]
    && (History(t, c.room) == History(s, c.room) + [leave] || c.room !in t.rooms)
    && (forall r :: r != to && r != c.room ==> History(t, r) == History(s, r))
    && (forall x: ConnId, d :: (x, d) in t.heard <==>
         (x, d) in s.heard || (x == id && d in History(s, to)) || (d == leave && InRoomBut(s, c.room, c.username, x))
         || (d == join && InRoomBut(t, to, c.username, x)))
  }

  lemma SwitchMoves(s: Server, id: ConnId, to: string, now: Moment)
    requires ClientOf(s, id).room != "" && ClientOf(s, id).room != to
    ensures Moved(s, SwitchRoom(s, id, to, now), id, to, now)
  {
    hide Publish, JoinRoom, Admit, DeleteRoomIfEmpty, SendHistory, Members, History, Queue, InRoomBut;
    var c := ClientOf(s, id);
    var leave, join := Note(now, Kind.Leave, c.username, "", "switched"), Note(now, Kind.Join, c.username, "", "");
    var parted := Publish(s, c.room, leave, c.username);
    PublishPosts(s, c.room, leave, c.username);
    var joined := JoinRoom(parted, id, to);
    MovedFields(parted, id, to);
    assert ClientOf(parted, id) == c;
    var arrived := DeleteRoomIfEmpty(Admit(joined, c.room), c.room);
    AdmittedFields(joined, c.room);
    DeletedFields(Admit(joined, c.room), c.room);
    var sent := SendHistory(arrived, id, to);
    SentFields(arrived, id, to);
    SameRooms(arrived, sent);
    var t := SwitchRoom(s, id, to, now);
    PublishPosts(sent, to, join, c.username);
    PublishStamps(s, c.room, leave, c.username);
    forall x: ConnId ensures InRoomBut(sent, to, c.username, x) <==> InRoomBut(t, to, c.username, x) { SameInRoom(sent, t, to, c.username, x); }
    assert s.log + [leave.(room := c.room)] + [join.(room := to)] == s.log + [leave.(room := c.room), join.(room := to)];
    assert forall h: seq<Event> :: h + [] == h;
  }

  lemma SameInRoom(s: Server, t: Server, room: string, exclude: string, x: ConnId)
    requires Members(t, room) == Members(s, room)
    ensures InRoomBut(s, room, exclude, x) <==> InRoomBut(t, room, exclude, x)
  {
    hide Members;
  }

  lemma SameRooms(s: Server, t: Server)
    requires t.rooms == s.rooms
    ensures forall r :: Members(t, r) == Members(s, r) && Queue(t, r) == Queue(s, r) && History(t, r) == History(s, r)
  {
  }

  lemma PublishStamps(s: Server, room: string, m: Message, exclude: string)
    ensures Publish(s, room, m, exclude).stamps == s.stamps + 1
  {
  }

  lemma MovedFields(s: Server, id: ConnId, to: string)
    requires ClientOf(s, id).room != "" && ClientOf(s, id).room != to
    ensures var c, t := ClientOf(s, id), JoinRoom(s, id, to);
            && t == s.(conns := s.conns[id := c.(room := to)], rooms := t.rooms)
            && (forall r :: Members(t, r) == if r == to then Members(s, r)[c.username := id]
                                             else if r == c.room then Members(s, r) - {c.username} else Members(s, r))
            && (forall r :: History(t, r) == History(s, r))
  {
  }

  lemma AdmittedFields(s: Server, room: string)
    ensures var t := Admit(s, room);
            && t == s.(rooms := t.rooms, admitted := t.admitted, position := t.position)
            && forall r :: Members(t, r) == Members(s, r) && History(t, r) == History(s, r)
  {
  }

  lemma DeletedFields(s: Server, room: string)
    ensures var t := DeleteRoomIfEmpty(s, room);
            && t == s.(rooms := t.rooms)
            && (forall r :: Members(t, r) == Members(s, r))
            && (forall r :: r != room ==> History(t, r) == History(s, r))
            && (History(t, room) == History(s, room) || room !in t.rooms)
  {
  }

  /** Moving succeeds exactly for a valid name: /switch to another room with fewer than ten members, /create to a room
      there is none of. Otherwise nothing changes. */
  lemma MoveExactly(s: Server, id: ConnId, args: string, now: Moment)
    requires Grounded(s) && InSession(s, id)
    ensures if Switches(s, id, args) then Moved(s, Step(s, Switch(id, args), now), id, args, now) else Step(s, Switch(id, args), now) == s
    ensures if Creates(s, args) then args != ClientOf(s, id).room ==> Moved(s, Step(s, Create(id, args), now), id, args, now)
            else Step(s, Create(id, args), now) == s
  {
    hide Grounded, SwitchRoom, Moved, ValidName;
    OfGrounded(s, id);
    if args != ClientOf(s, id).room { SwitchMoves(s, id, args, now); }
  }

  /** A rename succeeds exactly for a valid, unreserved, new and free name. The connection keeps its room, both indexes
      have the new name for the old one, and everybody in the room, itself included, is sent the event. */
  lemma RenameExactly(s: Server, id: ConnId, args: string, now: Moment)
    requires Grounded(s) && InSession(s, id)
    ensures var c, t := ClientOf(s, id), Step(s, Rename(id, args), now);
            var e := Event(s.stamps, Message(now.time, args, "", NameChange, c.username, c.room));
            if args != "" && ValidName(args) && args != "Server" && args != c.username && args !in s.clients then
              && t.clients == (s.clients - {c.username})[args := id] && t.conns == s.conns[id := c.(username := args)]
              && (forall r :: Members(t, r) == if r == c.room && r in s.rooms then (Members(s, r) - {c.username})[args := id] else Members(s, r))
              && (forall r :: History(t, r) == History(s, r) + if r == c.room then [e] else [])
              && (forall x: ConnId, d :: (x, d) in t.heard <==> (x, d) in s.heard || (d == e && InRoomBut(t, c.room, "", x)))
            else t == s
  {
    hide Grounded, ValidName, Publish, RenameClient, RenameAdmin, Members, History, InRoomBut;
    OfGrounded(s, id);
    var c, t := ClientOf(s, id), Step(s, Rename(id, args), now);
    if args != "" && ValidName(args) && args != "Server" && args != c.username && args !in s.clients {
      var u := RenameClient(s, id, c.username, args).0;
      RekeyedFields(s, id, args);
      var v := if c.admin then RenameAdmin(u, c.username, args) else u;
      assert v == u.(admins := v.admins) by { StoredFields(u, c.username, args); }
      SameRooms(u, v);
      PublishPosts(v, c.room, Note(now, NameChange, args, "", c.username), "");
      forall x: ConnId ensures InRoomBut(v, c.room, "", x) <==> InRoomBut(t, c.room, "", x) { SameInRoom(v, t, c.room, "", x); }
    } else {
      Refused(s, id, args);
    }
  }

  lemma RekeyedFields(s: Server, id: ConnId, args: string)
    requires args !in s.clients && args != "Server" && ClientOf(s, id).room != ""
    ensures var c, (t, ok) := ClientOf(s, id), RenameClient(s, id, ClientOf(s, id).username, args);
            && ok && t == s.(conns := s.conns[id := c.(username := args)], clients := (s.clients - {c.username})[args := id], rooms := t.rooms)
            && (forall r :: Members(t, r) == if r == c.room && r in s.rooms then (Members(s, r) - {c.username})[args := id] else Members(s, r))
            && (forall r :: History(t, r) == History(s, r))
  {
  }

  lemma StoredFields(s: Server, a: string, b: string)
    ensures RenameAdmin(s, a, b) == s.(admins := RenameAdmin(s, a, b).admins)
  {
  }

  lemma Refused(s: Server, id: ConnId, args: string)
    ensures args in s.clients || args == "Server" ==> RenameClient(s, id, ClientOf(s, id).username, args) == (s, false)
  {
  }

  /** The session's name is free, and its room has one event saying so, which nobody else is sent another of. */
  ghost predicate LeftRoom(s: Server, t: Server, id: ConnId, m: Message) {
    var c := ClientOf(s, id);
    && t.conns == s.conns[id := c.(closed := true, stage := Finished)]
    && t.clients == s.clients - {c.username} && t.log == s.log + [m]
    && (History(t, c.room) == History(s, c.room) + [Event(s.stamps, m)] || c.room !in t.rooms)
    && (forall r :: r != c.room ==> History(t, r) == History(s, r))
    && (forall x: ConnId, d :: (x, d) in t.heard ==> (x, d) in s.heard || d == Event(s.stamps, m))
  }

  lemma CleanupLeaves(s: Server, id: ConnId, now: Moment)
    requires !Moderated(ClientOf(s, id))
    ensures var c := ClientOf(s, id);
            LeftRoom(s, Cleanup(s, id, now), id, Message(now.time, c.username, "", Kind.Leave, if c.reason.Unset? then "voluntary" else "drop", c.room))
  {
    hide Publish, RemoveClient, Admit, DeleteRoomIfEmpty, Members, History, Queue, InRoomBut;
    var c := ClientOf(s, id);
    var removed := RemoveClient(s, c.username);
    GoneFields(s, c.username);
    var m := Note(now, Kind.Leave, c.username, "", if c.reason.Unset? then "voluntary" else "drop");
    PublishPosts(removed, c.room, m, c.username);
    var told := Publish(removed, c.room, m, c.username);
    AdmittedFields(told, c.room);
    DeletedFields(Admit(told, c.room), c.room);
    var u := DeleteRoomIfEmpty(Admit(told, c.room), c.room);
    SettledFields(u, id, ClientOf(u, id).(closed := true, stage := Finished));
    assert forall h: seq<Event> :: h + [] == h;
  }

  /** The end of an unmoderated session: finished and closed, its name free, and one event in its room that says whether
      the connection was dropped. */
  lemma LeaveExactly(s: Server, id: ConnId, drop: bool, now: Moment)
    requires Enabled(s, Action.Leave(id, drop), now) && !Moderated(ClientOf(s, id))
    ensures var c := ClientOf(s, id);
            var dropped := drop || c.reason.Drop?;
            LeftRoom(s.(conns := s.conns[id := c.(reason := if dropped then Drop else Unset)]), Step(s, Action.Leave(id, drop), now), id,
                     Message(now.time, c.username, "", Kind.Leave, if dropped then "drop" else "voluntary", c.room))
  {
    hide Cleanup, LeftRoom;
    CleanupLeaves(WithClient(s, id, SetReason(ClientOf(s, id), drop)), id, now);
  }

  lemma GoneFields(s: Server, name: string)
    ensures var t := RemoveClient(s, name);
            && t == s.(clients := s.clients - {name}, rooms := t.rooms) && forall r :: History(t, r) == History(s, r)
  {
  }

  // ---------- moderation ----------

  /** A kick: the target is closed for good and free of its name, it is out of its room, one event says so in that room,
      and those who stay there are sent it. */
  lemma KickExactly(s: Server, name: string, issuer: string, now: Moment)
    requires name in s.clients
    ensures var id := s.clients[name];
            var c, t := ClientOf(s, id), KickTarget(s, name, issuer, now);
            var e := Event(s.stamps, Message(now.time, name, "kicked", Moderation, issuer, c.room));
            && t.conns == s.conns[id := c.(reason := Kicked, closed := true)] && t.clients == s.clients - {name} && t.log == s.log + [e.msg]
            && (forall r :: Members(t, r) == if r == c.room && r != "" then Members(s, r) - {name} else Members(s, r))
            && (forall r :: History(t, r) == History(s, r) + if r == c.room then [e] else [])
            && (forall x: ConnId, d :: (x, d) in t.heard <==> (x, d) in s.heard || (d == e && InRoomBut(t, c.room, "", x)))
  {
    hide Publish, RemoveClient, Admit, Members, History, Queue, InRoomBut, Expel;
    var id := s.clients[name];
    var c := ClientOf(s, id);
    var out := Expel(s, id, name, Kicked, issuer, now);
    ExpelExactly(s, id, name, Kicked, issuer, now);
    var cooled := AddKickCooldown(out, c.host, now.clock);
    SameRooms(out, cooled);
    AdmittedFields(cooled, c.room);
    var t := KickTarget(s, name, issuer, now);
    forall x: ConnId ensures InRoomBut(out, c.room, "", x) <==> InRoomBut(t, c.room, "", x) { SameInRoom(out, t, c.room, "", x); }
  }

  lemma ExpelExactly(s: Server, id: ConnId, name: string, verdict: Reason, issuer: string, now: Moment)
    requires name in s.clients && s.clients[name] == id && !verdict.Unset? && !verdict.Drop?
    ensures var c, t := ClientOf(s, id), Expel(s, id, name, verdict, issuer, now);
            var verb := if verdict.Kicked? then "kicked" else "banned";
            var e := Event(s.stamps, Message(now.time, name, verb, Moderation, issuer, c.room));
            && t.conns == s.conns[id := c.(reason := verdict, closed := true)] && t.clients == s.clients - {name} && t.log == s.log + [e.msg]
            && (forall r :: Members(t, r) == if r == c.room && r != "" then Members(s, r) - {name} else Members(s, r))
            && (forall r :: History(t, r) == History(s, r) + if r == c.room then [e] else [])
            && (forall x: ConnId, d :: (x, d) in t.heard <==> (x, d) in s.heard || (d == e && InRoomBut(t, c.room, "", x)))
  {
    hide Publish, RemoveClient, Members, History, Queue, InRoomBut;
    var c := ClientOf(s, id);
    var marked := WithClient(s, id, c.(reason := verdict));
    SettledFields(s, id, c.(reason := verdict));
    var removed := RemoveClient(marked, name);
    GoneFields(marked, name);
    forall r ensures Members(removed, r) == if r == c.room && r != "" then Members(s, r) - {name} else Members(s, r) { RemoveMembers(marked, name, r); }
    var m := Note(now, Moderation, name, Verb(verdict), issuer);
    PublishPosts(removed, c.room, m, "");
    var told := Publish(removed, c.room, m, "");
    SettledFields(told, id, ClientOf(told, id).(closed := true));
    var t := Expel(s, id, name, verdict, issuer, now);
    forall x: ConnId ensures InRoomBut(removed, c.room, "", x) <==> InRoomBut(t, c.room, "", x) { SameInRoom(removed, t, c.room, "", x); }
  }

  /** Closed by a ban. */
  predicate BannedOut(c: Client) { c.closed && c.reason.Banned? }

  lemma {:induction false} ExpelAllCloses(s: Server, ids: seq<ConnId>, issuer: string, now: Moment)
    ensures var t := ExpelAll(s, ids, issuer, now);
            (forall id <- ids :: BannedOut(ClientOf(t, id))) && forall x: ConnId :: BannedOut(ClientOf(s, x)) ==> BannedOut(ClientOf(t, x))
  {
    hide Expel, SameLinks;
    if ids != [] {
      var init, id := ids[..|ids| - 1], ids[|ids| - 1];
      ExpelAllCloses(s, init, issuer, now);
      var t := ExpelAll(s, init, issuer, now);
      ExpelLinks(t, id, ClientOf(t, id).username, Banned, issuer, now);
      assert ids == init + [id];
    }
  }

  /** A ban closes everybody it takes out. */
  lemma BanCloses(s: Server, name: string, issuer: string, order: BanOrder, now: Moment)
    requires name in s.clients
    ensures forall id <- Expelled(s, name, order) :: BannedOut(ClientOf(BanTarget(s, name, issuer, order, now), id))
  {
    hide Expel, ExpelAll, Purge, CloseAll, AdmitRooms, SameLinks, Untouched;
    var id := s.clients[name];
    var host := ClientOf(s, id).host;
    var first := BanFirst(s, name, issuer, now);
    ExpelLinks(s, id, name, Banned, issuer, now);
    ExpelAllCloses(first, order.collateral, issuer, now);
    var u := BanEveryone(s, name, issuer, order, now);
    assert BannedOut(ClientOf(first, id));
    var (p, removed) := Purge(u, host, order.visit);
    PurgeUntouched(u, host, order.visit);
    Bans.CloseAllFrame(p, removed);
    AdmitRoomsUntouched(CloseAll(p, removed), order.reopened, Expelled(s, name, order));
    SweptStayOut(u, p, CloseAll(p, removed), AdmitRooms(CloseAll(p, removed), order.reopened, Expelled(s, name, order)));
  }

  lemma SweptStayOut(u: Server, p: Server, q: Server, v: Server)
    requires Untouched(u, p) && Untouched(q, v)
    requires forall id :: ClientOf(q, id) == ClientOf(p, id) || ClientOf(q, id) == ClientOf(p, id).(closed := true)
    ensures forall x: ConnId :: BannedOut(ClientOf(u, x)) ==> BannedOut(ClientOf(v, x))
  {
    forall x: ConnId ensures ClientOf(p, x) == ClientOf(u, x) && ClientOf(v, x) == ClientOf(q, x) { }
  }

  /** The flag and the stored name of a registered client have been set, and one event says so in its room. */
  predicate Promoted(s: Server, t: Server, name: string, on: bool, m: Message)
    requires name in s.clients
  {
    var id := s.clients[name];
    var c := ClientOf(s, id);
    && t.conns == s.conns[id := c.(admin := on)] && t.admins == (if on then s.admins + {name} else s.admins - {name})
    && t.clients == s.clients && t.heard == s.heard && t.log == s.log + [m]
  }

  ghost predicate OneMore(s: Server, t: Server, room: string, m: Message) {
    forall r :: Members(t, r) == Members(s, r) && History(t, r) == History(s, r) + if r == room then [Event(s.stamps, m)] else []
  }

  lemma TargetPromoted(s: Server, name: string, on: bool, issuer: string, now: Moment)
    requires name in s.clients && ClientOf(s, s.clients[name]).admin != on
    ensures var c, t := ClientOf(s, s.clients[name]), PromoteTarget(s, name, on, issuer, now);
            var m := Message(now.time, name, if on then "promoted" else "demoted", Moderation, issuer, c.room);
            Promoted(s, t, name, on, m) && OneMore(s, t, c.room, m)
  {
    hide Members, History, Queue, Record;
    var id := s.clients[name];
    var c := ClientOf(s, id);
    var u := WithClient(s, id, c.(admin := on)).(admins := if on then s.admins + {name} else s.admins - {name});
    SameRooms(s, u);
    RecordedFields(u, c.room, Note(now, Moderation, name, if on then "promoted" else "demoted", issuer));
  }

  /** A promotion or demotion sets the client's flag and its stored name and records one event; one that would change
      nothing is ignored. */
  lemma PromoteExactly(s: Server, args: string, on: bool, now: Moment)
    ensures var t := Step(s, if on then OperatorPromote(args) else OperatorDemote(args), now);
            if args != "" && args in s.clients && ClientOf(s, s.clients[args]).admin != on then
              var room := ClientOf(s, s.clients[args]).room;
              var m := Message(now.time, args, if on then "promoted" else "demoted", Moderation, "Server", room);
              Promoted(s, t, args, on, m) && OneMore(s, t, room, m)
            else t == s
  {
    hide Promoted, OneMore;
    if args != "" && args in s.clients && ClientOf(s, s.clients[args]).admin != on { TargetPromoted(s, args, on, "Server", now); }
  }

  lemma TargetMuted(s: Server, name: string, on: bool, issuer: string, now: Moment)
    requires name in s.clients && ClientOf(s, s.clients[name]).muted != on
    ensures var id := s.clients[name];
            var c, t := ClientOf(s, id), MuteTarget(s, name, on, issuer, now);
            var m := Message(now.time, name, if on then "muted" else "unmuted", Moderation, issuer, c.room);
            && t.conns == s.conns[id := c.(muted := on)] && t.clients == s.clients && t.heard == s.heard && t.log == s.log + [m]
            && OneMore(s, t, c.room, m)
  {
    hide Members, History, Queue, Record;
    var id := s.clients[name];
    var c := ClientOf(s, id);
    var u := WithClient(s, id, c.(muted := on));
    SameRooms(s, u);
    RecordedFields(u, c.room, Note(now, Moderation, name, if on then "muted" else "unmuted", issuer));
  }

  lemma RecordedFields(s: Server, room: string, m: Message)
    ensures var t := Record(s, room, m);
            && t == s.(rooms := t.rooms, log := s.log + [m.(room := room)], stamps := s.stamps + 1)
            && (forall r :: Members(t, r) == Members(s, r) && Queue(t, r) == Queue(s, r))
            && (forall r :: History(t, r) == History(s, r) + if r == room then [Event(s.stamps, m.(room := room))] else [])
  {
  }

  /** An announcement is recorded once in every room, and nowhere else. */
  lemma {:induction false} AnnounceEverywhere(s: Server, names: seq<string>, text: string, issuer: string, now: Moment)
    requires forall i, j :: 0 <= i < j < |names| ==> names[i] != names[j]
    ensures var t := AnnounceIn(s, names, text, issuer, now);
            && t == s.(rooms := t.rooms, log := t.log, stamps := t.stamps)
            && (forall r :: Members(t, r) == Members(s, r) && Queue(t, r) == Queue(s, r))
            && (forall r :: r !in names ==> History(t, r) == History(s, r))
            && (forall r :: r in names ==> Announced(s, t, r, Message(now.time, "", text, Announcement, issuer, r)))
  {
    hide Members, History, Queue, Record;
    if names != [] {
      var init, last := names[..|names| - 1], names[|names| - 1];
      AnnounceEverywhere(s, init, text, issuer, now);
      assert names == init + [last] && last !in init;
      RecordedFields(AnnounceIn(s, init, text, issuer, now), last, Note(now, Announcement, "", text, issuer));
      var u, t := AnnounceIn(s, init, text, issuer, now), AnnounceIn(s, names, text, issuer, now);
      assert History(t, last)[|History(s, last)|].msg == Message(now.time, "", text, Announcement, issuer, last);
      forall r | r in init ensures Announced(s, t, r, Message(now.time, "", text, Announcement, issuer, r)) {
        assert Announced(s, u, r, Message(now.time, "", text, Announcement, issuer, r)) && History(t, r) == History(u, r) + [];
      }
    }
  }

  /** The room's history is one message longer. */
  predicate Announced(s: Server, t: Server, room: string, m: Message) {
    |History(t, room)| == |History(s, room)| + 1 && History(t, room)[..|History(s, room)|] == History(s, room)
    && History(t, room)[|History(s, room)|].msg == m
  }

  lemma AnnounceExactly(s: Server, args: string, names: seq<string>, now: Moment)
    requires Enabled(s, OperatorAnnounce(args, names), now)
    ensures var t := Step(s, OperatorAnnounce(args, names), now);
            && (Blank(args) ==> t == s)
            && t == s.(rooms := t.rooms, log := t.log, stamps := t.stamps)
            && (!Blank(args) ==> forall r :: r in s.rooms ==> Announced(s, t, r, Message(now.time, "", args, Announcement, "Server", r)))
  {
    hide TrimSpace, AnnounceIn, Blank, Announced;
    TrimmedBlank(args);
    AnnounceEverywhere(s, names, args, "Server", now);
  }

  /** The midnight clear empties every history and touches nothing else. */
  lemma MidnightExactly(s: Server, now: Moment)
    ensures var t := Step(s, Midnight, now);
            && (forall r :: History(t, r) == [] && Members(t, r) == Members(s, r) && Queue(t, r) == Queue(s, r))
            && t == s.(rooms := t.rooms) && t.rooms.Keys == s.rooms.Keys
  {
  }
}
