/** How full a room can get when checks, joins, departures and admissions interleave
    (server/handler.go, room.go, commands.go). */
module Capacity {
  import opened Messages
  import opened ServerState
  import opened Commands
  import opened Ownership
  import opened Queues
  import opened QueueRuns
  import opened Bans
  import opened Sections
  import opened Grounds
  import opened Scripts

  // ---------- tickets ----------

  predicate QueuedTicket(s: Server, room: string, e: Entry) {
    e.ticket < |s.tickets| && s.tickets[e.ticket].room == room
  }

  predicate Ticketed(s: Server, id: ConnId) {
    var stage := ClientOf(s, id).stage;
    stage.Asked? || stage.Waiting? ==> stage.ticket < |s.tickets| && s.tickets[stage.ticket] == Ticket(stage.room, id)
  }

  /** Admitted and queued tickets exist, and a waiting connection holds a ticket of its own for its room. */
  ghost predicate TicketsOk(s: Server) {
    && (forall t <- s.admitted :: t < |s.tickets|)
    && (forall room, e :: e in Queue(s, room) ==> QueuedTicket(s, room, e))
    && (forall id :: Ticketed(s, id))
  }

  /** Besides enqueueing, sections only drop queue entries and admit queued tickets. */
  ghost predicate QueueFrame(s: Server, t: Server, w: Work, choice: Choice) {
    && t.tickets == s.tickets
    && (forall room, e :: e in Queue(t, room) ==> e in Queue(s, room))
    && (t.admitted == s.admitted
        || exists room, e :: AdmitsIn(w, choice) == multiset{room} && e in Queue(s, room) && t.admitted == s.admitted + [e.ticket])
  }

  lemma AdmitQueue(s: Server, room: string)
    ensures var t := Admit(s, room);
            && t.tickets == s.tickets
            && (forall r, e :: e in Queue(t, r) ==> e in Queue(s, r))
            && (t.admitted == s.admitted || exists e :: e in Queue(s, room) && t.admitted == s.admitted + [e.ticket])
  {
    hide Renumber;
    var queue := Queue(s, room);
    var k := ClosedAhead(s, queue);
    if !s.shuttingDown && room in s.rooms && k < |queue| {
      assert queue[k] in queue;
    }
  }

  lemma DequeueQueue(s: Server, room: string, ticket: nat)
    ensures var t := RemoveFromQueue(s, room, ticket);
            && t.tickets == s.tickets && t.admitted == s.admitted
            && (forall r, e :: e in Queue(t, r) ==> e in Queue(s, r))
  {
    hide Renumber;
    WithoutTicketShrinks(Queue(s, room), ticket);
  }

  lemma PurgeQueue(s: Server, host: string, visit: seq<string>)
    requires forall i, j :: 0 <= i < j < |visit| ==> visit[i] != visit[j]
    ensures var t := Purge(s, host, visit).0;
            && t.tickets == s.tickets && t.admitted == s.admitted
            && (forall r, e :: e in Queue(t, r) ==> e in Queue(s, r))
  {
    hide Purge, Kept;
    PurgedWereQueued(s, host, visit);
    PurgeIsStableFilter(s, host, visit);
  }

  lemma SameDataFrame(s: Server, t: Server, w: Work, choice: Choice)
    requires SameData(s, t)
    ensures QueueFrame(s, t, w, choice)
  {
  }

  lemma ConnQueue(s: Server, id: ConnId, c: Client)
    ensures SameData(s, WithClient(s, id, c))
  {
    WithClientData(s, id, c);
  }

  lemma EffectQueue(s: Server, w: Work, choice: Choice)
    requires !w.Line? && Legal(s, w, choice)
    ensures QueueFrame(s, Effect(s, w, choice), w, choice)
  {
    hide JoinRoom, Record, RemoveClient, RenameClient, Admit, DeleteRoomIfEmpty, RemoveFromQueue, Purge, QueueFrame, SameData, WithClient, ClientsByHost;
    var t := Effect(s, w, choice);
    if !w.Refill? && !w.RefillAny? && !w.Dequeue? && !w.Sweep? {
      assert SameData(s, t) by { EffectData(s, w, choice); }
      SameDataFrame(s, t, w, choice);
    } else {
      match w
      case Refill(room) => AdmitQueue(s, room); AdmittedFrame(s, t, w, choice, room);
      case RefillAny(_) => AdmitQueue(s, choice.room); AdmittedFrame(s, t, w, choice, choice.room);
      case Dequeue(room, ticket) => DequeueQueue(s, room, ticket); FrameIf(s, t, w, choice);
      case Sweep(host, _) => PurgeQueue(s, host, choice.visit); FrameIf(s, t, w, choice);
    }
  }

  lemma FrameIf(s: Server, t: Server, w: Work, choice: Choice)
    requires t.tickets == s.tickets && t.admitted == s.admitted && forall room, e :: e in Queue(t, room) ==> e in Queue(s, room)
    ensures QueueFrame(s, t, w, choice)
  {
  }

  lemma AdmittedFrame(s: Server, t: Server, w: Work, choice: Choice, room: string)
    requires AdmitsIn(w, choice) == multiset{room}
    requires t.tickets == s.tickets && forall r, e :: e in Queue(t, r) ==> e in Queue(s, r)
    requires t.admitted == s.admitted || exists e :: e in Queue(s, room) && t.admitted == s.admitted + [e.ticket]
    ensures QueueFrame(s, t, w, choice)
  {
  }

  lemma EffectData(s: Server, w: Work, choice: Choice)
    requires !w.Line? && !w.Refill? && !w.RefillAny? && !w.Dequeue? && !w.Sweep?
    ensures SameData(s, Effect(s, w, choice))
  {
    hide JoinRoom, Record, RemoveClient, RenameClient, DeleteRoomIfEmpty, SameData, WithClient;
    SameDataSelf(s);
    match w
    case Move(id, room) =>
      var t := JoinRoom(s, id, room);
      JoinData(s, id, room);
      ConnQueue(t, id, ClientOf(t, id).(stage := Active));
      SameDataTrans(s, t, Effect(s, w, choice));
    case Snapshot(id, room) => HeardQueue(s, SendHistory(s, id, room));
    case Post(room, m, _) => RecordData(s, room, m);
    case Tell(room, e, exclude) => HeardQueue(s, BroadcastRoom(s, room, e, exclude));
    case Jot(room, m) => RecordData(s, room, m);
    case Unregister(name) => RemoveClientData(s, name);
    case Rekey(id, name) => RenameData(s, id, ClientOf(s, id).username, name);
    case AdminRekey(_, _) => FieldQueue(s, Effect(s, w, choice));
    case Tidy(room) => DeleteData(s, room);
    case Mark(id, reason) => ConnQueue(s, id, ClientOf(s, id).(reason := reason));
    case Shut(id) => ConnQueue(s, id, ClientOf(s, id).(closed := true));
    case Cool(_, _) => FieldQueue(s, Effect(s, w, choice));
    case Forbid(_) => FieldQueue(s, Effect(s, w, choice));
    case Collateral(ids, _, _, _) => if ids != [] { ConnQueue(s, ids[0], ClientOf(s, ids[0]).(reason := Banned)); }
    case Quit(id) => ConnQueue(s, id, ClientOf(s, id).(closed := true, stage := Finished));
    case _ =>
  }

  lemma HeardQueue(s: Server, t: Server)
    requires t == s.(heard := t.heard)
    ensures SameData(s, t)
  {
  }

  lemma FieldQueue(s: Server, t: Server)
    requires t == s.(admins := t.admins, kicked := t.kicked, banned := t.banned)
    ensures SameData(s, t)
  {
  }

  lemma LineQueue(s: Server, id: ConnId, room: string, choice: Choice)
    ensures var t := Effect(s, Line(id, room), choice);
            && t.tickets == s.tickets + [Ticket(room, id)] && t.admitted == s.admitted
            && (forall r, e :: e in Queue(t, r) ==> e in Queue(s, r) || (r == room && e == Entry(id, |s.tickets|)))
  {
  }

  lemma EffectTickets(s: Server, w: Work, choice: Choice)
    requires TicketsOk(s) && Legal(s, w, choice)
    ensures TicketsOk(Effect(s, w, choice))
  {
    hide Effect, QueueFrame, Legal;
    var t := Effect(s, w, choice);
    if w.Line? { LineQueue(s, w.id, w.room, choice); } else { EffectQueue(s, w, choice); UnpackFrame(s, t, w, choice); }
    forall id ensures Ticketed(t, id) {
      assert Ticketed(s, id);
      EffectClient(s, w, choice, id);
    }
    forall room, e | e in Queue(t, room) ensures QueuedTicket(t, room, e) { }
  }

  lemma UnpackFrame(s: Server, t: Server, w: Work, choice: Choice)
    requires QueueFrame(s, t, w, choice) && TicketsOk(s)
    ensures t.tickets == s.tickets
    ensures forall room, e :: e in Queue(t, room) ==> e in Queue(s, room)
    ensures forall x <- t.admitted :: x < |s.tickets|
  {
    if t.admitted != s.admitted {
      var room, e :| AdmitsIn(w, choice) == multiset{room} && e in Queue(s, room) && t.admitted == s.admitted + [e.ticket];
      assert QueuedTicket(s, room, e);
    }
  }

  // ---------- members ----------

  predicate SameRoomData(s: Server, t: Server) { t.rooms == s.rooms && t.tickets == s.tickets && t.admitted == s.admitted }

  lemma SmallSteps(s: Server, id: ConnId, text: string, now: Moment)
    ensures SameRoomData(s, AcceptConnection(s, id, text, now))
    ensures ClientOf(s, id).stage.Naming? ==> SameRoomData(s, SubmitName(s, id, text))
    ensures Text.TrimSpace(text) == "yes" ==> SameRoomData(s, AnswerStep(s, id, text))
  {
    hide Messages.ValidName, Text.TrimSpace;
    if ClientOf(s, id).stage.Naming? { NameEntered(s, id, text); }
  }

  lemma ClearedRooms(s: Server)
    ensures var t := ClearHistory(s);
            t.tickets == s.tickets && t.admitted == s.admitted
            && forall room :: Members(t, room) == Members(s, room) && Queue(t, room) == Queue(s, room)
  {
  }

  /** Rooms, queues and tickets stay as they are while a command is merely being read. */
  lemma StartRooms(y: System, a: Action, now: Moment)
    requires CanStart(y, a)
    ensures var s, t := y.server, StartEffect(y.server, a, now);
            && t.tickets == s.tickets && t.admitted == s.admitted
            && (forall room :: Members(t, room) == Members(s, room) && Queue(t, room) == Queue(s, room))
  {
    hide StartEffect;
    var s, t := y.server, StartEffect(y.server, a, now);
    if a.Midnight? {
      ClearedRooms(s);
      assert t == ClearHistory(s) by { MidnightStart(s, now); }
    } else {
      NamingStart(y, a);
      hide CanStart;
      StartSameRooms(s, a, now);
      forall room ensures Members(t, room) == Members(s, room) && Queue(t, room) == Queue(s, room) { }
    }
  }

  lemma MidnightStart(s: Server, now: Moment)
    ensures StartEffect(s, Midnight, now) == ClearHistory(s)
  {
  }

  lemma NamingStart(y: System, a: Action)
    requires CanStart(y, a)
    ensures a.EnterName? ==> ClientOf(y.server, a.id).stage.Naming?
  {
  }

  lemma StartSameRooms(s: Server, a: Action, now: Moment)
    requires !a.Midnight? && (a.EnterName? ==> ClientOf(s, a.id).stage.Naming?)
    ensures SameRoomData(s, StartEffect(s, a, now))
  {
    hide AcceptConnection, SubmitName, AnswerStep, ClearHistory, Text.TrimSpace, SetReason;
    if a.Connect? { SmallSteps(s, a.id, a.host, now); }
    if a.EnterName? { SmallSteps(s, a.id, a.name, now); }
    if a.Answer? { SmallSteps(s, a.id, a.line, now); }
  }

  predicate ChangesMembers(w: Work) { w.Move? || w.Unregister? || w.Rekey? }

  lemma LinkMembers(s: Server, t: Server)
    requires SameLinks(s, t)
    ensures forall room :: Members(t, room) == Members(s, room)
  {
  }

  lemma EffectMembers(s: Server, w: Work, choice: Choice, room: string)
    requires !ChangesMembers(w)
    ensures Members(Effect(s, w, choice), room) == Members(s, room)
  {
    hide Record, Admit, DeleteRoomIfEmpty, RemoveFromQueue, Purge, SameLinks, Enqueue, Members;
    var t := Effect(s, w, choice);
    if w.Line? {
      var u := Enqueue(s, w.id, w.room);
      EnqueueMembers(s, w.id, w.room, room);
      ConnMembers(u, w.id, ClientOf(u, w.id).(stage := Asked(w.room, |s.tickets|)), room);
    } else if t.rooms == s.rooms {
      RoomsMembers(s, t, room);
    } else {
      assert SameLinks(s, t) by {
        match w
        case Post(r, m, _) => RecordLinks(s, r, m);
        case Jot(r, m) => RecordLinks(s, r, m);
        case Refill(r) => AdmitLinks(s, r);
        case RefillAny(_) => AdmitLinks(s, choice.room);
        case Tidy(r) => DeleteLinks(s, r);
        case Dequeue(r, ticket) => RemoveFromQueueLinks(s, r, ticket);
        case Sweep(host, _) => PurgeLinks(s, host, choice.visit);
      }
      LinkMembers(s, t);
    }
  }

  lemma EnqueueMembers(s: Server, id: ConnId, r: string, room: string)
    ensures Members(Enqueue(s, id, r), room) == Members(s, room)
  {
  }

  lemma ConnMembers(s: Server, id: ConnId, c: Client, room: string)
    ensures Members(WithClient(s, id, c), room) == Members(s, room)
  {
  }

  lemma RoomsMembers(s: Server, t: Server, room: string)
    requires t.rooms == s.rooms
    ensures Members(t, room) == Members(s, room)
  {
  }

  function Count(places: multiset<string>, room: string): nat { places[room] }

  lemma RemoveOne(m: map<string, ConnId>, name: string)
    ensures |m - {name}| == |m| - (if name in m then 1 else 0)
  {
    if name in m {
      assert m == (m - {name})[name := m[name]];
    } else {
      assert m - {name} == m;
    }
  }

  lemma AddOne(m: map<string, ConnId>, name: string, id: ConnId)
    ensures |m[name := id]| == |m| + (if name in m then 0 else 1)
  {
    if name in m {
      assert m[name := id].Keys == m.Keys;
      KeyCount(m);
      KeyCount(m[name := id]);
    }
  }

  lemma KeyCount(m: map<string, ConnId>)
    ensures |m| == |m.Keys|
  {
  }

  lemma UnregisterCount(s: Server, name: string, room: string)
    ensures |Members(RemoveClient(s, name), room)| + Count(Vacated(s, Unregister(name)), room) == |Members(s, room)|
  {
    if name in s.clients {
      RemoveOne(Members(s, ClientOf(s, s.clients[name]).room), name);
    }
  }

  lemma RekeyCount(s: Server, id: ConnId, name: string, room: string)
    ensures |Members(RenameClient(s, id, ClientOf(s, id).username, name).0, room)|
            <= |Members(s, room)| + Count(Reenters(s, Rekey(id, name)), room)
  {
    var c := ClientOf(s, id);
    var t := RenameClient(s, id, c.username, name).0;
    if CanRekey(s, name) && room == c.room && room != "" && room in s.rooms {
      var m := Members(s, room);
      RekeyedMembers(s, id, name);
      hide RenameClient, Reserved;
      RemoveOne(m, c.username);
      AddOne(m - {c.username}, name, id);
    } else {
      RekeyElsewhere(s, id, name, room);
    }
  }

  lemma RekeyedMembers(s: Server, id: ConnId, name: string)
    requires CanRekey(s, name) && ClientOf(s, id).room != "" && ClientOf(s, id).room in s.rooms
    ensures var c := ClientOf(s, id);
            Members(RenameClient(s, id, c.username, name).0, c.room) == (Members(s, c.room) - {c.username})[name := id]
  {
  }

  lemma RekeyElsewhere(s: Server, id: ConnId, name: string, room: string)
    requires !CanRekey(s, name) || room != ClientOf(s, id).room || room == "" || room !in s.rooms
    ensures Members(RenameClient(s, id, ClientOf(s, id).username, name).0, room) == Members(s, room)
  {
  }

  lemma MoveCount(s: Server, id: ConnId, to: string, room: string)
    ensures |Members(JoinRoom(s, id, to), room)| + Count(Vacated(s, Move(id, to)), room) <= |Members(s, room)| + if room == to then 1 else 0
  {
    var c := ClientOf(s, id);
    RemoveOne(Members(s, c.room), c.username);
    var left := s.(rooms := Without(s.rooms, c.room, c.username));
    AddOne(Members(left, to), c.username, id);
  }

  /** Members come from joins and re-entries only, and every departure is booked. */
  lemma MembersBooked(s: Server, w: Work, choice: Choice, room: string)
    ensures |Members(Effect(s, w, choice), room)| + Count(Vacated(s, w), room)
            <= |Members(s, room)| + Count(Reenters(s, w), room) + if w.Move? && w.room == room then 1 else 0
  {
    hide JoinRoom, RemoveClient, RenameClient, Members, Count;
    if w.Move? {
      MoveCount(s, w.id, w.room, room);
      NothingReenters(s, w, room);
      ConnMembers(JoinRoom(s, w.id, w.room), w.id, ClientOf(JoinRoom(s, w.id, w.room), w.id).(stage := Active), room);
    } else if w.Unregister? {
      UnregisterCount(s, w.name, room);
      NothingReenters(s, w, room);
    } else if w.Rekey? {
      RekeyCount(s, w.id, w.name, room);
      NothingVacated(s, w, room);
    } else {
      EffectMembers(s, w, choice, room);
      NothingVacated(s, w, room);
      NothingReenters(s, w, room);
    }
  }

  lemma NothingVacated(s: Server, w: Work, room: string)
    requires !w.Move? && !w.Unregister?
    ensures Count(Vacated(s, w), room) == 0
  {
  }

  lemma NothingReenters(s: Server, w: Work, room: string)
    requires !w.Rekey?
    ensures Count(Reenters(s, w), room) == 0
  {
  }

  // ---------- places handed out ----------

  lemma {:induction false} JotsMove(rooms: seq<string>, m: Message)
    ensures NoMove(Jots(rooms, m))
  {
    if rooms != [] { JotsMove(rooms[..|rooms| - 1], m); }
  }

  /** Only a capacity check that has passed puts a join into a list. */
  lemma NextMoves(s: Server, w: Work, choice: Choice, now: Moment)
    requires SelfWork(w) || Shared(w)
    ensures forall x, room :: Move(x, room) in Next(s, w, choice, now) ==>
              (w.Check? || w.CheckSwitch? || w.CheckCreate?) && x == w.id && room == w.room && FastGrant(s, w) == multiset{room}
  {
    hide HasCapacity, Purge, Shuts;
    if Shared(w) { NextShared(s, w, choice, now); }
  }

  lemma StepMoves(y: System, th: Thread, choice: Choice, now: Moment, x: ConnId, room: string)
    requires ScriptsOk(y) && WorkOf(y, th) != []
    requires Move(x, room) in WorkOf(Continued(y, th, choice, now), Handler(x)) && Move(x, room) !in WorkOf(y, Handler(x))
    ensures var w := WorkOf(y, th)[0];
            th == Handler(x) && (w.Check? || w.CheckSwitch? || w.CheckCreate?) && w.id == x && FastGrant(y.server, w) == multiset{room}
  {
    hide Effect, Next, Sound, Booked, NewlyOwn, NewlyMissed, NewlyAbsent, FastGrant;
    var ws := WorkOf(y, th);
    HeadKind(y, th);
    NextMoves(y.server, ws[0], choice, now);
    assert forall v :: v in Next(y.server, ws[0], choice, now) + ws[1..] ==> v in Next(y.server, ws[0], choice, now) || v in ws;
  }

  lemma HeadKind(y: System, th: Thread)
    requires ScriptsOk(y) && WorkOf(y, th) != []
    ensures SelfWork(WorkOf(y, th)[0]) || Shared(WorkOf(y, th)[0])
    ensures th.Handler? && SelfWork(WorkOf(y, th)[0]) ==> WorkOf(y, th)[0].id == th.id
    ensures WorkOf(y, th)[0].Move? ==> th.Handler? && NoMove(WorkOf(y, th)[1..])
  {
    var ws := WorkOf(y, th);
    if th == Operator {
      assert ws[0] in ws;
    } else {
      assert Sound(ws, th.id, ClientOf(y.server, th.id).room);
    }
  }

  /** The connection a new admission is for. */
  lemma NewSlot(s: Server, w: Work, choice: Choice, x: ConnId, room: string)
    requires TicketsOk(s) && Legal(s, w, choice)
    requires HoldsSlot(Effect(s, w, choice), x, room) && !HoldsSlot(s, x, room)
    ensures var t := Effect(s, w, choice);
            t.admitted != s.admitted && AdmitsIn(w, choice) == multiset{room}
            && t.admitted != [] && t.admitted[|t.admitted| - 1] < |s.tickets| && x == s.tickets[t.admitted[|t.admitted| - 1]].client
  {
    hide Effect, QueueFrame, Legal;
    var t := Effect(s, w, choice);
    EffectClient(s, w, choice, x);
    assert Ticketed(s, x);
    if w.Line? {
      LineQueue(s, w.id, w.room, choice);
    } else {
      EffectQueue(s, w, choice);
      SlotFrame(s, t, w, choice, x, room);
    }
  }

  lemma SlotFrame(s: Server, t: Server, w: Work, choice: Choice, x: ConnId, room: string)
    requires TicketsOk(s) && QueueFrame(s, t, w, choice)
    requires HoldsSlot(t, x, room) && !HoldsSlot(s, x, room) && ClientOf(t, x).stage == ClientOf(s, x).stage
    ensures t.admitted != s.admitted && AdmitsIn(w, choice) == multiset{room}
    ensures t.admitted != [] && t.admitted[|t.admitted| - 1] < |s.tickets| && x == s.tickets[t.admitted[|t.admitted| - 1]].client
  {
    assert Ticketed(s, x);
    var r, e :| AdmitsIn(w, choice) == multiset{r} && e in Queue(s, r) && t.admitted == s.admitted + [e.ticket];
    assert QueuedTicket(s, r, e);
    assert ClientOf(s, x).stage.ticket == e.ticket;
  }

  /** The one connection that may newly hold a place after a section. */
  function Newcomer(s: Server, w: Work, choice: Choice): ConnId {
    var t := Effect(s, w, choice);
    if w.Check? || w.CheckSwitch? || w.CheckCreate? then w.id
    else if t.admitted != s.admitted && t.admitted != [] && t.admitted[|t.admitted| - 1] < |s.tickets|
    then s.tickets[t.admitted[|t.admitted| - 1]].client else 0
  }

  function Handed(s: Server, w: Work, choice: Choice, room: string): nat {
    Count(FastGrant(s, w), room) + if Effect(s, w, choice).admitted != s.admitted then Count(AdmitsIn(w, choice), room) else 0
  }

  lemma NewGrant(y: System, th: Thread, choice: Choice, now: Moment, room: string, x: ConnId)
    requires ScriptsOk(y) && TicketsOk(y.server) && WorkOf(y, th) != [] && Legal(y.server, WorkOf(y, th)[0], choice)
    requires Granted(Continued(y, th, choice, now), x, room)
    ensures var w := WorkOf(y, th)[0];
            x in y.server.conns && (Granted(y, x, room) || (Handed(y.server, w, choice, room) > 0 && x == Newcomer(y.server, w, choice)))
  {
    hide Effect, Next, Sound, Booked, NewlyOwn, NewlyMissed, NewlyAbsent, TicketsOk, FastGrant, Legal, AdmitsIn;
    var z, ws := Continued(y, th, choice, now), WorkOf(y, th);
    if Move(x, room) in WorkOf(z, Handler(x)) && Move(x, room) !in WorkOf(y, Handler(x)) {
      StepMoves(y, th, choice, now, x, room);
      assert x in y.server.conns by { hide *; HandlerConn(y, x); }
    } else if HoldsSlot(z.server, x, room) {
      if !HoldsSlot(y.server, x, room) { NewSlot(y.server, ws[0], choice, x, room); NewSlotAdmits(y.server, ws[0], choice); }
      KnownHolder(y, th, choice, x, room);
    } else {
      HandlerConn(y, x);
    }
  }

  lemma NewSlotAdmits(s: Server, w: Work, choice: Choice)
    ensures AdmitsIn(w, choice) != multiset{} ==> !w.Check? && !w.CheckSwitch? && !w.CheckCreate?
  {
  }

  lemma HandlerConn(y: System, x: ConnId)
    requires ScriptsOk(y)
    ensures WorkOf(y, Handler(x)) != [] ==> x in y.server.conns
  {
  }

  lemma KnownHolder(y: System, th: Thread, choice: Choice, x: ConnId, room: string)
    requires ScriptsOk(y) && WorkOf(y, th) != [] && HoldsSlot(Effect(y.server, WorkOf(y, th)[0], choice), x, room)
    ensures x in y.server.conns
  {
    hide Effect, ScriptsOk;
    EffectClient(y.server, WorkOf(y, th)[0], choice, x);
    if th == Handler(x) { HandlerConn(y, x); } else { ForeignMove(y, th, x); }
  }

  /** Places newly out come from a check that has passed or from the queue, each to one connection; a join uses one up. */
  lemma GrantsBooked(y: System, th: Thread, choice: Choice, now: Moment, room: string)
    requires ScriptsOk(y) && TicketsOk(y.server) && WorkOf(y, th) != [] && Legal(y.server, WorkOf(y, th)[0], choice)
    ensures var w := WorkOf(y, th)[0];
            |Grants(Continued(y, th, choice, now), room)| + (if w.Move? && w.room == room then 1 else 0)
            <= |Grants(y, room)| + Handed(y.server, w, choice, room)
  {
    hide Effect, ScriptsOk, TicketsOk, Legal, Continued, Granted, Handed, Newcomer;
    var z, w := Continued(y, th, choice, now), WorkOf(y, th)[0];
    forall x | x in Grants(z, room)
      ensures x in Grants(y, room) || (Handed(y.server, w, choice, room) > 0 && x == Newcomer(y.server, w, choice))
    {
      NewGrant(y, th, choice, now, room, x);
    }
    if w.Move? && w.room == room {
      JoinUsesGrant(y, th, choice, now);
      assert Grants(z, room) <= Grants(y, room) - {w.id};
      Subset(Grants(z, room), Grants(y, room) - {w.id});
    } else if Handed(y.server, w, choice, room) > 0 {
      Subset(Grants(z, room), Grants(y, room) + {Newcomer(y.server, w, choice)});
    } else {
      Subset(Grants(z, room), Grants(y, room));
    }
  }

  lemma Subset(a: set<ConnId>, b: set<ConnId>)
    requires a <= b
    ensures |a| <= |b|
  {
    if a != {} {
      var x :| x in a;
      Subset(a - {x}, b - {x});
    }
  }

  lemma JoinUsesGrant(y: System, th: Thread, choice: Choice, now: Moment)
    requires ScriptsOk(y) && WorkOf(y, th) != [] && WorkOf(y, th)[0].Move?
    ensures var w := WorkOf(y, th)[0];
            && w.id in Grants(y, w.room) && w.id !in Grants(Continued(y, th, choice, now), w.room)
            && Handed(y.server, w, choice, w.room) == 0
  {
    hide ScriptsOk, JoinRoom, Booked, NewlyOwn, NewlyMissed, NewlyAbsent;
    var w := WorkOf(y, th)[0];
    HeadKind(y, th);
    HandlerConn(y, w.id);
    NothingNext(y.server, w, choice, now);
    EffectClient(y.server, w, choice, w.id);
    assert w in WorkOf(y, th);
    assert WorkOf(Continued(y, th, choice, now), th) == [] + WorkOf(y, th)[1..];
  }

  // ---------- the ledger ----------

  /** Members, places out and departures not yet answered never exceed ten by more than the places handed out while
      another was still out and those handed out beyond the departures. */
  ghost predicate WithinCapacity(y: System, room: string) {
    |Members(y.server, room)| + |Grants(y, room)| + Count(y.ledger.owed, room)
    <= MAX_ACTIVE + Count(y.ledger.overlap, room) + Count(y.ledger.extra, room)
  }

  ghost predicate LedgerOk(y: System) {
    ScriptsOk(y) && TicketsOk(y.server) && forall room :: WithinCapacity(y, room)
  }

  lemma OverlapRoom(y: System, w: Work, room: string)
    ensures Count(Overlapping(y, w), room)
         == if Grants(y, room) != {} || Count(y.ledger.owed, room) > 0 then Count(FastGrant(y.server, w), room) else 0
  {
    hide Grants, HasCapacity;
  }

  lemma UnansweredRoom(y: System, w: Work, choice: Choice, room: string)
    ensures Count(Unanswered(y, w, choice), room)
         == if Count(y.ledger.owed, room) == 0 && Effect(y.server, w, choice).admitted != y.server.admitted
            then Count(AdmitsIn(w, choice), room) else 0
  {
    hide Effect;
    var admits := AdmitsIn(w, choice);
    var r := if w.Refill? then w.room else choice.room;
    assert admits == multiset{} || admits == multiset{r};
    assert (admits * y.ledger.owed)[r] == if admits[r] <= y.ledger.owed[r] then admits[r] else y.ledger.owed[r];
  }

  /** What one section adds to the books of one room. */
  lemma BookedRoom(y: System, w: Work, choice: Choice, room: string)
    ensures var l, b, s := y.ledger, Booked(y, w, choice), y.server;
            && Count(b.overlap, room) == Count(l.overlap, room)
               + (if Grants(y, room) != {} || Count(l.owed, room) > 0 then Count(FastGrant(s, w), room) else 0)
            && Count(b.extra, room) == Count(l.extra, room) + Count(Reenters(s, w), room)
               + (if Count(l.owed, room) == 0 && Effect(s, w, choice).admitted != s.admitted then Count(AdmitsIn(w, choice), room) else 0)
            && Count(b.owed, room) == (var n := Count(l.owed, room) + Count(Vacated(s, w), room) - Count(AdmitsIn(w, choice), room); if n < 0 then 0 else n)
  {
    hide Effect, Grants, FastGrant, Overlapping, Unanswered, Reenters, AdmitsIn, Vacated;
    OverlapRoom(y, w, room);
    UnansweredRoom(y, w, choice, room);
  }

  /** One section moves a member, a place or a departure around, or is booked as overlapping or extra. */
  lemma SectionWithin(y: System, th: Thread, choice: Choice, now: Moment, room: string)
    requires LedgerOk(y) && WorkOf(y, th) != [] && Legal(y.server, WorkOf(y, th)[0], choice)
    ensures WithinCapacity(Continued(y, th, choice, now), room)
  {
    hide Effect, Grants, FastGrant, Reenters, AdmitsIn, Vacated, ScriptsOk, TicketsOk, Legal, Booked, Members, Count, HasCapacity;
    var w, z := WorkOf(y, th)[0], Continued(y, th, choice, now);
    assert WithinCapacity(y, room);
    MembersBooked(y.server, w, choice, room);
    GrantsBooked(y, th, choice, now, room);
    BookedRoom(y, w, choice, room);
    BooksApart(y.server, w, choice, room);
  }

  /** A section never both books a departure and admits, and a check that passed saw a free place. */
  lemma BooksApart(s: Server, w: Work, choice: Choice, room: string)
    ensures Count(AdmitsIn(w, choice), room) == 0 || (Count(Vacated(s, w), room) == 0 && Count(Reenters(s, w), room) == 0 && !w.Move?)
    ensures Count(AdmitsIn(w, choice), room) <= 1
    ensures Count(FastGrant(s, w), room) <= 1
    ensures Count(FastGrant(s, w), room) > 0 ==> |Members(s, room)| < MAX_ACTIVE
    ensures Count(FastGrant(s, w), room) > 0 ==> !w.Move? && Count(Vacated(s, w), room) == 0 && Count(AdmitsIn(w, choice), room) == 0
                                                 && Count(Reenters(s, w), room) == 0
  {
  }

  lemma GivingUpMoves(s: Server, id: ConnId)
    ensures NoMove(GivingUp(s, id))
  {
  }

  /** Only an admitted connection starts with a join. */
  lemma StartMoves(s: Server, a: Action, now: Moment, x: ConnId, room: string)
    requires Move(x, room) in StartWork(s, a, now)
    ensures a.TakeSlot? && a.id == x && ClientOf(s, x).stage.Waiting? && ClientOf(s, x).stage.room == room
  {
    hide GivingUp, Messages.ValidName, Text.TrimSpace, Leaving;
    if StartsShared(a) {
      hide StartWork;
      StartShared(s, a, now);
    } else {
      match a
      case ChooseRoom(id, line) => GivingUpMoves(s, id);
      case Answer(id, line) => GivingUpMoves(s, id);
      case GiveUp(id) => GivingUpMoves(s, id);
      case Leave(id, drop) => LeavingMoves(SetReason(ClientOf(s, id), drop), id, now);
      case TakeSlot(id) =>
      case _ =>
    }
  }

  lemma LeavingMoves(c: Client, id: ConnId, now: Moment)
    ensures NoMove(Leaving(c, id, now))
  {
  }

  lemma StartGrants(y: System, a: Action, now: Moment, room: string, x: ConnId)
    requires ScriptsOk(y) && CanStart(y, a) && Granted(Started(y, a, now), x, room)
    ensures x in y.server.conns && Granted(y, x, room)
  {
    hide StartEffect, StartWork, Sound;
    var z := Started(y, a, now);
    StartRooms(y, a, now);
    StartClient(y, a, now, x);
    if Move(x, room) in WorkOf(z, Handler(x)) && Move(x, room) !in WorkOf(y, Handler(x)) {
      assert Move(x, room) in StartWork(y.server, a, now);
      StartMoves(y.server, a, now, x, room);
    }
    HandlerConn(y, x);
  }

  lemma StartWithin(y: System, a: Action, now: Moment, room: string)
    requires LedgerOk(y) && CanStart(y, a)
    ensures WithinCapacity(Started(y, a, now), room)
  {
    hide StartEffect, StartWork, ScriptsOk, TicketsOk, CanStart, Members, Granted;
    var z := Started(y, a, now);
    assert WithinCapacity(y, room);
    StartRooms(y, a, now);
    forall id | id in Grants(z, room) ensures id in Grants(y, room) { StartGrants(y, a, now, room, id); }
    Subset(Grants(z, room), Grants(y, room));
  }

  lemma StartTickets(y: System, a: Action, now: Moment)
    requires TicketsOk(y.server) && CanStart(y, a)
    ensures TicketsOk(StartEffect(y.server, a, now))
  {
    hide StartEffect;
    var s, t := y.server, StartEffect(y.server, a, now);
    StartRooms(y, a, now);
    forall id ensures Ticketed(t, id) {
      assert Ticketed(s, id);
      StartClient(y, a, now, id);
    }
    forall room, e | e in Queue(t, room) ensures QueuedTicket(t, room, e) { assert e in Queue(s, room) && QueuedTicket(s, room, e); }
  }

  lemma TickLedger(y: System, tick: Tick)
    requires LedgerOk(y) && Can(y, tick)
    ensures LedgerOk(TickOf(y, tick))
  {
    hide ScriptsOk, TicketsOk, WithinCapacity, CanStart, Legal, StartEffect, StartWork, Effect;
    TickScripts(y, tick);
    var z := TickOf(y, tick);
    forall room ensures WithinCapacity(z, room) {
      match tick
      case Begin(a, now) => StartWithin(y, a, now, room);
      case Continue(th, choice, now) => SectionWithin(y, th, choice, now, room);
    }
    match tick
    case Begin(a, now) => StartTickets(y, a, now);
    case Continue(th, choice, now) => EffectTickets(y.server, WorkOf(y, th)[0], choice);
  }

  lemma FreshLedger(admins: set<string>)
    ensures LedgerOk(FreshSystem(admins))
  {
    var y := FreshSystem(admins);
    FreshScripts(admins);
    forall room ensures WithinCapacity(y, room) { assert Grants(y, room) == {}; }
  }

  /** The capacity ledger, over every interleaving of sections. */
  lemma {:induction false} LedgerHolds(y: System, trace: Trace)
    requires LedgerOk(y) && Feasible(y, trace)
    ensures LedgerOk(AfterTrace(y, trace))
    decreases |trace|
  {
    hide LedgerOk, Can, TickOf;
    if trace != [] {
      TickLedger(y, trace[0]);
      LedgerHolds(TickOf(y, trace[0]), trace[1..]);
    }
  }

  /** A room holds at most ten members, plus the places that overlapped, plus those beyond the departures. */
  lemma RoomSizeBound(admins: set<string>, trace: Trace, room: string)
    requires Feasible(FreshSystem(admins), trace)
    ensures var y := AfterTrace(FreshSystem(admins), trace);
            |Members(y.server, room)| <= MAX_ACTIVE + Count(y.ledger.overlap, room) + Count(y.ledger.extra, room)
  {
    hide Feasible, ScriptsOk, TicketsOk;
    FreshLedger(admins);
    LedgerHolds(FreshSystem(admins), trace);
    assert WithinCapacity(AfterTrace(FreshSystem(admins), trace), room);
  }
}
