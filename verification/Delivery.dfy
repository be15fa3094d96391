/** No chat is lost, whatever sections interleave: the sender records and then broadcasts, the newcomer joins and then
    copies the history (server/commands.go, handler.go, room.go). */
module Delivery {
  import opened Messages
  import opened ServerState
  import opened Commands
  import opened Ownership
  import opened Sections
  import opened Grounds
  import opened Scripts
  import opened Capacity
  import opened Bans

  /** Joined to the room, with the room's history already sent; whether it still is in the room's index or not. */
  ghost predicate Attached(y: System, id: ConnId, room: string) {
    room != "" && ClientOf(y.server, id).room == room && !Owes(WorkOf(y, Handler(id)))
  }

  predicate TellOf(w: Work, room: string, e: Event) { w.Tell? && w.room == room && w.e == e }

  /** The broadcast of a recorded event is still to come. */
  ghost predicate TellPending(y: System, room: string, e: Event) {
    exists th, w :: w in WorkOf(y, th) && TellOf(w, room, e)
  }

  ghost predicate Reached(y: System, id: ConnId, e: Event) {
    (id, e) in y.server.heard || (id, e) in y.own || (id, e) in y.missed || (id, e) in y.absent
  }

  ghost predicate Delivers(y: System, id: ConnId, room: string, e: Event) {
    Attached(y, id, room) && e in History(y.server, room) && e.msg.kind.Chat? ==> Reached(y, id, e) || TellPending(y, room, e)
  }

  /** Broadcasts a handler still has to make are of events it posted itself. */
  ghost predicate OwnTells(y: System, id: ConnId) {
    forall w <- WorkOf(y, Handler(id)) :: w.Tell? ==> (id, w.e) in y.own
  }

  ghost predicate DeliveryOk(y: System) {
    && ScriptsOk(y)
    && (forall id :: OwnTells(y, id))
    && (forall id, room, e :: Delivers(y, id, room, e))
    && (y.missed + y.absent) !! y.server.heard
  }

  // ---------- histories ----------

  lemma EffectHistory(s: Server, w: Work, choice: Choice, room: string, e: Event)
    requires e in History(Effect(s, w, choice), room)
    ensures e in History(s, room) || ((w.Post? || w.Jot?) && w.room == room && e == EventOf(s, room, w.m))
  {
    hide Effect, Record, EventOf;
    if w.Post? || w.Jot? {
      assert Effect(s, w, choice) == Record(s, w.room, w.m) by { Recorded(s, w, choice); }
      RecordHistory(s, w.room, w.m, room);
    } else {
      HistoryOnly(s, w, choice, room);
    }
  }

  lemma Recorded(s: Server, w: Work, choice: Choice)
    requires w.Post? || w.Jot?
    ensures Effect(s, w, choice) == Record(s, w.room, w.m)
  {
  }

  lemma HistoryOnly(s: Server, w: Work, choice: Choice, room: string)
    requires !w.Post? && !w.Jot?
    ensures History(Effect(s, w, choice), room) == History(s, room) || History(Effect(s, w, choice), room) == []
  {
    hide Effect, DeleteRoomIfEmpty, History;
    if w.Tidy? { TidyEffect(s, w.room, choice); TidyHistory(s, w.room, room); } else { HistoryKept(s, w, choice, room); }
  }

  lemma TidyEffect(s: Server, room: string, choice: Choice)
    ensures Effect(s, Tidy(room), choice) == DeleteRoomIfEmpty(s, room)
  {
  }

  /** Only recording and deleting a room touch a history. */
  lemma HistoryKept(s: Server, w: Work, choice: Choice, room: string)
    requires !w.Post? && !w.Jot? && !w.Tidy?
    ensures History(Effect(s, w, choice), room) == History(s, room)
  {
    hide JoinRoom, RemoveClient, RenameClient, Admit, RemoveFromQueue, Purge, Enqueue, History;
    var t := Effect(s, w, choice);
    if t.rooms == s.rooms { SameHistory(s, t, room); }
    else if w.Line? { EnqueueHistory(s, w.id, w.room, room); SameHistory(Enqueue(s, w.id, w.room), t, room); }
    else if w.Move? { JoinHistory(s, w.id, w.room, room); SameHistory(JoinRoom(s, w.id, w.room), t, room); }
    else if w.Unregister? { RemoveHistory(s, w.name, room); }
    else if w.Rekey? { RekeyHistory(s, w.id, w.name, room); }
    else if w.Refill? { AdmitHistory(s, w.room, room); }
    else if w.RefillAny? { AdmitHistory(s, choice.room, room); }
    else if w.Dequeue? { DequeueHistory(s, w.room, w.ticket, room); }
    else { PurgeHistory(s, w.host, choice.visit, room); }
  }

  lemma SameHistory(s: Server, t: Server, room: string)
    requires t.rooms == s.rooms
    ensures History(t, room) == History(s, room)
  {
  }

  lemma EnqueueHistory(s: Server, id: ConnId, r: string, room: string)
    ensures History(Enqueue(s, id, r), room) == History(s, room)
  {
  }

  lemma JoinHistory(s: Server, id: ConnId, r: string, room: string)
    ensures History(JoinRoom(s, id, r), room) == History(s, room)
  {
  }

  lemma RecordHistory(s: Server, r: string, m: Message, room: string)
    ensures History(Record(s, r, m), room) == History(s, room) + if r == room then [EventOf(s, r, m)] else []
  {
  }

  lemma RemoveHistory(s: Server, name: string, room: string)
    ensures History(RemoveClient(s, name), room) == History(s, room)
  {
  }

  lemma RekeyHistory(s: Server, id: ConnId, name: string, room: string)
    ensures History(RenameClient(s, id, ClientOf(s, id).username, name).0, room) == History(s, room)
  {
  }

  lemma AdmitHistory(s: Server, r: string, room: string)
    ensures History(Admit(s, r), room) == History(s, room)
  {
  }

  lemma TidyHistory(s: Server, r: string, room: string)
    ensures History(DeleteRoomIfEmpty(s, r), room) == History(s, room) || History(DeleteRoomIfEmpty(s, r), room) == []
  {
  }

  lemma DequeueHistory(s: Server, r: string, ticket: nat, room: string)
    ensures History(RemoveFromQueue(s, r, ticket), room) == History(s, room)
  {
  }

  lemma {:induction false} PurgeHistory(s: Server, host: string, visit: seq<string>, room: string)
    ensures History(Purge(s, host, visit).0, room) == History(s, room)
  {
    hide Kept, Dropped, Renumber;
    if visit != [] {
      PurgeHistory(s, host, visit[..|visit| - 1], room);
      PurgeStep(s, host, visit);
    }
  }

  lemma StartHistory(y: System, a: Action, now: Moment, room: string)
    requires CanStart(y, a)
    ensures var t := StartEffect(y.server, a, now);
            && (History(t, room) == History(y.server, room) || History(t, room) == [])
            && t.heard == y.server.heard
  {
    hide StartEffect, History;
    var s, t := y.server, StartEffect(y.server, a, now);
    if a.Midnight? {
      assert t == ClearHistory(s) by { MidnightStart(s, now); }
      Cleared(s, room);
    } else {
      NamingStart(y, a);
      hide CanStart;
      StartSameRooms(s, a, now);
      SameHistory(s, t, room);
      StartHeard(s, a, now);
    }
  }

  lemma Cleared(s: Server, room: string)
    ensures History(ClearHistory(s), room) == [] && ClearHistory(s).heard == s.heard
  {
  }

  lemma StartHeard(s: Server, a: Action, now: Moment)
    requires !a.Midnight? && (a.EnterName? ==> ClientOf(s, a.id).stage.Naming?)
    ensures StartEffect(s, a, now).heard == s.heard
  {
    hide AcceptConnection, SubmitName, AnswerStep, ClearHistory, Text.TrimSpace, SetReason;
    if a.Connect? { HeardAlone(s, a.id, a.host, now); }
    if a.EnterName? { NameEntered(s, a.id, a.name); }
    if a.Answer? { HeardAlone(s, a.id, a.line, now); }
  }

  lemma HeardAlone(s: Server, id: ConnId, text: string, now: Moment)
    ensures AcceptConnection(s, id, text, now).heard == s.heard
    ensures Text.TrimSpace(text) == "yes" ==> AnswerStep(s, id, text).heard == s.heard
  {
    hide Text.TrimSpace;
  }

  // ---------- attached connections ----------

  lemma EffectHeard(s: Server, w: Work, choice: Choice)
    ensures s.heard <= Effect(s, w, choice).heard
  {
    hide Renumber, Purge, ClosedAhead;
    if w.Sweep? { PurgeHeard(s, w.host, choice.visit); }
  }

  lemma {:induction false} PurgeHeard(s: Server, host: string, visit: seq<string>)
    ensures Purge(s, host, visit).0.heard == s.heard
  {
    hide Kept, Dropped, Renumber;
    if visit != [] {
      PurgeHeard(s, host, visit[..|visit| - 1]);
      PurgeStep(s, host, visit);
    }
  }

  lemma OwesBefore(y: System, id: ConnId, choice: Choice, now: Moment)
    requires ScriptsOk(y) && WorkOf(y, Handler(id)) != []
    ensures var ws := WorkOf(y, Handler(id));
            var w := ws[0];
            && Sound(ws, id, ClientOf(y.server, id).room)
            && (w.Move? ==> Owes(Next(y.server, w, choice, now) + ws[1..]))
            && (w.Snapshot? ==> w == Snapshot(id, ClientOf(y.server, id).room))
            && (!w.Move? && !w.Snapshot? ==> Owes(ws) ==> Owes(Next(y.server, w, choice, now) + ws[1..]))
  {
    hide Next, AllShared;
    var ws := WorkOf(y, Handler(id));
    var w, rest, room := ws[0], ws[1..], ClientOf(y.server, id).room;
    assert Sound(ws, id, room);
    if Shared(w) {
      NextShared(y.server, w, choice, now);
      SharedPrefix(Next(y.server, w, choice, now), rest, id, room);
    } else if w.Move? {
      NothingNext(y.server, w, choice, now);
      assert [] + rest == rest;
    } else if !w.Snapshot? {
      assert rest == [] && !Owes(rest);
    }
  }

  /** A connection that is attached was attached before, unless its history has just been sent. */
  lemma AttachedBefore(y: System, th: Thread, choice: Choice, now: Moment, id: ConnId, room: string)
    requires ScriptsOk(y) && WorkOf(y, th) != [] && Attached(Continued(y, th, choice, now), id, room)
    ensures Attached(y, id, room) || WorkOf(y, th)[0] == Snapshot(id, room)
  {
    hide ScriptsOk, Effect, Next, Booked, NewlyOwn, NewlyMissed, NewlyAbsent, Sound, Owes;
    var w := WorkOf(y, th)[0];
    EffectClient(y.server, w, choice, id);
    HeadKind(y, th);
    if th == Handler(id) { OwesBefore(y, id, choice, now); } else { ForeignMove(y, th, id); }
  }

  lemma RefusedRekey(s: Server, w: Work, choice: Choice)
    requires w.Rekey? && !CanRekey(s, w.name)
    ensures Effect(s, w, choice) == s
  {
  }

  // ---------- the broadcast ----------

  /** A broadcast reaches every attached connection in the room's index that is not excluded by name. */
  lemma ToldReaches(y: System, th: Thread, choice: Choice, now: Moment, id: ConnId, room: string, e: Event)
    requires WorkOf(y, th) != [] && TellOf(WorkOf(y, th)[0], room, e)
    requires Attached(y, id, room) && (th == Handler(id) ==> OwnTells(y, id))
    ensures Reached(Continued(y, th, choice, now), id, e)
  {
    hide Owes, Booked, Next;
    var w := WorkOf(y, th)[0];
    var s := y.server;
    if th == Handler(id) {
      assert w in WorkOf(y, th);
    } else if id in Receivers(s, room, w.exclude) {
      assert (id, e) in Effect(s, w, choice).heard;
    } else if id in Members(s, room).Values {
      var name :| name in Members(s, room) && Members(s, room)[name] == id;
      assert name == w.exclude;
    } else {
      assert (id, e) in NewlyAbsent(s, th, w);
    }
  }

  lemma PendingAfter(y: System, th: Thread, choice: Choice, now: Moment, room: string, e: Event)
    requires WorkOf(y, th) != [] && TellPending(y, room, e) && !TellOf(WorkOf(y, th)[0], room, e)
    ensures TellPending(Continued(y, th, choice, now), room, e)
  {
    hide Effect, Booked, Next, NewlyOwn, NewlyMissed, NewlyAbsent;
    var z, ws := Continued(y, th, choice, now), WorkOf(y, th);
    var th', w :| w in WorkOf(y, th') && TellOf(w, room, e);
    if th' == th {
      assert w in ws[1..];
      assert w in WorkOf(z, th);
    } else {
      assert WorkOf(z, th') == WorkOf(y, th');
    }
  }

  lemma PostedPending(y: System, th: Thread, choice: Choice, now: Moment)
    requires WorkOf(y, th) != [] && WorkOf(y, th)[0].Post?
    ensures var w := WorkOf(y, th)[0];
            TellPending(Continued(y, th, choice, now), w.room, EventOf(y.server, w.room, w.m))
  {
    hide Effect, Booked, NewlyOwn, NewlyMissed, NewlyAbsent;
    var w := WorkOf(y, th)[0];
    var tell := Tell(w.room, EventOf(y.server, w.room, w.m), w.exclude);
    assert tell in WorkOf(Continued(y, th, choice, now), th) && TellOf(tell, w.room, tell.e);
  }

  lemma JotsAreNotChats(y: System, th: Thread)
    requires ScriptsOk(y) && WorkOf(y, th) != [] && WorkOf(y, th)[0].Jot?
    ensures !WorkOf(y, th)[0].m.kind.Chat?
  {
    HeadKind(y, th);
  }

  lemma ContinueDelivers(y: System, th: Thread, choice: Choice, now: Moment, id: ConnId, room: string, e: Event)
    requires DeliveryOk(y) && WorkOf(y, th) != []
    ensures Delivers(Continued(y, th, choice, now), id, room, e)
  {
    hide ScriptsOk, Effect, Next, Booked, NewlyOwn, NewlyMissed, NewlyAbsent, Attached, TellPending, OwnTells, Reached;
    var z, w := Continued(y, th, choice, now), WorkOf(y, th)[0];
    if Attached(z, id, room) && e in History(z.server, room) && e.msg.kind.Chat? {
      EffectHistory(y.server, w, choice, room, e);
      AttachedBefore(y, th, choice, now, id, room);
      if e !in History(y.server, room) {
        if w.Jot? { JotsAreNotChats(y, th); } else { PostedPending(y, th, choice, now); }
      } else if w == Snapshot(id, room) {
        SnapshotReaches(y, th, choice, now, id, room, e);
      } else {
        assert Delivers(y, id, room, e) && OwnTells(y, id);
        if Reached(y, id, e) {
          StillReached(y, th, choice, now, id, e);
        } else if TellOf(w, room, e) {
          ToldReaches(y, th, choice, now, id, room, e);
        } else {
          PendingAfter(y, th, choice, now, room, e);
        }
      }
    }
  }

  lemma SnapshotReaches(y: System, th: Thread, choice: Choice, now: Moment, id: ConnId, room: string, e: Event)
    requires WorkOf(y, th) != [] && WorkOf(y, th)[0] == Snapshot(id, room) && e in History(y.server, room)
    ensures Reached(Continued(y, th, choice, now), id, e)
  {
    hide Booked, Next;
  }

  lemma StillReached(y: System, th: Thread, choice: Choice, now: Moment, id: ConnId, e: Event)
    requires WorkOf(y, th) != [] && Reached(y, id, e)
    ensures Reached(Continued(y, th, choice, now), id, e)
  {
    hide Booked, Next, Effect;
    EffectHeard(y.server, WorkOf(y, th)[0], choice);
  }

  lemma StartDelivers(y: System, a: Action, now: Moment, id: ConnId, room: string, e: Event)
    requires DeliveryOk(y) && CanStart(y, a)
    ensures Delivers(Started(y, a, now), id, room, e)
  {
    hide ScriptsOk, StartEffect, StartWork, OwnTells, CanStart, Attached, TellPending, History, Members;
    var z := Started(y, a, now);
    StartHistory(y, a, now, room);
    StartRooms(y, a, now);
    if Attached(z, id, room) && e in History(z.server, room) && e.msg.kind.Chat? {
      StartAttached(y, a, now, id, room);
      assert Delivers(y, id, room, e);
      if !Reached(y, id, e) { StartPending(y, a, now, room, e); }
    }
  }

  lemma StartPending(y: System, a: Action, now: Moment, room: string, e: Event)
    requires CanStart(y, a) && TellPending(y, room, e)
    ensures TellPending(Started(y, a, now), room, e)
  {
    hide StartEffect, StartWork;
    var th, w :| w in WorkOf(y, th) && TellOf(w, room, e);
    assert w in WorkOf(Started(y, a, now), th);
  }

  lemma StartAttached(y: System, a: Action, now: Moment, id: ConnId, room: string)
    requires CanStart(y, a) && Attached(Started(y, a, now), id, room)
    ensures Attached(y, id, room)
  {
    hide StartEffect, StartWork, Members, Owes;
    StartRooms(y, a, now);
    StartClient(y, a, now, id);
    if !Ambient(a) && ThreadOf(a) == Handler(id) {
      assert !Owes(WorkOf(y, Handler(id))) by { NothingOwed(); }
    }
  }

  lemma NothingOwed()
    ensures !Owes([])
  {
  }

  // ---------- the other parts of the invariant ----------

  lemma {:induction false} JotsTell(rooms: seq<string>, m: Message)
    ensures forall w <- Jots(rooms, m) :: !w.Tell?
  {
    if rooms != [] { JotsTell(rooms[..|rooms| - 1], m); }
  }

  lemma StartTells(s: Server, a: Action, now: Moment)
    ensures forall w <- StartWork(s, a, now) :: !w.Tell?
  {
    hide Text.TrimSpace, Messages.ValidName, Text.ByteLen, Kicking, Banning, ClientOf;
    match a
    case Announce(id, args, names) => JotsTell(names, Note(now, Announcement, "", args, ClientOf(s, id).username));
    case OperatorAnnounce(args, names) => JotsTell(names, Note(now, Announcement, "", args, "Server"));
    case Kick(id, args) => ModerationTells(s, args, ClientOf(s, id).username, ClientOf(s, id).username, now);
    case Ban(id, args, _) => ModerationTells(s, args, ClientOf(s, id).username, ClientOf(s, id).username, now);
    case OperatorKick(args, _) => ModerationTells(s, args, "Server", "", now);
    case OperatorBan(args, _) => ModerationTells(s, args, "Server", "", now);
    case _ =>
  }

  lemma ModerationTells(s: Server, name: string, issuer: string, exclude: string, now: Moment)
    ensures name in s.clients ==> (forall w <- Kicking(s, name, issuer, now) :: !w.Tell?) && (forall w <- Banning(s, name, issuer, exclude, now) :: !w.Tell?)
  {
  }

  lemma StartOwnTells(y: System, a: Action, now: Moment, id: ConnId)
    requires OwnTells(y, id)
    ensures OwnTells(Started(y, a, now), id)
  {
    hide StartWork, StartEffect;
    StartTells(y.server, a, now);
  }

  lemma {:induction false} ShutsTell(ids: seq<ConnId>)
    ensures forall w <- Shuts(ids) :: !w.Tell?
  {
    if ids != [] { ShutsTell(ids[..|ids| - 1]); }
  }

  lemma NextTells(s: Server, w: Work, choice: Choice, now: Moment)
    requires SelfWork(w) || Shared(w)
    ensures forall v <- Next(s, w, choice, now) :: v.Tell? ==> w.Post? && v == Tell(w.room, EventOf(s, w.room, w.m), w.exclude)
  {
    hide HasCapacity, Purge, Shuts, EventOf;
    if w.Sweep? { ShutsTell(Purge(s, w.host, choice.visit).1); }
  }

  lemma ContinueOwnTells(y: System, th: Thread, choice: Choice, now: Moment, id: ConnId)
    requires ScriptsOk(y) && WorkOf(y, th) != [] && OwnTells(y, id)
    ensures OwnTells(Continued(y, th, choice, now), id)
  {
    hide ScriptsOk, Effect, Next, Booked, NewlyMissed, NewlyAbsent;
    var z, ws := Continued(y, th, choice, now), WorkOf(y, th);
    HeadKind(y, th);
    NextTells(y.server, ws[0], choice, now);
    forall w | w in WorkOf(z, Handler(id)) && w.Tell? ensures (id, w.e) in z.own {
      if th == Handler(id) && w !in ws {
        assert w in Next(y.server, ws[0], choice, now);
      }
    }
  }

  /** Nobody is left out of an event it has been sent. */
  lemma TickApart(y: System, tick: Tick)
    requires (y.missed + y.absent) !! y.server.heard && Can(y, tick)
    ensures var z := TickOf(y, tick); (z.missed + z.absent) !! z.server.heard
  {
    hide StartEffect, StartWork, CanStart, Legal, Effect, Next, Booked, NewlyOwn;
    match tick
    case Begin(a, now) => StartHistory(y, a, now, "");
    case Continue(_, _, _) =>
  }

  lemma TickDelivery(y: System, tick: Tick)
    requires DeliveryOk(y) && Can(y, tick)
    ensures DeliveryOk(TickOf(y, tick))
  {
    hide ScriptsOk, OwnTells, Delivers, Started, Continued, CanStart, Legal;
    TickScripts(y, tick);
    TickApart(y, tick);
    var z := TickOf(y, tick);
    forall id ensures OwnTells(z, id) {
      match tick
      case Begin(a, now) => StartOwnTells(y, a, now, id);
      case Continue(th, choice, now) => ContinueOwnTells(y, th, choice, now, id);
    }
    forall id, room, e ensures Delivers(z, id, room, e) {
      match tick
      case Begin(a, now) => StartDelivers(y, a, now, id, room, e);
      case Continue(th, choice, now) => ContinueDelivers(y, th, choice, now, id, room, e);
    }
  }

  lemma FreshDelivery(admins: set<string>)
    ensures DeliveryOk(FreshSystem(admins))
  {
    FreshScripts(admins);
  }

  lemma {:induction false} DeliveryHolds(y: System, trace: Trace)
    requires DeliveryOk(y) && Feasible(y, trace)
    ensures DeliveryOk(AfterTrace(y, trace))
    decreases |trace|
  {
    hide DeliveryOk, Can, TickOf;
    if trace != [] {
      TickDelivery(y, trace[0]);
      DeliveryHolds(TickOf(y, trace[0]), trace[1..]);
    }
  }

  /** The connection wrote the event somewhere in the trace. */
  ghost predicate Wrote(y: System, trace: Trace, id: ConnId, e: Event)
    decreases |trace|
  {
    trace != [] &&
    ((trace[0].Continue? && trace[0].th == Handler(id) && WorkOf(y, Handler(id)) != []
      && var w := WorkOf(y, Handler(id))[0]; w.Post? && e == EventOf(y.server, w.room, w.m))
     || Wrote(TickOf(y, trace[0]), trace[1..], id, e))
  }

  /** At the event's broadcast somewhere in the trace, the connection either bore the excluded name in the room or was in
      the room's index under no name. */
  ghost predicate LeftOut(y: System, trace: Trace, id: ConnId, e: Event)
    decreases |trace|
  {
    trace != [] && (SkippedNow(y, trace[0], id, e) || LeftOut(TickOf(y, trace[0]), trace[1..], id, e))
  }

  ghost predicate SkippedNow(y: System, tick: Tick, id: ConnId, e: Event) {
    && tick.Continue? && WorkOf(y, tick.th) != [] && tick.th != Handler(id)
    && var w, s := WorkOf(y, tick.th)[0], y.server;
       && w.Tell? && w.e == e
       && ((w.exclude in Members(s, w.room) && Members(s, w.room)[w.exclude] == id)
           || (ClientOf(s, id).room == w.room && id !in Members(s, w.room).Values))
  }

  lemma {:induction false} ObservedInTrace(y: System, trace: Trace, id: ConnId, e: Event)
    requires Feasible(y, trace)
    ensures (id, e) in AfterTrace(y, trace).own ==> (id, e) in y.own || Wrote(y, trace, id, e)
    ensures (id, e) in AfterTrace(y, trace).missed + AfterTrace(y, trace).absent ==> (id, e) in y.missed + y.absent || LeftOut(y, trace, id, e)
    decreases |trace|
  {
    hide Can, SkippedNow, TickOf;
    if trace != [] {
      ObservedInTrace(TickOf(y, trace[0]), trace[1..], id, e);
      ObservedNow(y, trace[0], id, e);
    }
  }

  lemma ObservedNow(y: System, tick: Tick, id: ConnId, e: Event)
    ensures var z := TickOf(y, tick);
            && ((id, e) in z.missed + z.absent ==> (id, e) in y.missed + y.absent || SkippedNow(y, tick, id, e))
            && ((id, e) in z.own ==> (id, e) in y.own || Wrote(y, [tick], id, e))
  {
    hide Effect, Next, Booked, StartEffect, StartWork;
    assert [tick][0] == tick;
  }

  /** Over every interleaving: a connection that has joined a room and been sent its history has been sent each chat now in
      that history whose broadcast is done, unless it wrote it, or at the broadcast bore the writer's name in the room, or
      was out of the room's index. */
  lemma NoChatIsLost(admins: set<string>, trace: Trace, id: ConnId, room: string, e: Event)
    requires Feasible(FreshSystem(admins), trace)
    requires var y := AfterTrace(FreshSystem(admins), trace);
             Attached(y, id, room) && e in History(y.server, room) && e.msg.kind.Chat? && !TellPending(y, room, e)
    ensures var begin, y := FreshSystem(admins), AfterTrace(FreshSystem(admins), trace);
            && ((id, e) in y.server.heard || Wrote(begin, trace, id, e) || LeftOut(begin, trace, id, e))
            && ((id, e) !in y.own ==> ((id, e) in y.server.heard <==> (id, e) !in y.missed && (id, e) !in y.absent))
  {
    hide Feasible, ScriptsOk, Attached, TellPending, Wrote, LeftOut;
    FreshDelivery(admins);
    DeliveryHolds(FreshSystem(admins), trace);
    assert Delivers(AfterTrace(FreshSystem(admins), trace), id, room, e);
    ObservedInTrace(FreshSystem(admins), trace, id, e);
  }
}
