/** The queue invariant over whole runs; no condition on moderation is needed. */
module QueueRuns {
  import opened Text
  import opened Messages
  import opened ServerState
  import opened Commands
  import opened Ownership
  import opened OwnershipRuns
  import opened Queues

  // ---------- sections that leave queues alone ----------

  /** Everything about queues except the stages of connections. */
  ghost predicate SameData(s: Server, t: Server) {
    && t.tickets == s.tickets && t.admitted == s.admitted && t.position == s.position
    && (forall room :: Queue(t, room) == Queue(s, room))
  }

  lemma SameDataTrans(s: Server, t: Server, u: Server)
    requires SameData(s, t) && SameData(t, u)
    ensures SameData(s, u)
  {
  }

  lemma SameDataSelf(s: Server)
    ensures SameData(s, s)
  {
  }

  lemma PublishData(s: Server, room: string, m: Message, exclude: string)
    ensures SameData(s, Publish(s, room, m, exclude)) && Publish(s, room, m, exclude).conns == s.conns
  {
  }

  lemma JoinData(s: Server, id: ConnId, room: string)
    ensures SameData(s, JoinRoom(s, id, room))
  {
  }

  lemma RemoveClientData(s: Server, name: string)
    ensures SameData(s, RemoveClient(s, name))
  {
  }

  lemma DeleteData(s: Server, room: string)
    ensures SameData(s, DeleteRoomIfEmpty(s, room))
  {
    assert forall r :: Queue(DeleteRoomIfEmpty(s, room), r) == Queue(s, r);
  }

  lemma RenameData(s: Server, id: ConnId, oldName: string, newName: string)
    ensures SameData(s, RenameClient(s, id, oldName, newName).0)
  {
    hide Reserved;
    assert forall r :: Queue(s.(rooms := Without(s.rooms, ClientOf(s, id).room, oldName)), r) == Queue(s, r);
    assert forall r :: Queue(RenameClient(s, id, oldName, newName).0, r) == Queue(s, r);
  }

  lemma RecordData(s: Server, room: string, m: Message)
    ensures SameData(s, Record(s, room, m)) && Record(s, room, m).conns == s.conns
  {
  }

  /** Queue data and stages together. */
  lemma DataAndStages(s: Server, t: Server)
    requires QueuesOk(s) && SameData(s, t)
    requires forall id :: ClientOf(s, id).stage.Asked? || ClientOf(s, id).stage.Waiting? ==> ClientOf(t, id).stage == ClientOf(s, id).stage
    ensures QueuesOk(t)
  {
    hide QueuesOk;
    SameQueuesOk(s, t);
  }

  /** One connection that is in no queue changes. */
  lemma DataAndOne(s: Server, t: Server, id: ConnId)
    requires QueuesOk(s) && SameData(s, t) && t.conns == s.conns[id := ClientOf(t, id)]
    requires NotQueued(s, id)
    ensures QueuesOk(t)
  {
    hide QueuesOk;
    assert forall x :: x != id ==> ClientOf(t, x) == ClientOf(s, x);
    UnqueuedChange(s, t, id);
  }

  ghost predicate NotQueued(s: Server, id: ConnId) {
    forall room, e :: e in Queue(s, room) ==> e.client != id
  }

  lemma StageNotQueued(s: Server, id: ConnId)
    requires QueuesOk(s) && !ClientOf(s, id).stage.Asked? && !ClientOf(s, id).stage.Waiting?
    ensures NotQueued(s, id)
  {
    hide QueuesOk;
    forall room, e | e in Queue(s, room) ensures e.client != id { QueuedEntry(s, room, e); }
  }

  /** A connection whose ticket was admitted is in no queue. */
  lemma AdmittedNotQueued(s: Server, id: ConnId)
    requires QueuesOk(s) && ClientOf(s, id).stage.Waiting? && ClientOf(s, id).stage.ticket in s.admitted
    ensures NotQueued(s, id)
  {
    hide QueuesOk;
    forall room, e | e in Queue(s, room) ensures e.client != id {
      QueuedEntry(s, room, e);
      AdmittedIsNotQueued(s, room, e);
    }
  }

  // ---------- composite steps ----------

  lemma EnterRoomOk(s: Server, id: ConnId, room: string, now: Moment)
    requires QueuesOk(s) && NotQueued(s, id)
    ensures QueuesOk(EnterRoom(s, id, room, now))
  {
    hide QueuesOk, Publish, JoinRoom, NotQueued, SameData;
    var joined := JoinRoom(s, id, room);
    var c := ClientOf(joined, id);
    var settled := WithClient(SendHistory(joined, id, room), id, c.(stage := Active));
    var m := Note(now, Kind.Join, c.username, "", "");
    JoinData(s, id, room);
    HeardData(joined, SendHistory(joined, id, room), id, c.(stage := Active));
    PublishData(settled, room, m, c.username);
    SameDataTrans(s, joined, settled);
    SameDataTrans(s, settled, EnterRoom(s, id, room, now));
    EnteredOne(s, id, room);
    DataAndOne(s, EnterRoom(s, id, room, now), id);
  }

  lemma EnteredOne(s: Server, id: ConnId, room: string)
    ensures JoinRoom(s, id, room).conns == s.conns[id := ClientOf(s, id).(room := room)]
  {
  }

  lemma HeardData(s: Server, t: Server, id: ConnId, c: Client)
    requires t == s.(heard := t.heard)
    ensures SameData(s, WithClient(t, id, c)) && WithClient(t, id, c).conns == s.conns[id := c]
  {
  }

  lemma FinishOk(s: Server, id: ConnId)
    requires QueuesOk(s) && NotQueued(s, id)
    ensures QueuesOk(FinishPending(s, id))
  {
    hide QueuesOk, RemoveClient, NotQueued;
    var t := RemoveClient(s, ClientOf(s, id).username);
    RemoveClientData(s, ClientOf(s, id).username);
    assert t.conns == s.conns by { RemovedConns(s, ClientOf(s, id).username); }
    DataAndOne(s, FinishPending(s, id), id);
  }

  lemma RemovedConns(s: Server, name: string)
    ensures RemoveClient(s, name).conns == s.conns
  {
  }

  lemma ExitQueueOk(s: Server, id: ConnId)
    requires QueuesOk(s) && (ClientOf(s, id).stage.Asked? || ClientOf(s, id).stage.Waiting?)
    ensures var stage := ClientOf(s, id).stage; QueuesOk(FinishPending(RemoveFromQueue(s, stage.room, stage.ticket), id))
  {
    hide QueuesOk, FinishPending, WithoutTicket, Renumber, AdmittedFor;
    var room, ticket := ClientOf(s, id).stage.room, ClientOf(s, id).stage.ticket;
    var t := RemoveFromQueue(s, room, ticket);
    WithoutTicketShrinks(Queue(s, room), ticket);
    if room in s.rooms {
      ShrinkOk(s, room, WithoutTicket(Queue(s, room), ticket));
    }
    assert NotQueued(t, id) by { TicketLeft(s, id); }
    FinishOk(t, id);
  }

  lemma TicketLeft(s: Server, id: ConnId)
    requires QueuesOk(s) && (ClientOf(s, id).stage.Asked? || ClientOf(s, id).stage.Waiting?)
    ensures var stage := ClientOf(s, id).stage; NotQueued(RemoveFromQueue(s, stage.room, stage.ticket), id)
  {
    hide QueuesOk, Renumber, AdmittedFor, Increasing;
    var room, ticket := ClientOf(s, id).stage.room, ClientOf(s, id).stage.ticket;
    var t := RemoveFromQueue(s, room, ticket);
    RoomOrder(s, room);
    OrderParts(AdmittedFor(s, s.admitted, room), TicketsOf(Queue(s, room)));
    TicketGone(Queue(s, room), ticket);
    WithoutTicketShrinks(Queue(s, room), ticket);
    hide WithoutTicket;
    var queue := WithoutTicket(Queue(s, room), ticket);
    TwoQueues(s, room, queue, Renumber(s.position, queue));
    forall r, e | e in Queue(t, r) ensures e.client != id { QueuedEntry(s, r, e); }
  }

  lemma GiveUpOk(s: Server, id: ConnId)
    requires QueuesOk(s) && (ClientOf(s, id).stage.Naming? || Pending(ClientOf(s, id).stage))
    ensures QueuesOk(GiveUpStep(s, id))
  {
    hide QueuesOk, FinishPending, RemoveFromQueue, NotQueued;
    match ClientOf(s, id).stage
    case Naming => StageNotQueued(s, id); SameDataOf(s, GiveUpStep(s, id)); DataAndOne(s, GiveUpStep(s, id), id);
    case Choosing => StageNotQueued(s, id); FinishOk(s, id);
    case Asked(_, _) => ExitQueueOk(s, id);
    case Waiting(_, _) => ExitQueueOk(s, id);
  }

  lemma SameDataOf(s: Server, t: Server)
    requires t.tickets == s.tickets && t.admitted == s.admitted && t.position == s.position && t.rooms == s.rooms
    ensures SameData(s, t)
  {
    assert forall r :: Queue(t, r) == Queue(s, r);
  }

  lemma SubmitRoomOk(s: Server, id: ConnId, line: string, now: Moment)
    requires QueuesOk(s) && ClientOf(s, id).stage.Choosing?
    ensures QueuesOk(SubmitRoom(s, id, line, now))
  {
    hide QueuesOk, EnterRoom, FinishPending, ValidName, TrimSpace, NotQueued, HasCapacity, Enqueue;
    var room := ChosenRoom(line);
    StageNotQueued(s, id);
    FinishOk(s, id);
    EnterRoomOk(s, id, room, now);
    EnqueueOk(s, id, room);
  }

  /** A new entry goes to the end with a fresh ticket and is told its place. */
  lemma EnqueueOk(s: Server, id: ConnId, room: string)
    requires QueuesOk(s) && ClientOf(s, id).stage.Choosing?
    ensures var t := Enqueue(s, id, room);
            QueuesOk(WithClient(t, id, ClientOf(t, id).(stage := Asked(room, |s.tickets|))))
  {
    hide QueuesOk, Increasing;
    var t := Enqueue(s, id, room);
    var u := WithClient(t, id, ClientOf(t, id).(stage := Asked(room, |s.tickets|)));
    var e := Entry(id, |s.tickets|);
    StageNotQueued(s, id);
    AdmittedFacts(s);
    assert forall r :: Queue(u, r) == if r == room then Queue(s, r) + [e] else Queue(s, r);
    assert forall x :: x != id ==> ClientOf(u, x) == ClientOf(s, x);
    forall r, x | x in Queue(u, r) ensures EntryOk(u, r, x) {
      if x in Queue(s, r) { QueuedEntry(s, r, x); }
    }
    forall r ensures InOrder(u, r) {
      hide InOrder;
      RoomOrder(s, r);
      EnqueuedOrder(s, u, id, room, r);
    }
    forall r ensures Numbered(u, r) {
      RoomOrder(s, r);
      assert forall i :: 0 <= i < |Queue(s, r)| ==> Queue(s, r)[i] in Queue(s, r);
    }
    hide Enqueue;
    QueuesOkIf(u);
  }

  lemma EnqueuedOrder(s: Server, u: Server, id: ConnId, room: string, r: string)
    requires QueuesOk(s) && InOrder(s, r)
    requires u.tickets == s.tickets + [Ticket(room, id)] && u.admitted == s.admitted
    requires Queue(u, r) == if r == room then Queue(s, r) + [Entry(id, |s.tickets|)] else Queue(s, r)
    ensures InOrder(u, r)
  {
    hide QueuesOk;
    AdmittedFacts(s);
    AdmittedForMore(s, u, s.admitted, r);
    if r == room {
      var a, q := AdmittedFor(s, s.admitted, r), TicketsOf(Queue(s, r));
      AdmittedForMembers(s, s.admitted, r);
      forall x | x in a + q ensures x < |s.tickets| {
        if x in q {
          var i :| 0 <= i < |q| && q[i] == x;
          QueuedEntry(s, r, Queue(s, r)[i]);
        }
      }
      OrderJoin(a + q, [|s.tickets|]);
      assert TicketsOf(Queue(u, r)) == q + [|s.tickets|];
      assert a + (q + [|s.tickets|]) == (a + q) + [|s.tickets|];
    }
  }

  lemma {:induction false} AdmittedForMore(s: Server, u: Server, admitted: seq<nat>, room: string)
    requires s.tickets <= u.tickets && forall t <- admitted :: t < |s.tickets|
    ensures AdmittedFor(u, admitted, room) == AdmittedFor(s, admitted, room)
  {
    if admitted != [] {
      var init, t := admitted[..|admitted| - 1], admitted[|admitted| - 1];
      assert t in admitted && forall x <- init :: x in admitted;
      AdmittedForMore(s, u, init, room);
      assert u.tickets[t] == s.tickets[t];
    }
  }

  lemma ActiveChange(s: Server, t: Server, id: ConnId)
    requires QueuesOk(s) && SameData(s, t) && ClientOf(s, id).stage.Active?
    requires t.conns == s.conns[id := ClientOf(t, id)]
    ensures QueuesOk(t)
  {
    hide QueuesOk, SameData, NotQueued;
    StageNotQueued(s, id);
    DataAndOne(s, t, id);
  }

  lemma SwitchOk(s: Server, id: ConnId, room: string, now: Moment)
    requires QueuesOk(s) && ClientOf(s, id).stage.Active?
    ensures QueuesOk(SwitchRoom(s, id, room, now))
  {
    hide QueuesOk, Publish, JoinRoom, Admit, DeleteRoomIfEmpty, SameData;
    var c := ClientOf(s, id);
    var leave := Note(now, Kind.Leave, c.username, "", "switched");
    var parted := Publish(s, c.room, leave, c.username);
    PublishData(s, c.room, leave, c.username);
    var joined := JoinRoom(parted, id, room);
    JoinData(parted, id, room);
    EnteredOne(parted, id, room);
    SameDataTrans(s, parted, joined);
    ActiveChange(s, joined, id);
    var admitted := Admit(joined, c.room);
    AdmitOk(joined, c.room);
    var arrived := DeleteRoomIfEmpty(admitted, c.room);
    DeleteData(admitted, c.room);
    var sent := SendHistory(arrived, id, room);
    SameDataOf(arrived, sent);
    SameDataTrans(admitted, arrived, sent);
    var join := Note(now, Kind.Join, c.username, "", "");
    PublishData(sent, room, join, c.username);
    SameDataTrans(admitted, sent, SwitchRoom(s, id, room, now));
    DeleteConns(admitted, c.room);
    DataAndStages(admitted, SwitchRoom(s, id, room, now));
  }

  lemma ExpelData(s: Server, id: ConnId, name: string, verdict: Reason, issuer: string, now: Moment)
    ensures SameData(s, Expel(s, id, name, verdict, issuer, now))
  {
    hide Publish, RemoveClient, SameData, Verb, WithClient;
    var c := ClientOf(s, id);
    var marked := WithClient(s, id, c.(reason := verdict));
    var t := RemoveClient(marked, name);
    var m := Note(now, Moderation, name, Verb(verdict), issuer);
    assert SameData(s, marked) by { WithClientData(s, id, c.(reason := verdict)); }
    RemoveClientData(marked, name);
    PublishData(t, c.room, m, "");
    SameDataTrans(s, marked, t);
    var u := Publish(t, c.room, m, "");
    SameDataTrans(s, t, u);
    WithClientData(u, id, ClientOf(u, id).(closed := true));
    SameDataTrans(s, u, CloseConn(u, id));
  }

  lemma WithClientData(s: Server, id: ConnId, c: Client)
    ensures SameData(s, WithClient(s, id, c))
  {
    assert forall r :: Queue(WithClient(s, id, c), r) == Queue(s, r);
  }

  lemma ExpelOk(s: Server, id: ConnId, name: string, verdict: Reason, issuer: string, now: Moment)
    requires QueuesOk(s)
    ensures QueuesOk(Expel(s, id, name, verdict, issuer, now))
    ensures forall x :: ClientOf(Expel(s, id, name, verdict, issuer, now), x).stage == ClientOf(s, x).stage
  {
    hide QueuesOk, Expel, SameData, SameLinks;
    ExpelData(s, id, name, verdict, issuer, now);
    ExpelLinks(s, id, name, verdict, issuer, now);
    DataAndStages(s, Expel(s, id, name, verdict, issuer, now));
  }

  lemma FieldsOk(s: Server, t: Server)
    requires QueuesOk(s) && t.rooms == s.rooms && t.conns == s.conns
    requires t.tickets == s.tickets && t.admitted == s.admitted && t.position == s.position
    ensures QueuesOk(t)
  {
    hide QueuesOk;
    SameDataOf(s, t);
    DataAndStages(s, t);
  }

  lemma KickOk(s: Server, name: string, issuer: string, now: Moment)
    requires QueuesOk(s) && name in s.clients
    ensures QueuesOk(KickTarget(s, name, issuer, now))
  {
    hide QueuesOk, Expel, Admit;
    var id := s.clients[name];
    var c := ClientOf(s, id);
    ExpelOk(s, id, name, Kicked, issuer, now);
    var t := Expel(s, id, name, Kicked, issuer, now);
    FieldsOk(t, AddKickCooldown(t, c.host, now.clock));
    AdmitOk(AddKickCooldown(t, c.host, now.clock), c.room);
  }

  lemma {:induction false} ExpelAllOk(s: Server, ids: seq<ConnId>, issuer: string, now: Moment)
    requires QueuesOk(s)
    ensures QueuesOk(ExpelAll(s, ids, issuer, now))
  {
    hide QueuesOk, Expel;
    if ids != [] {
      var init, id := ids[..|ids| - 1], ids[|ids| - 1];
      ExpelAllOk(s, init, issuer, now);
      var t := ExpelAll(s, init, issuer, now);
      ExpelOk(t, id, ClientOf(t, id).username, Banned, issuer, now);
    }
  }

  lemma {:induction false} PurgeOk(s: Server, host: string, visit: seq<string>)
    requires QueuesOk(s)
    ensures QueuesOk(Purge(s, host, visit).0)
  {
    hide QueuesOk, Kept, Dropped, Renumber;
    if visit != [] {
      PurgeOk(s, host, visit[..|visit| - 1]);
      PurgeStep(s, host, visit);
      var t := Purge(s, host, visit[..|visit| - 1]).0;
      var room := visit[|visit| - 1];
      KeptShrinks(t, Queue(t, room), host);
      ShrinkOk(t, room, Kept(t, Queue(t, room), host));
    }
  }

  lemma {:induction false} CloseAllOk(s: Server, ids: seq<ConnId>)
    requires QueuesOk(s)
    ensures QueuesOk(CloseAll(s, ids))
  {
    hide QueuesOk;
    if ids != [] {
      CloseAllOk(s, ids[..|ids| - 1]);
      var t := CloseAll(s, ids[..|ids| - 1]);
      SameDataOf(t, CloseAll(s, ids));
      DataAndStages(t, CloseAll(s, ids));
    }
  }

  lemma PurgeAndCloseOk(s: Server, host: string, visit: seq<string>)
    requires QueuesOk(s)
    ensures QueuesOk(PurgeAndClose(s, host, visit))
  {
    hide QueuesOk, Purge, CloseAll;
    var (t, removed) := Purge(s, host, visit);
    PurgeOk(s, host, visit);
    CloseAllOk(t, removed);
  }

  lemma BanOk(s: Server, name: string, issuer: string, order: BanOrder, now: Moment)
    requires QueuesOk(s) && name in s.clients
    ensures QueuesOk(BanTarget(s, name, issuer, order, now))
  {
    hide QueuesOk, Expel, ExpelAll, PurgeAndClose, AdmitRooms;
    var id := s.clients[name];
    var host := ClientOf(s, id).host;
    ExpelOk(s, id, name, Banned, issuer, now);
    FieldsOk(Expel(s, id, name, Banned, issuer, now), BanFirst(s, name, issuer, now));
    ExpelAllOk(BanFirst(s, name, issuer, now), order.collateral, issuer, now);
    PurgeAndCloseOk(BanEveryone(s, name, issuer, order, now), host, order.visit);
    AdmitRoomsOk(PurgeAndClose(BanEveryone(s, name, issuer, order, now), host, order.visit), order.reopened, Expelled(s, name, order));
  }

  lemma QueuedModerationOk(s: Server, host: string, visit: seq<string>, now: Moment)
    requires QueuesOk(s)
    ensures QueuesOk(KickQueued(s, host, visit, now)) && QueuesOk(BanQueued(s, host, visit))
  {
    hide QueuesOk, PurgeAndClose, Purge;
    var t := PurgeAndClose(s, host, visit);
    PurgeAndCloseOk(s, host, visit);
    FieldsOk(t, AddKickCooldown(t, host, now.clock));
    FieldsOk(t, AddBan(t, host));
  }

  lemma RecordedFlagOk(s: Server, id: ConnId, c: Client, admins: set<string>, room: string, m: Message)
    requires QueuesOk(s) && c.stage == ClientOf(s, id).stage
    ensures QueuesOk(Record(WithClient(s, id, c).(admins := admins), room, m))
  {
    hide QueuesOk, Record, SameData;
    var t := WithClient(s, id, c).(admins := admins);
    SameDataOf(s, t);
    RecordData(t, room, m);
    SameDataTrans(s, t, Record(t, room, m));
    DataAndStages(s, Record(t, room, m));
  }

  lemma FlagOk(s: Server, name: string, on: bool, issuer: string, now: Moment)
    requires QueuesOk(s) && name in s.clients
    ensures QueuesOk(MuteTarget(s, name, on, issuer, now)) && QueuesOk(PromoteTarget(s, name, on, issuer, now))
  {
    hide QueuesOk, Record, Note;
    var id := s.clients[name];
    var c := ClientOf(s, id);
    RecordedFlagOk(s, id, c.(muted := on), s.admins, c.room,
                   Note(now, Moderation, name, if on then "muted" else "unmuted", issuer));
    RecordedFlagOk(s, id, c.(admin := on), if on then s.admins + {name} else s.admins - {name}, c.room,
                   Note(now, Moderation, name, if on then "promoted" else "demoted", issuer));
  }

  lemma {:induction false} AnnounceOk(s: Server, names: seq<string>, text: string, issuer: string, now: Moment)
    requires QueuesOk(s)
    ensures QueuesOk(AnnounceIn(s, names, text, issuer, now))
  {
    hide QueuesOk, Record, Note, SameData;
    if names != [] {
      AnnounceOk(s, names[..|names| - 1], text, issuer, now);
      var t := AnnounceIn(s, names[..|names| - 1], text, issuer, now);
      RecordData(t, names[|names| - 1], Note(now, Announcement, "", text, issuer));
      DataAndStages(t, AnnounceIn(s, names, text, issuer, now));
    }
  }

  lemma SayOk(s: Server, id: ConnId, line: string, now: Moment)
    requires QueuesOk(s)
    ensures QueuesOk(SayStep(s, id, line, now))
  {
    hide QueuesOk, Publish, TrimSpace, ByteLen, SameData;
    var c := ClientOf(s, id);
    PublishData(s, c.room, Note(now, Chat, c.username, line, ""), c.username);
    DataAndStages(s, Publish(s, c.room, Note(now, Chat, c.username, line, ""), c.username));
  }

  lemma RenameOk(s: Server, id: ConnId, args: string, now: Moment)
    requires QueuesOk(s) && ClientOf(s, id).stage.Active?
    ensures QueuesOk(RenameStep(s, id, args, now))
  {
    hide QueuesOk, Publish, ValidName, Reserved, SameData;
    var c := ClientOf(s, id);
    var (t, ok) := RenameClient(s, id, c.username, args);
    if ok {
      RenameData(s, id, c.username, args);
      var u := if c.admin then RenameAdmin(t, c.username, args) else t;
      SameDataOf(t, u);
      SameDataTrans(s, t, u);
      var m := Note(now, NameChange, args, "", c.username);
      PublishData(u, c.room, m, "");
      SameDataTrans(s, u, Publish(u, c.room, m, ""));
      ActiveChange(s, Publish(u, c.room, m, ""), id);
    }
  }

  lemma CleanupOk(s: Server, id: ConnId, now: Moment)
    requires QueuesOk(s) && ClientOf(s, id).stage.Active?
    ensures QueuesOk(Cleanup(s, id, now))
  {
    hide QueuesOk, Publish, Admit, DeleteRoomIfEmpty, RemoveClient, SameData;
    var c := ClientOf(s, id);
    var m := Note(now, Kind.Leave, c.username, "", if c.reason.Unset? then "voluntary" else "drop");
    var t := if Moderated(c) then s else Publish(RemoveClient(s, c.username), c.room, m, c.username);
    SameDataSelf(s);
    RemoveClientData(s, c.username);
    RemovedConns(s, c.username);
    PublishData(RemoveClient(s, c.username), c.room, m, c.username);
    SameDataTrans(s, RemoveClient(s, c.username), Publish(RemoveClient(s, c.username), c.room, m, c.username));
    DataAndStages(s, t);
    AdmitOk(t, c.room);
    var u := DeleteRoomIfEmpty(Admit(t, c.room), c.room);
    DeleteData(Admit(t, c.room), c.room);
    DeleteConns(Admit(t, c.room), c.room);
    AdmitConns(t, c.room);
    SameDataOf(u, Cleanup(s, id, now));
    SameDataTrans(Admit(t, c.room), u, Cleanup(s, id, now));
    ActiveChange(Admit(t, c.room), Cleanup(s, id, now), id);
  }

  lemma ClearOk(s: Server)
    requires QueuesOk(s)
    ensures QueuesOk(ClearHistory(s))
  {
    hide QueuesOk;
    assert forall r :: Queue(ClearHistory(s), r) == Queue(s, r);
    DataAndStages(s, ClearHistory(s));
  }

  lemma NewConnOk(s: Server, t: Server, id: ConnId)
    requires QueuesOk(s) && id !in s.conns && t.rooms == s.rooms && t.conns == s.conns[id := ClientOf(t, id)]
    requires t.tickets == s.tickets && t.admitted == s.admitted && t.position == s.position
    ensures QueuesOk(t)
  {
    hide QueuesOk, NotQueued, SameData;
    StageNotQueued(s, id);
    SameDataOf(s, t);
    DataAndOne(s, t, id);
  }

  lemma StageOnlyOk(s: Server, id: ConnId)
    requires QueuesOk(s) && ClientOf(s, id).stage.Asked?
    ensures var c := ClientOf(s, id); QueuesOk(WithClient(s, id, c.(stage := Waiting(c.stage.room, c.stage.ticket))))
  {
    hide QueuesOk, AdmittedFor, Increasing;
    var c := ClientOf(s, id);
    var t := WithClient(s, id, c.(stage := Waiting(c.stage.room, c.stage.ticket)));
    assert forall r :: Queue(t, r) == Queue(s, r);
    AdmittedFacts(s);
    forall r, e | e in Queue(t, r) ensures EntryOk(t, r, e) { QueuedEntry(s, r, e); }
    forall r ensures InOrder(t, r) { RoomOrder(s, r); AdmittedForSame(s, t, s.admitted, r); }
    forall r ensures Numbered(t, r) { RoomOrder(s, r); }
    QueuesOkIf(t);
  }

  // ---------- main results ----------

  lemma OnboardingOk(s: Server, a: Action, now: Moment)
    requires QueuesOk(s) && Enabled(s, a, now)
    requires a.Connect? || a.EnterName? || a.ChooseRoom? || a.Answer? || a.TakeSlot? || a.GiveUp?
    ensures QueuesOk(Step(s, a, now))
  {
    hide QueuesOk, EnterRoom, GiveUpStep, ValidName, TrimSpace, SubmitRoom, SubmitName, AcceptConnection, NotQueued, SameData;
    match a
    case Connect(id, host) => ConnectOk(s, id, host, now);
    case EnterName(id, name) => StageNotQueued(s, id); SubmitNameOne(s, id, name);
    case ChooseRoom(id, line) => SubmitRoomOk(s, id, line, now);
    case Answer(id, line) => GiveUpOk(s, id); StageOnlyOk(s, id);
    case TakeSlot(id) => AdmittedNotQueued(s, id); EnterRoomOk(s, id, ClientOf(s, id).stage.room, now);
    case GiveUp(id) => GiveUpOk(s, id);
  }

  lemma ConnectOk(s: Server, id: ConnId, host: string, now: Moment)
    requires QueuesOk(s) && id !in s.conns
    ensures QueuesOk(AcceptConnection(s, id, host, now))
  {
    hide QueuesOk;
    NewConnOk(s, AcceptConnection(s, id, host, now), id);
  }

  lemma SubmitNameOne(s: Server, id: ConnId, name: string)
    requires QueuesOk(s) && NotQueued(s, id)
    ensures QueuesOk(SubmitName(s, id, name))
  {
    hide QueuesOk, ValidName, Reserved, NotQueued, SameData;
    SameDataOf(s, SubmitName(s, id, name));
    if SubmitName(s, id, name) != s {
      DataAndOne(s, SubmitName(s, id, name), id);
    }
  }

  lemma SessionOk(s: Server, a: Action, now: Moment)
    requires QueuesOk(s) && Enabled(s, a, now)
    requires a.Say? || a.Switch? || a.Create? || a.Rename? || a.Kick? || a.Ban? || a.SetMute? || a.Announce? || a.Leave?
    ensures QueuesOk(Step(s, a, now))
  {
    hide QueuesOk, SayStep, SwitchRoom, RenameStep, KickTarget, BanTarget, MuteTarget, AnnounceIn, Cleanup, PossibleOrder,
         Enumerates, HasCapacity, ValidName, TrimSpace;
    match a
    case Say(id, line) => SayOk(s, id, line, now);
    case Switch(id, args) => SwitchOk(s, id, args, now);
    case Create(id, args) => SwitchOk(s, id, args, now);
    case Rename(id, args) => RenameOk(s, id, args, now);
    case Kick(id, args) => if args in s.clients { KickOk(s, args, ClientOf(s, id).username, now); }
    case Ban(id, args, order) => if args in s.clients { BanOk(s, args, ClientOf(s, id).username, order, now); }
    case SetMute(id, args, on) => if args in s.clients { FlagOk(s, args, on, ClientOf(s, id).username, now); }
    case Announce(id, args, names) => AnnounceOk(s, names, args, ClientOf(s, id).username, now);
    case Leave(id, drop) =>
      var t := WithClient(s, id, SetReason(ClientOf(s, id), drop));
      SameDataOf(s, t);
      ActiveChange(s, t, id);
      CleanupOk(t, id, now);
  }

  lemma OperatorOk(s: Server, a: Action, now: Moment)
    requires QueuesOk(s) && Enabled(s, a, now) && OperatorAction(a)
    ensures QueuesOk(Step(s, a, now))
  {
    hide QueuesOk, KickTarget, BanTarget, MuteTarget, AnnounceIn, PromoteTarget, KickQueued, BanQueued, PossibleOrder, Enumerates,
         TrimSpace, ClearHistory;
    match a
    case OperatorKick(args, visit) =>
      if args in s.clients { KickOk(s, args, "Server", now); }
      QueuedModerationOk(s, args, visit, now);
    case OperatorBan(args, order) =>
      if args in s.clients { BanOk(s, args, "Server", order, now); }
      QueuedModerationOk(s, args, order.visit, now);
    case OperatorSetMute(args, on) => if args in s.clients { FlagOk(s, args, on, "Server", now); }
    case OperatorAnnounce(args, names) => AnnounceOk(s, names, args, "Server", now);
    case OperatorPromote(args) => if args in s.clients { FlagOk(s, args, true, "Server", now); }
    case OperatorDemote(args) => if args in s.clients { FlagOk(s, args, false, "Server", now); }
    case Sever(id, drop) => SameDataOf(s, Step(s, a, now)); DataAndStages(s, Step(s, a, now));
    case Midnight => ClearOk(s);
    case BeginShutdown => FieldsOk(s, Step(s, a, now));
  }

  lemma StepQueuesOk(s: Server, a: Action, now: Moment)
    requires QueuesOk(s) && Enabled(s, a, now)
    ensures QueuesOk(Step(s, a, now))
  {
    hide QueuesOk, Step, Enabled;
    if OperatorAction(a) {
      OperatorOk(s, a, now);
    } else if a.Connect? || a.EnterName? || a.ChooseRoom? || a.Answer? || a.TakeSlot? || a.GiveUp? {
      OnboardingOk(s, a, now);
    } else {
      SessionOk(s, a, now);
    }
  }

  /** Every run keeps first-in-first-out order, single admission and current positions. */
  lemma {:induction false} RunQueuesOk(s: Server, run: Run)
    requires QueuesOk(s) && Possible(s, run)
    ensures QueuesOk(After(s, run))
    decreases |run|
  {
    hide QueuesOk, Enabled, Step;
    if run != [] {
      StepQueuesOk(s, run[0].0, run[0].1);
      RunQueuesOk(Step(s, run[0].0, run[0].1), run[1..]);
    }
  }

  lemma FreshQueuesOk(admins: set<string>)
    ensures QueuesOk(Fresh(admins))
  {
  }

  /** What the invariant means in a reachable state: admissions of a room happened in enqueue order and nobody still
      queued there was overtaken, no ticket is admitted twice or queued again, and the last position every queued
      connection was sent is its place. */
  lemma QueuesInReachableStates(admins: set<string>, run: Run, room: string)
    requires Possible(Fresh(admins), run)
    ensures var s := After(Fresh(admins), run);
            && Increasing(AdmittedFor(s, s.admitted, room))
            && (forall t, e :: t in AdmittedFor(s, s.admitted, room) && e in Queue(s, room) ==> t < e.ticket)
            && (forall i, j :: 0 <= i < j < |s.admitted| ==> s.admitted[i] != s.admitted[j])
            && (forall e <- Queue(s, room) :: e.ticket !in s.admitted)
            && (forall i :: 0 <= i < |Queue(s, room)| ==>
                  Queue(s, room)[i].client in s.position && s.position[Queue(s, room)[i].client] == i + 1)
  {
    hide QueuesOk, AdmittedFor, Increasing;
    FreshQueuesOk(admins);
    RunQueuesOk(Fresh(admins), run);
    var s := After(Fresh(admins), run);
    AdmittedFacts(s);
    RoomOrder(s, room);
    OrderParts(AdmittedFor(s, s.admitted, room), TicketsOf(Queue(s, room)));
    forall e | e in Queue(s, room) ensures e.ticket !in s.admitted && e.ticket in TicketsOf(Queue(s, room)) {
      AdmittedIsNotQueued(s, room, e);
      TicketOfEntry(Queue(s, room), e);
    }
  }
}
