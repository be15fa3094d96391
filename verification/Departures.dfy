/** What a departure does for those who stay: the queue of the room left is served, and a room left empty goes
    (server/commands.go, handler.go, room.go). */
module Departures {
  import opened Text
  import opened Messages
  import opened ServerState
  import opened Commands
  import opened Ownership
  import opened OwnershipRuns
  import opened Indexes
  import opened Grounds
  import opened Queues
  import opened QueueRuns

  /** The first entry of the room's queue whose connection is open is admitted and leaves the queue together with the
      closed ones ahead of it; the others stay in order. Without such an entry nobody is admitted and the queue is empty. */
  ghost predicate Served(s: Server, t: Server, room: string) { exists k: nat :: ServedAt(s, t, room, k) }

  predicate ServedAt(s: Server, t: Server, room: string, k: nat) {
    var queue := Queue(s, room);
    && k <= |queue|
    && (forall i :: 0 <= i < k ==> ClientOf(s, queue[i].client).closed)
    && (if k == |queue| then t.admitted == s.admitted && Queue(t, room) == []
        else !ClientOf(s, queue[k].client).closed && t.admitted == s.admitted + [queue[k].ticket] && Queue(t, room) == queue[k + 1..])
  }

  ghost predicate OthersWait(s: Server, t: Server, room: string) { forall r :: r != room ==> Queue(t, r) == Queue(s, r) }

  /** Switching rooms succeeds. */
  predicate Switches(s: Server, id: ConnId, args: string) {
    args != "" && ValidName(args) && args != ClientOf(s, id).room && |Members(s, args)| < 10
  }

  predicate Creates(s: Server, args: string) { args != "" && ValidName(args) && args !in s.rooms }

  /** The step takes somebody out of the room, one connection at a time. */
  predicate Departs(s: Server, a: Action, room: string) {
    match a
    case Switch(id, args) => room == ClientOf(s, id).room && Switches(s, id, args)
    case Create(id, args) => room == ClientOf(s, id).room && Creates(s, args)
    case Leave(id, _) => room == ClientOf(s, id).room
    case Kick(id, args) =>
      ClientOf(s, id).admin && args != "" && args in s.clients && ClientOf(s, s.clients[args]).room == ClientOf(s, id).room == room
    case OperatorKick(args, _) => args != "" && args in s.clients && ClientOf(s, s.clients[args]).room == room && room != ""
    case _ => false
  }

  // ---------- the queue ----------

  /** Same queues and admissions, and whoever is queued is open as before. */
  ghost predicate QueueAlike(s: Server, t: Server) {
    && SameData(s, t) && t.shuttingDown == s.shuttingDown
    && (forall room, e :: e in Queue(s, room) ==> ClientOf(t, e.client).closed == ClientOf(s, e.client).closed)
  }

  lemma ServedAfter(s: Server, t: Server, u: Server, room: string)
    requires QueueAlike(s, t) && Served(t, u, room) && OthersWait(t, u, room)
    ensures Served(s, u, room) && OthersWait(s, u, room)
  {
    hide ClientOf;
    var queue := Queue(s, room);
    assert forall i :: 0 <= i < |queue| ==> queue[i] in queue;
    var k: nat :| ServedAt(t, u, room, k);
    assert ServedAt(s, u, room, k);
  }

  lemma ServedBefore(s: Server, t: Server, u: Server, room: string)
    requires Served(s, t, room) && OthersWait(s, t, room) && SameData(t, u)
    ensures Served(s, u, room) && OthersWait(s, u, room)
  {
    hide ClientOf;
    var k: nat :| ServedAt(s, t, room, k);
    assert ServedAt(s, u, room, k);
  }

  lemma AdmitServes(s: Server, room: string)
    requires !s.shuttingDown
    ensures Served(s, Admit(s, room), room) && OthersWait(s, Admit(s, room), room)
  {
    hide Renumber, ClosedAhead;
    assert ServedAt(s, Admit(s, room), room, ClosedAhead(s, Queue(s, room))) by {
      if room !in s.rooms { assert ClosedAhead(s, []) <= 0; }
    }
  }

  lemma PartAlike(s: Server, id: ConnId, room: string, m: Message, exclude: string, to: string)
    ensures var t := JoinRoom(Publish(s, room, m, exclude), id, to); QueueAlike(s, t) && room in Publish(s, room, m, exclude).rooms
  {
    hide SameData;
    var p := Publish(s, room, m, exclude);
    PublishData(s, room, m, exclude);
    JoinData(p, id, to);
    SameDataTrans(s, p, JoinRoom(p, id, to));
    PartedRest(s, id, room, m, exclude, to);
  }

  lemma PartedRest(s: Server, id: ConnId, room: string, m: Message, exclude: string, to: string)
    ensures var p := Publish(s, room, m, exclude);
            var t := JoinRoom(p, id, to);
            room in p.rooms && t.shuttingDown == s.shuttingDown && forall x :: ClientOf(t, x).closed == ClientOf(s, x).closed
  {
  }

  lemma SwitchServes(s: Server, id: ConnId, to: string, now: Moment)
    requires !s.shuttingDown
    ensures var t := SwitchRoom(s, id, to, now); Served(s, t, ClientOf(s, id).room) && OthersWait(s, t, ClientOf(s, id).room)
  {
    hide Publish, JoinRoom, Admit, DeleteRoomIfEmpty, SameData, Served, ServedAt, OthersWait, QueueAlike;
    var c := ClientOf(s, id);
    var leave, join := Note(now, Kind.Leave, c.username, "", "switched"), Note(now, Kind.Join, c.username, "", "");
    PartAlike(s, id, c.room, leave, c.username, to);
    var joined := JoinRoom(Publish(s, c.room, leave, c.username), id, to);
    assert !joined.shuttingDown by { StillUp(s, joined); }
    AdmitServes(joined, c.room);
    ServedAfter(s, joined, Admit(joined, c.room), c.room);
    var admitted := Admit(joined, c.room);
    var arrived := DeleteRoomIfEmpty(admitted, c.room);
    DeleteData(admitted, c.room);
    var sent := SendHistory(arrived, id, to);
    SameDataOf(arrived, sent);
    SameDataTrans(admitted, arrived, sent);
    PublishData(sent, to, join, c.username);
    SameDataTrans(admitted, sent, SwitchRoom(s, id, to, now));
    ServedBefore(s, admitted, SwitchRoom(s, id, to, now), c.room);
  }

  lemma StillUp(s: Server, t: Server)
    requires QueueAlike(s, t)
    ensures t.shuttingDown == s.shuttingDown
  {
  }

  /** One connection outside all queues changes. */
  lemma OneAlike(s: Server, t: Server, id: ConnId)
    requires SameData(s, t) && t.shuttingDown == s.shuttingDown && NotQueued(s, id)
    requires forall x :: x != id ==> ClientOf(t, x).closed == ClientOf(s, x).closed
    ensures QueueAlike(s, t)
  {
  }

  lemma CleanupServes(s: Server, id: ConnId, now: Moment)
    requires !s.shuttingDown
    ensures var t := Cleanup(s, id, now); Served(s, t, ClientOf(s, id).room) && OthersWait(s, t, ClientOf(s, id).room)
  {
    hide Publish, RemoveClient, Admit, DeleteRoomIfEmpty, SameData, Served, ServedAt, OthersWait, QueueAlike, WithClient;
    var c := ClientOf(s, id);
    var m := Note(now, Kind.Leave, c.username, "", if c.reason.Unset? then "voluntary" else "drop");
    var removed := RemoveClient(s, c.username);
    var t := if Moderated(c) then s else Publish(removed, c.room, m, c.username);
    SameDataSelf(s);
    RemoveClientData(s, c.username);
    PublishData(removed, c.room, m, c.username);
    SameDataTrans(s, removed, Publish(removed, c.room, m, c.username));
    RemovedRest(s, c.username, c.room, m);
    assert QueueAlike(s, t) by { SameConnsAlike(s, t); }
    AdmitServes(t, c.room);
    ServedAfter(s, t, Admit(t, c.room), c.room);
    var admitted := Admit(t, c.room);
    var u := DeleteRoomIfEmpty(admitted, c.room);
    DeleteData(admitted, c.room);
    WithClientData(u, id, ClientOf(u, id).(closed := true, stage := Finished));
    SameDataTrans(admitted, u, Cleanup(s, id, now));
    ServedBefore(s, admitted, Cleanup(s, id, now), c.room);
  }

  lemma RemovedRest(s: Server, name: string, room: string, m: Message)
    ensures var t := Publish(RemoveClient(s, name), room, m, name); t.conns == s.conns && t.shuttingDown == s.shuttingDown
  {
  }

  lemma SameConnsAlike(s: Server, t: Server)
    requires SameData(s, t) && t.conns == s.conns && t.shuttingDown == s.shuttingDown
    ensures QueueAlike(s, t)
  {
  }

  lemma LeaveServes(s: Server, id: ConnId, drop: bool, now: Moment)
    requires !s.shuttingDown
    ensures var t := Step(s, Action.Leave(id, drop), now); Served(s, t, ClientOf(s, id).room) && OthersWait(s, t, ClientOf(s, id).room)
  {
    hide Cleanup, SameData, Served, ServedAt, OthersWait, QueueAlike;
    var c := SetReason(ClientOf(s, id), drop);
    var t := WithClient(s, id, c);
    WithClientData(s, id, c);
    ReasonAlike(s, id, c);
    CleanupServes(t, id, now);
    ServedAfter(s, t, Cleanup(t, id, now), ClientOf(s, id).room);
  }

  lemma ReasonAlike(s: Server, id: ConnId, c: Client)
    requires c.closed == ClientOf(s, id).closed
    ensures QueueAlike(s, WithClient(s, id, c))
  {
    WithClientData(s, id, c);
    hide SameData;
  }

  lemma KickServes(s: Server, name: string, issuer: string, now: Moment)
    requires name in s.clients && !s.shuttingDown && NotQueued(s, s.clients[name])
    ensures var t, room := KickTarget(s, name, issuer, now), ClientOf(s, s.clients[name]).room; Served(s, t, room) && OthersWait(s, t, room)
  {
    hide Expel, Admit, SameData, Served, ServedAt, OthersWait, QueueAlike;
    var id := s.clients[name];
    var c := ClientOf(s, id);
    var out := Expel(s, id, name, Kicked, issuer, now);
    ExpelData(s, id, name, Kicked, issuer, now);
    ExpelLinks(s, id, name, Kicked, issuer, now);
    ExpelUp(s, id, name, issuer, now);
    var cooled := AddKickCooldown(out, c.host, now.clock);
    SameDataOf(out, cooled);
    SameDataTrans(s, out, cooled);
    OneAlike(s, cooled, id);
    AdmitServes(cooled, c.room);
    ServedAfter(s, cooled, KickTarget(s, name, issuer, now), c.room);
  }

  lemma ExpelUp(s: Server, id: ConnId, name: string, issuer: string, now: Moment)
    ensures Expel(s, id, name, Kicked, issuer, now).shuttingDown == s.shuttingDown
  {
  }

  /** A departure serves the queue of the room left, and no other queue. */
  lemma DepartureServes(s: Server, a: Action, now: Moment, room: string)
    requires Grounded(s) && QueuesOk(s) && Enabled(s, a, now) && !s.shuttingDown && Departs(s, a, room)
    ensures Served(s, Step(s, a, now), room) && OthersWait(s, Step(s, a, now), room)
  {
    hide Grounded, QueuesOk, SwitchRoom, Cleanup, KickTarget, Served, OthersWait, ValidName, PossibleOrder, Enumerates, NotQueued;
    match a
    case Switch(id, args) => SwitchServes(s, id, args, now);
    case Create(id, args) => SwitchServes(s, id, args, now);
    case Leave(id, drop) => hide Step; LeaveServes(s, id, drop, now);
    case Kick(id, args) =>
      OfGrounded(s, id);
      SeatedNotQueued(s, s.clients[args]);
      KickServes(s, args, ClientOf(s, id).username, now);
    case OperatorKick(args, _) => SeatedNotQueued(s, s.clients[args]); KickServes(s, args, "Server", now);
  }

  lemma SeatedNotQueued(s: Server, id: ConnId)
    requires Grounded(s) && QueuesOk(s) && ClientOf(s, id).room != ""
    ensures NotQueued(s, id)
  {
    hide Grounded, QueuesOk;
    OfGrounded(s, id);
    StageNotQueued(s, id);
  }

  /** In every reachable state. */
  lemma DeparturesServeTheQueue(admins: set<string>, run: Run, a: Action, now: Moment, room: string)
    requires Possible(Fresh(admins), run)
    requires var s := After(Fresh(admins), run); Enabled(s, a, now) && !s.shuttingDown && Departs(s, a, room)
    ensures var s := After(Fresh(admins), run);
            var t := Step(s, a, now);
            Served(s, t, room) && OthersWait(s, t, room)
  {
    hide *;
    FreshGrounded(admins);
    FreshQueuesOk(admins);
    RunGrounded(Fresh(admins), run);
    RunQueuesOk(Fresh(admins), run);
    DepartureServes(After(Fresh(admins), run), a, now, room);
  }
}
