/** Who owns which name: the global index, the room indexes and the connections' own fields agree. */
module Ownership {
  import opened Messages
  import opened ServerState
  import opened Commands

  // ---------- the invariant ----------

  predicate Registered(s: Server, id: ConnId) {
    ClientOf(s, id).username in s.clients && s.clients[ClientOf(s, id).username] == id
  }

  /** A key of the global index is its client's valid, unreserved name; a client with a room is in that room's index. */
  predicate KeyOwned(s: Server, name: string)
    requires name in s.clients
  {
    var id := s.clients[name];
    var c := ClientOf(s, id);
    && id in s.conns && c.username == name && ValidName(name) && !Reserved(name) && !Moderated(c)
    && if Pending(c.stage) then c.room == ""
       else c.stage.Active? && c.room != "" && name in Members(s, c.room) && Members(s, c.room)[name] == id
  }

  /** A room member is the globally registered client of that name, and that client is in this room. */
  predicate MemberOwned(s: Server, room: string, name: string)
    requires name in Members(s, room)
  {
    && room != "" && name in s.clients && s.clients[name] == Members(s, room)[name]
    && ClientOf(s, s.clients[name]).room == room
  }

  /** Every connection past the name prompt is registered unless it was kicked or banned. */
  predicate ConnOwned(s: Server, id: ConnId) {
    var c := ClientOf(s, id);
    && (Moderated(c) ==> c.closed)
    && if c.stage.Naming? then !Moderated(c) && c.room == ""
    else if Pending(c.stage) then
      c.room == "" && (Moderated(c) || Registered(s, id)) && (!c.stage.Choosing? ==> ValidName(c.stage.room))
    else if c.stage.Active? then ValidName(c.room) && (Moderated(c) || Registered(s, id))
    else true
  }

  ghost predicate Owned(s: Server) {
    && DEFAULT_ROOM in s.rooms
    && (forall name :: name in s.clients ==> KeyOwned(s, name))
    && (forall room, name :: name in Members(s, room) ==> MemberOwned(s, room, name))
    && (forall id :: id in s.conns ==> ConnOwned(s, id))
  }

  // ---------- sections that leave the links alone ----------

  predicate SameConn(c: Client, d: Client) {
    c.username == d.username && c.room == d.room && c.stage == d.stage && c.reason == d.reason && (d.closed ==> c.closed)
  }

  ghost predicate SameLinks(s: Server, t: Server) {
    && t.clients == s.clients
    && (forall room :: Members(t, room) == Members(s, room))
    && (forall id :: id in s.conns ==> id in t.conns)
    && (forall id :: SameConn(ClientOf(t, id), ClientOf(s, id)))
    && (DEFAULT_ROOM in s.rooms ==> DEFAULT_ROOM in t.rooms)
  }

  lemma SameLinksOwned(s: Server, t: Server)
    requires Owned(s) && SameLinks(s, t)
    ensures Owned(t)
  {
    hide ValidName, Reserved;
    forall name | name in t.clients ensures KeyOwned(t, name) { assert KeyOwned(s, name); }
    forall room, name | name in Members(t, room) ensures MemberOwned(t, room, name) { assert MemberOwned(s, room, name); }
    forall id | id in t.conns ensures ConnOwned(t, id) { assert ConnOwned(s, id); }
  }

  lemma RecordLinks(s: Server, room: string, m: Message)
    ensures SameLinks(s, Record(s, room, m))
  {
  }

  lemma PublishLinks(s: Server, room: string, m: Message, exclude: string)
    ensures SameLinks(s, Publish(s, room, m, exclude))
  {
    RecordLinks(s, room, m);
  }

  lemma QueueLinks(s: Server, room: string, queue: seq<Entry>, position: map<ConnId, nat>, admitted: seq<nat>)
    ensures SameLinks(s, WithQueue(s, room, queue).(position := position, admitted := admitted))
  {
    hide SameConn;
    assert forall c :: SameConn(c, c) by { SameConnSelf(); }
  }

  lemma SameConnSelf()
    ensures forall c :: SameConn(c, c)
  {
  }

  lemma AdmitLinks(s: Server, room: string)
    ensures SameLinks(s, Admit(s, room))
  {
    hide Renumber, ClosedAhead, SameLinks;
    SameLinksSelf(s);
    var queue := Queue(s, room);
    var k := ClosedAhead(s, queue);
    QueueLinks(s, room, [], s.position, s.admitted);
    if k < |queue| {
      QueueLinks(s, room, queue[k + 1..], Renumber(s.position, queue[k + 1..]), s.admitted + [queue[k].ticket]);
    }
  }

  lemma DeleteLinks(s: Server, room: string)
    ensures SameLinks(s, DeleteRoomIfEmpty(s, room))
  {
    var t := DeleteRoomIfEmpty(s, room);
    assert forall r :: Members(t, r) == Members(s, r);
  }

  lemma RemoveFromQueueLinks(s: Server, room: string, ticket: nat)
    ensures SameLinks(s, RemoveFromQueue(s, room, ticket))
  {
    hide Renumber, WithoutTicket, SameLinks;
    SameLinksSelf(s);
    var queue := WithoutTicket(Queue(s, room), ticket);
    QueueLinks(s, room, queue, Renumber(s.position, queue), s.admitted);
  }

  lemma CloseLinks(s: Server, id: ConnId)
    ensures SameLinks(s, CloseConn(s, id))
  {
  }

  lemma SameLinksTrans(s: Server, t: Server, u: Server)
    requires SameLinks(s, t) && SameLinks(t, u)
    ensures SameLinks(s, u)
  {
  }

  lemma {:induction false} AdmitTimesLinks(s: Server, room: string, n: nat)
    ensures SameLinks(s, AdmitTimes(s, room, n))
  {
    if n > 0 {
      AdmitTimesLinks(s, room, n - 1);
      AdmitLinks(AdmitTimes(s, room, n - 1), room);
      SameLinksTrans(s, AdmitTimes(s, room, n - 1), AdmitTimes(s, room, n));
    }
  }

  lemma {:induction false} AdmitRoomsLinks(s: Server, rooms: seq<string>, ids: seq<ConnId>)
    ensures SameLinks(s, AdmitRooms(s, rooms, ids))
  {
    hide SameLinks, AdmitTimes, SlotsOpened;
    if rooms == [] {
      SameLinksSelf(s);
    } else {
      var init, room := rooms[..|rooms| - 1], rooms[|rooms| - 1];
      AdmitRoomsLinks(s, init, ids);
      var t := AdmitRooms(s, init, ids);
      AdmitTimesLinks(t, room, SlotsOpened(s, ids, room));
      SameLinksTrans(s, t, AdmitTimes(t, room, SlotsOpened(s, ids, room)));
    }
  }

  lemma SameLinksSelf(s: Server)
    ensures SameLinks(s, s)
  {
  }

  lemma PurgeStep(s: Server, host: string, visit: seq<string>)
    requires visit != []
    ensures var (t, removed) := Purge(s, host, visit[..|visit| - 1]);
            var room := visit[|visit| - 1];
            var (u, all) := Purge(s, host, visit);
            var kept := Kept(t, Queue(t, room), host);
            && all == removed + Dropped(t, Queue(t, room), host)
            && u == if all == [] then t else WithQueue(t, room, kept).(position := Renumber(t.position, kept))
  {
  }

  lemma {:induction false} PurgeLinks(s: Server, host: string, visit: seq<string>)
    ensures SameLinks(s, Purge(s, host, visit).0)
  {
    hide SameLinks, Kept, Dropped, Renumber, Queue;
    if visit == [] {
      SameLinksSelf(s);
    } else {
      PurgeLinks(s, host, visit[..|visit| - 1]);
      PurgeStep(s, host, visit);
      var t := Purge(s, host, visit[..|visit| - 1]).0;
      var room := visit[|visit| - 1];
      var kept := Kept(t, Queue(t, room), host);
      QueueLinks(t, room, kept, Renumber(t.position, kept), t.admitted);
      SameLinksTrans(s, t, WithQueue(t, room, kept).(position := Renumber(t.position, kept), admitted := t.admitted));
    }
  }

  lemma QueueOfWithQueue(s: Server, room: string, queue: seq<Entry>, position: map<ConnId, nat>)
    ensures forall r :: Queue(WithQueue(s, room, queue).(position := position), r) == if r == room then queue else Queue(s, r)
  {
  }

  /** Only queued connections are purged. */
  lemma {:induction false} PurgedWereQueued(s: Server, host: string, visit: seq<string>)
    ensures forall id <- Purge(s, host, visit).1 :: exists room, e :: e in Queue(s, room) && e.client == id
    ensures forall room, e :: e in Queue(Purge(s, host, visit).0, room) ==> e in Queue(s, room)
  {
    hide WithQueue, Kept, Dropped, Renumber, Queue;
    if visit != [] {
      PurgedWereQueued(s, host, visit[..|visit| - 1]);
      PurgeStep(s, host, visit);
      var t := Purge(s, host, visit[..|visit| - 1]).0;
      var room := visit[|visit| - 1];
      var kept := Kept(t, Queue(t, room), host);
      DroppedComeFromQueue(t, Queue(t, room), host);
      KeptComeFromQueue(t, Queue(t, room), host);
      QueueOfWithQueue(t, room, kept, Renumber(t.position, kept));
      forall id | id in Dropped(t, Queue(t, room), host)
        ensures exists r, e :: e in Queue(s, r) && e.client == id
      {
        var e :| e in Queue(t, room) && e.client == id;
        assert e in Queue(s, room);
      }
    }
  }

  lemma {:induction false} DroppedComeFromQueue(s: Server, queue: seq<Entry>, host: string)
    ensures forall id <- Dropped(s, queue, host) :: exists e :: e in queue && e.client == id
  {
    if queue != [] {
      DroppedComeFromQueue(s, queue[..|queue| - 1], host);
      assert forall e <- queue[..|queue| - 1] :: e in queue;
      assert queue[|queue| - 1] in queue;
    }
  }

  lemma {:induction false} KeptComeFromQueue(s: Server, queue: seq<Entry>, host: string)
    ensures forall e <- Kept(s, queue, host) :: e in queue && !HasHost(s, e.client, host)
  {
    if queue != [] {
      KeptComeFromQueue(s, queue[..|queue| - 1], host);
      assert forall e <- queue[..|queue| - 1] :: e in queue;
    }
  }

  lemma {:induction false} CloseAllLinks(s: Server, ids: seq<ConnId>)
    ensures SameLinks(s, CloseAll(s, ids))
  {
    if ids != [] {
      CloseAllLinks(s, ids[..|ids| - 1]);
      var t := CloseAll(s, ids[..|ids| - 1]);
      CloseLinks(t, ids[|ids| - 1]);
      SameLinksTrans(s, t, CloseAll(s, ids));
    }
  }

  // ---------- frame lemmas, one per part of the invariant ----------

  predicate KeyUntouched(s: Server, t: Server, name: string)
    requires name in t.clients
  {
    && name in s.clients && t.clients[name] == s.clients[name]
    && var id := s.clients[name];
       id in t.conns && SameConn(ClientOf(t, id), ClientOf(s, id))
       && var room := ClientOf(s, id).room;
          (name in Members(s, room) ==> name in Members(t, room) && Members(t, room)[name] == Members(s, room)[name])
  }

  predicate MemberUntouched(s: Server, t: Server, room: string, name: string)
    requires name in Members(t, room)
  {
    && name in Members(s, room) && Members(t, room)[name] == Members(s, room)[name]
    && (name in s.clients ==> name in t.clients && t.clients[name] == s.clients[name]
                              && ClientOf(t, s.clients[name]).room == ClientOf(s, s.clients[name]).room)
  }

  predicate ConnUntouched(s: Server, t: Server, id: ConnId) {
    id in s.conns && SameConn(ClientOf(t, id), ClientOf(s, id)) && (Registered(s, id) ==> Registered(t, id))
  }

  lemma KeyStays(s: Server, t: Server, name: string)
    requires Owned(s) && name in t.clients && KeyUntouched(s, t, name)
    ensures KeyOwned(t, name)
  {
    hide ValidName, Reserved;
    assert KeyOwned(s, name);
  }

  lemma MemberStays(s: Server, t: Server, room: string, name: string)
    requires Owned(s) && name in Members(t, room) && MemberUntouched(s, t, room, name)
    ensures MemberOwned(t, room, name)
  {
    hide KeyOwned, ConnOwned;
    assert MemberOwned(s, room, name);
  }

  lemma ConnStays(s: Server, t: Server, id: ConnId)
    requires Owned(s) && ConnUntouched(s, t, id)
    ensures ConnOwned(t, id)
  {
    hide KeyOwned, MemberOwned, ValidName, Registered;
    assert ConnOwned(s, id);
  }

  /** Facts about a registered client. */
  lemma OfKey(s: Server, name: string)
    requires Owned(s) && name in s.clients
    ensures var id := s.clients[name];
            var c := ClientOf(s, id);
            && id in s.conns && c.username == name && ValidName(name) && !Reserved(name) && !Moderated(c)
            && (Pending(c.stage) ==> c.room == "")
            && (!Pending(c.stage) ==> c.stage.Active? && c.room != "" && name in Members(s, c.room) && Members(s, c.room)[name] == id)
  {
    hide MemberOwned, ConnOwned, ValidName, Reserved;
    assert KeyOwned(s, name);
  }

  /** Facts about a room member. */
  lemma OfMember(s: Server, room: string, name: string)
    requires Owned(s) && name in Members(s, room)
    ensures room != "" && name in s.clients && s.clients[name] == Members(s, room)[name] && s.clients[name] in s.conns
    ensures ClientOf(s, s.clients[name]).room == room && ClientOf(s, s.clients[name]).username == name
    ensures ClientOf(s, s.clients[name]).stage.Active? && !Moderated(ClientOf(s, s.clients[name]))
  {
    hide ConnOwned, KeyOwned;
    assert MemberOwned(s, room, name);
    OfKey(s, name);
  }

  lemma OfConn(s: Server, id: ConnId)
    requires Owned(s) && id in s.conns
    ensures ConnOwned(s, id)
  {
  }

  lemma OwnedIf(t: Server)
    requires DEFAULT_ROOM in t.rooms
    requires forall name :: name in t.clients ==> KeyOwned(t, name)
    requires forall room, name :: name in Members(t, room) ==> MemberOwned(t, room, name)
    requires forall id :: id in t.conns ==> ConnOwned(t, id)
    ensures Owned(t)
  {
  }

  // ---------- sections that change the links ----------

  lemma ConnectOwned(s: Server, id: ConnId, host: string, now: Moment)
    requires Owned(s) && id !in s.conns
    ensures Owned(AcceptConnection(s, id, host, now))
  {
    hide Owned;
    NewConn(s, AcceptConnection(s, id, host, now), id);
  }

  lemma NewConn(s: Server, t: Server, id: ConnId)
    requires Owned(s) && id !in s.conns && t.clients == s.clients && t.rooms == s.rooms
    requires t.conns == s.conns[id := ClientOf(t, id)] && !Moderated(ClientOf(t, id)) && ClientOf(t, id).room == ""
    requires ClientOf(t, id).stage.Naming? || ClientOf(t, id).stage.Finished?
    ensures Owned(t)
  {
    forall name | name in t.clients ensures KeyOwned(t, name) {
      hide KeyOwned;
      OfKey(s, name);
      KeyStays(s, t, name);
    }
    forall room, name | name in Members(t, room) ensures MemberOwned(t, room, name) {
      hide MemberOwned;
      OfMember(s, room, name);
      MemberStays(s, t, room, name);
    }
    forall x | x in t.conns ensures ConnOwned(t, x) {
      if x != id {
        hide ConnOwned;
        ConnStays(s, t, x);
      }
    }
    hide KeyOwned, MemberOwned, ConnOwned;
    OwnedIf(t);
  }

  lemma SubmitNameOwned(s: Server, id: ConnId, name: string)
    requires Owned(s) && ClientOf(s, id).stage.Naming?
    ensures Owned(SubmitName(s, id, name))
  {
    hide Owned, ValidName, Reserved;
    if ValidName(name) && !Reserved(name) && name !in s.clients {
      OfConn(s, id);
      Registration(s, SubmitName(s, id, name), id, name);
    }
  }

  lemma Registration(s: Server, t: Server, id: ConnId, name: string)
    requires Owned(s) && ClientOf(s, id).stage.Naming? && !Moderated(ClientOf(s, id)) && ClientOf(s, id).room == ""
    requires ValidName(name) && !Reserved(name) && name !in s.clients
    requires t.rooms == s.rooms && t.clients == s.clients[name := id]
    requires exists admin :: t.conns == s.conns[id := ClientOf(s, id).(username := name, stage := Choosing, admin := admin)]
    ensures Owned(t)
  {
    hide ValidName, Reserved, Owned;
    var admin :| t.conns == s.conns[id := ClientOf(s, id).(username := name, stage := Choosing, admin := admin)];
    forall n | n in t.clients ensures KeyOwned(t, n) {
      if n != name {
        hide KeyOwned;
        OfKey(s, n);
        KeyStays(s, t, n);
      }
    }
    forall room, n | n in Members(t, room) ensures MemberOwned(t, room, n) {
      hide MemberOwned;
      OfMember(s, room, n);
      MemberStays(s, t, room, n);
    }
    forall x | x in t.conns ensures ConnOwned(t, x) {
      if x != id {
        hide ConnOwned;
        ConnStays(s, t, x);
      }
    }
    assert DEFAULT_ROOM in t.rooms by { DefaultExists(s); }
    hide KeyOwned, MemberOwned, ConnOwned;
    OwnedIf(t);
  }

  lemma DefaultExists(s: Server)
    requires Owned(s)
    ensures DEFAULT_ROOM in s.rooms
  {
  }

  /** The links after a pending connection has joined a room. */
  function Joined(s: Server, id: ConnId, room: string): Server {
    var t := JoinRoom(s, id, room);
    WithClient(t, id, ClientOf(t, id).(stage := Active))
  }

  lemma EnterRoomLinks(s: Server, id: ConnId, room: string, now: Moment)
    ensures SameLinks(Joined(s, id, room), EnterRoom(s, id, room, now))
  {
    hide JoinRoom, Publish, SameLinks;
    var joined := JoinRoom(s, id, room);
    var c := ClientOf(joined, id);
    var settled := WithClient(SendHistory(joined, id, room), id, c.(stage := Active));
    HeardLinks(Joined(s, id, room), settled);
    PublishLinks(settled, room, Note(now, Kind.Join, c.username, "", ""), c.username);
    SameLinksTrans(Joined(s, id, room), settled, EnterRoom(s, id, room, now));
  }

  lemma HeardLinks(s: Server, t: Server)
    requires t == s.(heard := t.heard)
    ensures SameLinks(s, t)
  {
  }

  lemma JoinedShape(s: Server, id: ConnId, room: string)
    requires ClientOf(s, id).room == "" && ValidName(room)
    ensures var t := Joined(s, id, room);
            var c := ClientOf(s, id);
            && t.clients == s.clients
            && t.conns == s.conns[id := c.(room := room, stage := Active)]
            && (forall r :: Members(t, r) == if r == room then Members(s, room)[c.username := id] else Members(s, r))
            && (DEFAULT_ROOM in s.rooms ==> DEFAULT_ROOM in t.rooms)
  {
    hide ValidName;
  }

  /** A pending connection can join exactly when it has not been kicked or banned meanwhile. */
  lemma JoinOwned(s: Server, id: ConnId, room: string)
    requires Owned(s) && Pending(ClientOf(s, id).stage) && ValidName(room)
    ensures Owned(Joined(s, id, room)) <==> !Moderated(ClientOf(s, id))
  {
    hide Owned, ConnOwned, ValidName, Joined;
    OfConn(s, id);
    assert ClientOf(s, id).room == "" by { PendingRoom(s, id); }
    JoinedShape(s, id, room);
    if Moderated(ClientOf(s, id)) {
      if Owned(Joined(s, id, room)) {
        OfMember(Joined(s, id, room), room, ClientOf(s, id).username);
        assert false;
      }
    } else {
      UnmoderatedJoin(s, Joined(s, id, room), id, room);
    }
  }

  lemma PendingRoom(s: Server, id: ConnId)
    requires Owned(s) && Pending(ClientOf(s, id).stage)
    ensures ClientOf(s, id).room == ""
    ensures !Moderated(ClientOf(s, id)) ==> Registered(s, id)
  {
    hide Owned;
    OfConn(s, id);
  }

  lemma UnmoderatedJoin(s: Server, t: Server, id: ConnId, room: string)
    requires Owned(s) && Pending(ClientOf(s, id).stage) && !Moderated(ClientOf(s, id)) && ValidName(room)
    requires var c := ClientOf(s, id);
            && t.clients == s.clients
            && t.conns == s.conns[id := c.(room := room, stage := Active)]
            && (forall r :: Members(t, r) == if r == room then Members(s, room)[c.username := id] else Members(s, r))
            && (DEFAULT_ROOM in s.rooms ==> DEFAULT_ROOM in t.rooms)
    ensures Owned(t)
  {
    hide Owned, Reserved;
    var c := ClientOf(s, id);
    PendingRoom(s, id);
    OfKey(s, c.username);
    DefaultExists(s);
    assert room != "";
    hide ValidName;
    forall n | n in t.clients ensures KeyOwned(t, n) {
      OfKey(s, n);
      if n != c.username {
        hide KeyOwned;
        KeyStays(s, t, n);
      }
    }
    forall r, n | n in Members(t, r) ensures MemberOwned(t, r, n) {
      if r != room || n != c.username {
        hide MemberOwned;
        OfMember(s, r, n);
        MemberStays(s, t, r, n);
      }
    }
    forall x | x in t.conns ensures ConnOwned(t, x) {
      if x != id {
        hide ConnOwned;
        ConnStays(s, t, x);
      }
    }
    hide KeyOwned, MemberOwned, ConnOwned;
    OwnedIf(t);
  }

  lemma RemoveClientShape(s: Server, name: string)
    requires Owned(s) && name in s.clients
    ensures var t := RemoveClient(s, name);
            && t.clients == s.clients - {name}
            && t.conns == s.conns
            && (forall r :: Members(t, r) == Members(s, r) - {name})
            && (DEFAULT_ROOM in s.rooms ==> DEFAULT_ROOM in t.rooms)
  {
    hide Owned;
    var room := ClientOf(s, s.clients[name]).room;
    forall r ensures Members(RemoveClient(s, name), r) == Members(s, r) - {name} {
      if name in Members(s, r) {
        OfMember(s, r, name);
      }
    }
  }

  /** Taking a name out of both indexes is harmless once its connection no longer needs it. */
  lemma Removal(s: Server, t: Server, id: ConnId, name: string)
    requires Owned(s) && name in s.clients && s.clients[name] == id
    requires t.clients == s.clients - {name} && (forall r :: Members(t, r) == Members(s, r) - {name})
    requires t.conns == s.conns[id := ClientOf(t, id)] && DEFAULT_ROOM in t.rooms
    requires ConnOwned(t, id)
    ensures Owned(t)
  {
    hide Owned, ValidName, Reserved, ConnOwned;
    OfKey(s, name);
    forall n | n in t.clients ensures KeyOwned(t, n) {
      hide KeyOwned;
      OfKey(s, n);
      KeyStays(s, t, n);
    }
    forall r, n | n in Members(t, r) ensures MemberOwned(t, r, n) {
      hide MemberOwned;
      OfMember(s, r, n);
      MemberStays(s, t, r, n);
    }
    forall x | x in t.conns ensures ConnOwned(t, x) {
      if x != id {
        ConnStays(s, t, x);
      }
    }
    hide KeyOwned, MemberOwned;
    OwnedIf(t);
  }

  /** A pending connection can leave exactly when the name it removes is still its own or nobody's. */
  lemma FinishOwned(s: Server, id: ConnId)
    requires Owned(s) && Pending(ClientOf(s, id).stage)
    ensures Owned(FinishPending(s, id)) <==> (Moderated(ClientOf(s, id)) ==> ClientOf(s, id).username !in s.clients)
  {
    hide Owned, ConnOwned, ValidName, RemoveClient;
    var c := ClientOf(s, id);
    var t := FinishPending(s, id);
    PendingRoom(s, id);
    DefaultExists(s);
    if c.username !in s.clients {
      assert RemoveClient(s, c.username) == s by { AbsentName(s, c.username); }
      LinksOnlyOf(s, t, id);
    } else {
      OfKey(s, c.username);
      RemoveClientShape(s, c.username);
      var other := s.clients[c.username];
      if other == id {
        assert ConnOwned(t, id) by { FinishedOwned(t, id); }
        Removal(s, t, id, c.username);
      } else if Owned(t) {
        LostName(t, other);
        assert false;
      }
    }
  }

  lemma AbsentName(s: Server, name: string)
    requires name !in s.clients
    ensures RemoveClient(s, name) == s
  {
  }

  lemma FinishedOwned(t: Server, id: ConnId)
    requires ClientOf(t, id).stage.Finished? && ClientOf(t, id).closed
    ensures ConnOwned(t, id)
  {
  }

  lemma LostName(t: Server, id: ConnId)
    requires Owned(t) && id in t.conns && !Moderated(ClientOf(t, id))
    requires Pending(ClientOf(t, id).stage) || ClientOf(t, id).stage.Active?
    ensures Registered(t, id)
  {
    hide Owned;
    OfConn(t, id);
  }

  /** Finishing a connection that owns no name. */
  lemma LinksOnlyOf(s: Server, t: Server, id: ConnId)
    requires Owned(s) && !Registered(s, id) && t.clients == s.clients && t.rooms == s.rooms
    requires t.conns == s.conns[id := ClientOf(t, id)] && ClientOf(t, id).stage.Finished? && ClientOf(t, id).closed
    ensures Owned(t)
  {
    hide Owned, ValidName, Reserved;
    DefaultExists(s);
    forall n | n in t.clients ensures KeyOwned(t, n) {
      hide KeyOwned;
      OfKey(s, n);
      KeyStays(s, t, n);
    }
    forall r, n | n in Members(t, r) ensures MemberOwned(t, r, n) {
      hide MemberOwned;
      OfMember(s, r, n);
      MemberStays(s, t, r, n);
    }
    forall x | x in t.conns ensures ConnOwned(t, x) {
      if x != id {
        hide ConnOwned;
        ConnStays(s, t, x);
      }
    }
    hide KeyOwned, MemberOwned, ConnOwned;
    OwnedIf(t);
  }

  // ---------- session commands ----------

  lemma ActiveFacts(s: Server, id: ConnId)
    requires Owned(s) && ClientOf(s, id).stage.Active?
    ensures id in s.conns && ValidName(ClientOf(s, id).room)
    ensures Moderated(ClientOf(s, id)) ==> ClientOf(s, id).closed
    ensures !Moderated(ClientOf(s, id)) ==> Registered(s, id)
  {
    hide Owned, ValidName;
    OfConn(s, id);
  }

  lemma MoveShape(s: Server, id: ConnId, room: string)
    requires Owned(s) && Registered(s, id) && ClientOf(s, id).stage.Active?
    ensures var t := JoinRoom(s, id, room);
            var c := ClientOf(s, id);
            && t.clients == s.clients
            && t.conns == s.conns[id := c.(room := room)]
            && (forall r :: Members(t, r) == if r == room then (Members(s, r) - {c.username})[c.username := id] else Members(s, r) - {c.username})
            && (DEFAULT_ROOM in s.rooms ==> DEFAULT_ROOM in t.rooms)
  {
    hide Owned, ValidName, Reserved;
    var c := ClientOf(s, id);
    OfKey(s, c.username);
    forall r ensures c.username in Members(s, r) ==> r == c.room {
      if c.username in Members(s, r) {
        OfMember(s, r, c.username);
      }
    }
    WithoutShape(s, c.room, c.username);
    JoinShape(s, id, room);
  }

  lemma WithoutShape(s: Server, room: string, name: string)
    requires forall r :: name in Members(s, r) ==> r == room
    requires room != ""
    ensures forall r :: Members(s.(rooms := Without(s.rooms, room, name)), r) == Members(s, r) - {name}
    ensures Without(s.rooms, room, name).Keys == s.rooms.Keys
  {
  }

  lemma JoinShape(s: Server, id: ConnId, room: string)
    ensures var c := ClientOf(s, id);
            var left := s.(rooms := Without(s.rooms, c.room, c.username));
            var t := JoinRoom(s, id, room);
            && t.clients == s.clients && t.conns == s.conns[id := c.(room := room)]
            && t.rooms.Keys == left.rooms.Keys + {room}
            && forall r :: Members(t, r) == if r == room then Members(left, room)[c.username := id] else Members(left, r)
  {
  }

  lemma MoveOwned(s: Server, id: ConnId, room: string)
    requires Owned(s) && ClientOf(s, id).stage.Active? && Registered(s, id) && ValidName(room)
    ensures Owned(JoinRoom(s, id, room))
  {
    hide Owned, JoinRoom, Reserved;
    var c, t := ClientOf(s, id), JoinRoom(s, id, room);
    MoveShape(s, id, room);
    DefaultExists(s);
    OfKey(s, c.username);
    assert room != "";
    hide ValidName;
    forall n | n in t.clients ensures KeyOwned(t, n) {
      OfKey(s, n);
      if n != c.username {
        hide KeyOwned;
        KeyStays(s, t, n);
      }
    }
    forall r, n | n in Members(t, r) ensures MemberOwned(t, r, n) {
      if n != c.username {
        hide MemberOwned;
        OfMember(s, r, n);
        MemberStays(s, t, r, n);
      }
    }
    forall x | x in t.conns ensures ConnOwned(t, x) {
      if x != id {
        hide ConnOwned;
        ConnStays(s, t, x);
      }
    }
    hide KeyOwned, MemberOwned, ConnOwned;
    OwnedIf(t);
  }

  lemma RenameShape(s: Server, id: ConnId, newName: string)
    requires Owned(s) && Registered(s, id) && ClientOf(s, id).stage.Active?
    requires newName !in s.clients && !Reserved(newName)
    ensures var t := RenameClient(s, id, ClientOf(s, id).username, newName).0;
            var c := ClientOf(s, id);
            && t.clients == (s.clients - {c.username})[newName := id]
            && t.conns == s.conns[id := c.(username := newName)]
            && (forall r :: Members(t, r) == if r == c.room then (Members(s, r) - {c.username})[newName := id] else Members(s, r) - {c.username})
            && (DEFAULT_ROOM in s.rooms ==> DEFAULT_ROOM in t.rooms)
  {
    hide Owned, ValidName, Reserved;
    var c := ClientOf(s, id);
    OfKey(s, c.username);
    forall r ensures c.username in Members(s, r) ==> r == c.room {
      if c.username in Members(s, r) {
        OfMember(s, r, c.username);
      }
    }
    WithoutShape(s, c.room, c.username);
    RenameRooms(s, id, c.username, newName);
  }

  lemma RenameRooms(s: Server, id: ConnId, oldName: string, newName: string)
    requires newName !in s.clients && !Reserved(newName)
    requires ClientOf(s, id).room != "" && ClientOf(s, id).room in s.rooms
    ensures var t := RenameClient(s, id, oldName, newName).0;
            var c := ClientOf(s, id);
            var left := s.(rooms := Without(s.rooms, c.room, oldName));
            && t.clients == (s.clients - {oldName})[newName := id]
            && t.conns == s.conns[id := c.(username := newName)]
            && t.rooms.Keys == s.rooms.Keys
            && forall r :: Members(t, r) == if r == c.room then Members(left, r)[newName := id] else Members(left, r)
  {
    hide Reserved;
  }

  lemma RenameClientOwned(s: Server, id: ConnId, newName: string)
    requires Owned(s) && ClientOf(s, id).stage.Active? && Registered(s, id)
    requires ValidName(newName) && newName !in s.clients && !Reserved(newName)
    ensures Owned(RenameClient(s, id, ClientOf(s, id).username, newName).0)
  {
    hide Owned, RenameClient, ValidName, Reserved;
    var c, t := ClientOf(s, id), RenameClient(s, id, ClientOf(s, id).username, newName).0;
    RenameShape(s, id, newName);
    DefaultExists(s);
    OfKey(s, c.username);
    forall n | n in t.clients ensures KeyOwned(t, n) {
      if n != newName {
        hide KeyOwned;
        OfKey(s, n);
        KeyStays(s, t, n);
      }
    }
    forall r, n | n in Members(t, r) ensures MemberOwned(t, r, n) {
      if n == newName {
        if r != c.room { OfMember(s, r, n); }
      } else {
        hide MemberOwned;
        OfMember(s, r, n);
        MemberStays(s, t, r, n);
      }
    }
    forall x | x in t.conns ensures ConnOwned(t, x) {
      if x == id {
        OfConn(s, id);
      } else {
        hide ConnOwned;
        ConnStays(s, t, x);
      }
    }
    hide KeyOwned, MemberOwned, ConnOwned;
    OwnedIf(t);
  }

  // ---------- moderation ----------

  /** Links after a registered client has been expelled. */
  function ExpelledLinks(s: Server, id: ConnId, name: string, verdict: Reason): Server {
    RemoveClient(WithClient(s, id, ClientOf(s, id).(reason := verdict, closed := true)), name)
  }

  lemma ExpelLinks(s: Server, id: ConnId, name: string, verdict: Reason, issuer: string, now: Moment)
    ensures SameLinks(ExpelledLinks(s, id, name, verdict), Expel(s, id, name, verdict, issuer, now))
    ensures Expel(s, id, name, verdict, issuer, now).conns == s.conns[id := ClientOf(s, id).(reason := verdict, closed := true)]
  {
    hide SameLinks, Publish, Verb;
    var c := ClientOf(s, id);
    var t := RemoveClient(WithClient(s, id, c.(reason := verdict)), name);
    var m := Note(now, Moderation, name, Verb(verdict), issuer);
    PublishShape(t, c.room, m, "");
    RemovalIgnoresFlags(s, id, name, verdict);
    ClosedShape(ExpelledLinks(s, id, name, verdict), t, Publish(t, c.room, m, ""), id);
  }

  lemma PublishShape(s: Server, room: string, m: Message, exclude: string)
    ensures var t := Publish(s, room, m, exclude);
            t.conns == s.conns && t.clients == s.clients && (forall r :: Members(t, r) == Members(s, r))
            && (DEFAULT_ROOM in s.rooms ==> DEFAULT_ROOM in t.rooms)
  {
  }

  lemma RemovalIgnoresFlags(s: Server, id: ConnId, name: string, verdict: Reason)
    ensures var t := RemoveClient(WithClient(s, id, ClientOf(s, id).(reason := verdict)), name);
            var u := ExpelledLinks(s, id, name, verdict);
            t.clients == u.clients && t.rooms == u.rooms
            && t.conns == s.conns[id := ClientOf(s, id).(reason := verdict)]
            && u.conns == s.conns[id := ClientOf(s, id).(reason := verdict, closed := true)]
  {
  }

  lemma ClosedShape(u: Server, t: Server, p: Server, id: ConnId)
    requires t.clients == u.clients && t.rooms == u.rooms && p.conns == t.conns && p.clients == t.clients
    requires (forall r :: Members(p, r) == Members(t, r)) && (DEFAULT_ROOM in t.rooms ==> DEFAULT_ROOM in p.rooms)
    requires id in t.conns && u.conns == t.conns[id := t.conns[id].(closed := true)]
    ensures SameLinks(u, CloseConn(p, id)) && CloseConn(p, id).conns == u.conns
  {
    assert forall r :: Members(CloseConn(p, id), r) == Members(p, r) && Members(u, r) == Members(t, r);
  }

  lemma ExpelOwned(s: Server, id: ConnId, verdict: Reason, issuer: string, now: Moment)
    requires Owned(s) && id in s.conns && Registered(s, id) && verdict in {Kicked, Banned}
    ensures var t := Expel(s, id, ClientOf(s, id).username, verdict, issuer, now);
            && Owned(t)
            && t.clients == s.clients - {ClientOf(s, id).username}
            && t.conns == s.conns[id := ClientOf(s, id).(reason := verdict, closed := true)]
  {
    hide Owned, ConnOwned, SameLinks, Expel;
    var c := ClientOf(s, id);
    var t := ExpelledLinks(s, id, c.username, verdict);
    ExpelledShape(s, id, verdict);
    DefaultExists(s);
    ExpelledConn(s, t, id);
    Removal(s, t, id, c.username);
    ExpelLinks(s, id, c.username, verdict, issuer, now);
    SameLinksOwned(t, Expel(s, id, c.username, verdict, issuer, now));
    assert t.clients == Expel(s, id, c.username, verdict, issuer, now).clients by { SameClients(t, Expel(s, id, c.username, verdict, issuer, now)); }
  }

  lemma SameClients(s: Server, t: Server)
    requires SameLinks(s, t)
    ensures s.clients == t.clients
  {
  }

  lemma ExpelledShape(s: Server, id: ConnId, verdict: Reason)
    requires Owned(s) && id in s.conns && Registered(s, id)
    ensures var t := ExpelledLinks(s, id, ClientOf(s, id).username, verdict);
            && t.clients == s.clients - {ClientOf(s, id).username}
            && t.conns == s.conns[id := ClientOf(s, id).(reason := verdict, closed := true)]
            && (forall r :: Members(t, r) == Members(s, r) - {ClientOf(s, id).username})
            && (DEFAULT_ROOM in s.rooms ==> DEFAULT_ROOM in t.rooms)
  {
    hide Owned;
    RemoveClientShape(s, ClientOf(s, id).username);
    assert ExpelledLinks(s, id, ClientOf(s, id).username, verdict).rooms == RemoveClient(s, ClientOf(s, id).username).rooms;
  }

  lemma ExpelledConn(s: Server, t: Server, id: ConnId)
    requires Owned(s) && id in s.conns && Registered(s, id)
    requires SameButBanned(ClientOf(s, id), ClientOf(t, id))
    ensures ConnOwned(t, id)
  {
    hide Owned;
    OfConn(s, id);
    OfKey(s, ClientOf(s, id).username);
    var d := ClientOf(t, id);
    assert Pending(d.stage) ==> d.room == "" && (!d.stage.Choosing? ==> ValidName(d.stage.room));
    assert d.stage.Active? ==> ValidName(d.room);
  }

  predicate SameButBanned(c: Client, d: Client) {
    d.username == c.username && d.room == c.room && d.stage == c.stage && Moderated(d) && d.closed
  }
}
