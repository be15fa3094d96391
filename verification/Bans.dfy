/** A ban reaches everyone on the host, nobody else, and refills exactly the places it opened. */
module Bans {
  import opened Messages
  import opened ServerState
  import opened Commands
  import opened Ownership
  import opened OwnershipRuns
  import opened Queues
  import opened QueueRuns
  import opened Indexes
  import opened Grounds

  // ---------- the queue purge is a stable filter ----------

  lemma {:induction false} NothingDropped(s: Server, queue: seq<Entry>, host: string)
    requires Dropped(s, queue, host) == []
    ensures Kept(s, queue, host) == queue
  {
    if queue != [] {
      NothingDropped(s, queue[..|queue| - 1], host);
    }
  }

  lemma {:induction false} SameHostsKept(s: Server, t: Server, queue: seq<Entry>, host: string)
    requires forall e <- queue :: HasHost(t, e.client, host) == HasHost(s, e.client, host)
    ensures Kept(t, queue, host) == Kept(s, queue, host) && Dropped(t, queue, host) == Dropped(s, queue, host)
  {
    hide HasHost;
    if queue != [] {
      assert queue[|queue| - 1] in queue && forall e <- queue[..|queue| - 1] :: e in queue;
      SameHostsKept(s, t, queue[..|queue| - 1], host);
    }
  }

  /** The clients dropped from the visited rooms, in visiting order. */
  function DroppedAlong(s: Server, host: string, visit: seq<string>): seq<ConnId> {
    if visit == [] then []
    else DroppedAlong(s, host, visit[..|visit| - 1]) + Dropped(s, Queue(s, visit[|visit| - 1]), host)
  }

  /** t is s with the entries of one host taken out of the queues of some rooms. */
  ghost predicate Filtered(s: Server, t: Server, host: string, rooms: seq<string>) {
    && t.conns == s.conns && t.clients == s.clients && t.tickets == s.tickets && t.admitted == s.admitted
    && t.shuttingDown == s.shuttingDown
    && (forall room :: Queue(t, room) == if room in rooms then Kept(s, Queue(s, room), host) else Queue(s, room))
  }

  /** Whatever order the rooms are visited in, every visited queue keeps exactly the entries of other hosts, in order,
      and the clients returned are exactly the dropped ones. */
  lemma {:induction false} PurgeIsStableFilter(s: Server, host: string, visit: seq<string>)
    requires forall i, j :: 0 <= i < j < |visit| ==> visit[i] != visit[j]
    ensures Filtered(s, Purge(s, host, visit).0, host, visit)
    ensures Purge(s, host, visit).1 == DroppedAlong(s, host, visit)
  {
    hide Kept, Dropped, Renumber, Filtered, Queue;
    if visit == [] {
      NothingVisited(s, host);
    } else {
      var init, room := visit[..|visit| - 1], visit[|visit| - 1];
      assert visit == init + [room];
      assert room !in init;
      PurgeIsStableFilter(s, host, init);
      PurgeStep(s, host, visit);
      VisitOne(s, Purge(s, host, init).0, Purge(s, host, visit).0, host, init, room, Purge(s, host, init).1);
    }
  }

  lemma NothingVisited(s: Server, host: string)
    ensures Filtered(s, s, host, [])
  {
  }

  lemma VisitOne(s: Server, t: Server, u: Server, host: string, init: seq<string>, room: string, removed: seq<ConnId>)
    requires Filtered(s, t, host, init) && room !in init
    requires var kept := Kept(t, Queue(t, room), host);
             u == if removed + Dropped(t, Queue(t, room), host) == [] then t
                  else WithQueue(t, room, kept).(position := Renumber(t.position, kept))
    ensures Filtered(s, u, host, init + [room])
    ensures Dropped(t, Queue(t, room), host) == Dropped(s, Queue(s, room), host)
  {
    hide Kept, Dropped, Renumber, Queue, WithQueue;
    SameHostsKept(s, t, Queue(s, room), host);
    var kept := Kept(t, Queue(t, room), host);
    TwoQueues(t, room, kept, Renumber(t.position, kept));
    OnlyQueues(t, room, kept, Renumber(t.position, kept));
    if Dropped(t, Queue(t, room), host) == [] {
      NothingDropped(t, Queue(t, room), host);
    }
  }

  lemma OnlyQueues(s: Server, room: string, queue: seq<Entry>, position: map<ConnId, nat>)
    ensures var t := WithQueue(s, room, queue).(position := position);
            && t.conns == s.conns && t.clients == s.clients && t.tickets == s.tickets && t.admitted == s.admitted
            && t.shuttingDown == s.shuttingDown
  {
  }

  /** A sweep that finds nobody leaves everything as it was. */
  lemma {:induction false} NothingSwept(s: Server, host: string, visit: seq<string>)
    ensures Purge(s, host, visit).1 == [] ==> Purge(s, host, visit).0 == s && PurgeAndClose(s, host, visit) == s
  {
    if visit != [] {
      NothingSwept(s, host, visit[..|visit| - 1]);
    }
  }

  lemma {:induction false} CloseAllFrame(s: Server, ids: seq<ConnId>)
    ensures var t := CloseAll(s, ids);
            && t == s.(conns := t.conns)
            && (forall id :: id !in ids ==> ClientOf(t, id) == ClientOf(s, id))
            && (forall id :: ClientOf(t, id) == ClientOf(s, id) || ClientOf(t, id) == ClientOf(s, id).(closed := true))
  {
    if ids != [] {
      CloseAllFrame(s, ids[..|ids| - 1]);
    }
  }

  lemma {:induction false} DroppedHaveHost(s: Server, queue: seq<Entry>, host: string)
    ensures forall id :: id in Dropped(s, queue, host) <==> exists e :: e in queue && e.client == id && HasHost(s, id, host)
  {
    if queue != [] {
      var init, e := queue[..|queue| - 1], queue[|queue| - 1];
      DroppedHaveHost(s, init, host);
      assert queue == init + [e];
    }
  }

  lemma {:induction false} DroppedAlongHaveHost(s: Server, host: string, visit: seq<string>)
    ensures forall id <- DroppedAlong(s, host, visit) :: HasHost(s, id, host)
  {
    hide HasHost, Dropped;
    if visit != [] {
      DroppedAlongHaveHost(s, host, visit[..|visit| - 1]);
      DroppedHaveHost(s, Queue(s, visit[|visit| - 1]), host);
    }
  }

  // ---------- repeated admission ----------

  /** Tickets of the live entries, front first. */
  function LiveTickets(s: Server, queue: seq<Entry>): seq<nat> {
    if queue == [] then []
    else (if ClientOf(s, queue[0].client).closed then [] else [queue[0].ticket]) + LiveTickets(s, queue[1..])
  }

  function Min(a: nat, b: nat): nat { if a < b then a else b }

  lemma {:induction false} LiveAfterFirst(s: Server, queue: seq<Entry>)
    ensures var k := ClosedAhead(s, queue);
            if k == |queue| then LiveTickets(s, queue) == []
            else LiveTickets(s, queue) == [queue[k].ticket] + LiveTickets(s, queue[k + 1..])
  {
    if queue != [] && ClientOf(s, queue[0].client).closed {
      LiveAfterFirst(s, queue[1..]);
      var k := ClosedAhead(s, queue);
      if k < |queue| {
        assert queue[1..][k..] == queue[k + 1..];
      }
    }
  }

  lemma {:induction false} SameLive(s: Server, t: Server, queue: seq<Entry>)
    requires forall e <- queue :: ClientOf(t, e.client).closed == ClientOf(s, e.client).closed
    ensures LiveTickets(t, queue) == LiveTickets(s, queue)
  {
    if queue != [] {
      assert queue[0] in queue && forall e <- queue[1..] :: e in queue;
      SameLive(s, t, queue[1..]);
    }
  }

  /** A queue with its front cut off. */
  ghost predicate IsTail(queue: seq<Entry>, tail: seq<Entry>) {
    exists k: nat :: k <= |queue| && tail == queue[k..]
  }

  lemma TailOfTail(a: seq<Entry>, b: seq<Entry>, c: seq<Entry>)
    requires IsTail(a, b) && IsTail(b, c)
    ensures IsTail(a, c)
  {
    var j: nat :| j <= |a| && b == a[j..];
    var k: nat :| k <= |b| && c == b[k..];
    assert c == a[j + k..];
  }

  /** One admit call from the live-ticket point of view. */
  lemma AdmitEffect(s: Server, room: string)
    requires !s.shuttingDown
    ensures var t := Admit(s, room);
            var live := LiveTickets(s, Queue(s, room));
            && t.conns == s.conns && t.clients == s.clients && t.tickets == s.tickets && !t.shuttingDown
            && (forall r :: r != room ==> Queue(t, r) == Queue(s, r))
            && IsTail(Queue(s, room), Queue(t, room))
            && t.admitted == s.admitted + live[..Min(1, |live|)]
            && LiveTickets(t, Queue(t, room)) == live[Min(1, |live|)..]
  {
    hide Renumber;
    var queue := Queue(s, room);
    var k := ClosedAhead(s, queue);
    LiveAfterFirst(s, queue);
    hide ClosedAhead;
    if room !in s.rooms || k == |queue| {
      assert Queue(Admit(s, room), room) == queue[|queue|..];
      assert IsTail(queue, queue[|queue|..]);
    } else {
      assert IsTail(queue, queue[k + 1..]);
      SameLive(s, Admit(s, room), queue[k + 1..]);
    }
  }

  /** n admit calls admit exactly the first min(n, live) live entries of the room, in order. */
  lemma {:induction false} AdmitTimesEffect(s: Server, room: string, n: nat)
    requires !s.shuttingDown
    ensures var t := AdmitTimes(s, room, n);
            var live := LiveTickets(s, Queue(s, room));
            && t.conns == s.conns && t.clients == s.clients && t.tickets == s.tickets && !t.shuttingDown
            && (forall r :: r != room ==> Queue(t, r) == Queue(s, r))
            && IsTail(Queue(s, room), Queue(t, room))
            && t.admitted == s.admitted + live[..Min(n, |live|)]
            && LiveTickets(t, Queue(t, room)) == live[Min(n, |live|)..]
  {
    hide Admit, LiveTickets, IsTail;
    if n == 0 {
      assert IsTail(Queue(s, room), Queue(s, room)) by { WholeTail(Queue(s, room)); }
    } else {
      AdmitTimesEffect(s, room, n - 1);
      var t := AdmitTimes(s, room, n - 1);
      AdmitEffect(t, room);
      TailOfTail(Queue(s, room), Queue(t, room), Queue(Admit(t, room), room));
      TakeOneMore(LiveTickets(s, Queue(s, room)), n);
    }
  }

  lemma WholeTail(queue: seq<Entry>)
    ensures IsTail(queue, queue)
  {
    assert queue == queue[0..];
  }

  lemma TakeOneMore(live: seq<nat>, n: nat)
    requires n > 0
    ensures var k := Min(n - 1, |live|);
            var rest := live[k..];
            var m := Min(1, |rest|);
            live[..k] + rest[..m] == live[..Min(n, |live|)] && rest[m..] == live[Min(n, |live|)..]
  {
  }

  lemma {:induction false} AdmittedForConcat(s: Server, a: seq<nat>, b: seq<nat>, room: string)
    ensures AdmittedFor(s, a + b, room) == AdmittedFor(s, a, room) + AdmittedFor(s, b, room)
  {
    hide OfRoom;
    var all := a + b;
    if b == [] {
      assert all == a;
    } else {
      assert all[..|all| - 1] == a + b[..|b| - 1] && all[|all| - 1] == b[|b| - 1];
      AdmittedForConcat(s, a, b[..|b| - 1], room);
    }
  }

  lemma {:induction false} AdmittedForAll(s: Server, ts: seq<nat>, room: string)
    requires forall t <- ts :: OfRoom(s, t, room)
    ensures AdmittedFor(s, ts, room) == ts
  {
    hide OfRoom;
    if ts != [] {
      assert ts[|ts| - 1] in ts && forall t <- ts[..|ts| - 1] :: t in ts;
      AdmittedForAll(s, ts[..|ts| - 1], room);
    }
  }

  lemma {:induction false} AdmittedForNone(s: Server, ts: seq<nat>, room: string)
    requires forall t <- ts :: !OfRoom(s, t, room)
    ensures AdmittedFor(s, ts, room) == []
  {
    hide OfRoom;
    if ts != [] {
      assert ts[|ts| - 1] in ts && forall t <- ts[..|ts| - 1] :: t in ts;
      AdmittedForNone(s, ts[..|ts| - 1], room);
    }
  }

  lemma {:induction false} LiveTicketsOf(s: Server, queue: seq<Entry>)
    ensures forall t <- LiveTickets(s, queue) :: exists e :: e in queue && e.ticket == t
  {
    if queue != [] {
      LiveTicketsOf(s, queue[1..]);
      assert queue[0] in queue && forall e <- queue[1..] :: e in queue;
    }
  }

  /** Admissions and remaining queue of one room after it got n places. */
  ghost predicate Refilled(s: Server, t: Server, room: string, n: nat) {
    var live := LiveTickets(s, Queue(s, room));
    && AdmittedFor(t, t.admitted, room) == AdmittedFor(s, s.admitted, room) + live[..Min(n, |live|)]
    && LiveTickets(t, Queue(t, room)) == live[Min(n, |live|)..]
    && IsTail(Queue(s, room), Queue(t, room))
  }

  lemma RoomRefill(s: Server, room: string, n: nat, r: string)
    requires QueuesOk(s) && !s.shuttingDown
    ensures Refilled(s, AdmitTimes(s, room, n), r, if r == room then n else 0)
  {
    hide QueuesOk, AdmitTimes, LiveTickets, IsTail, AdmittedFor, OfRoom, Refilled, Queue, ClientOf;
    AdmitTimesEffect(s, room, n);
    var t := AdmitTimes(s, room, n);
    var live := LiveTickets(s, Queue(s, room));
    var taken := live[..Min(n, |live|)];
    LiveOfRoom(s, room, r);
    AdmittedForConcat(s, s.admitted, taken, r);
    AdmittedForSame(s, t, t.admitted, r);
    if r == room {
      AdmittedForAll(s, taken, r);
      assert Refilled(s, t, r, n) by { RefilledIf(s, t, r, n); }
    } else {
      AdmittedForNone(s, taken, r);
      assert forall id :: ClientOf(t, id) == ClientOf(s, id) by { SameConns(s, t); }
      SameLive(s, t, Queue(s, r));
      WholeTail(Queue(s, r));
      var other := LiveTickets(s, Queue(s, r));
      assert other[..0] == [] && other[0..] == other;
      RefilledIf(s, t, r, 0);
    }
  }

  lemma SameConns(s: Server, t: Server)
    requires t.conns == s.conns
    ensures forall id :: ClientOf(t, id) == ClientOf(s, id)
  {
  }

  lemma RefilledIf(s: Server, t: Server, room: string, n: nat)
    requires var live := LiveTickets(s, Queue(s, room));
             AdmittedFor(t, t.admitted, room) == AdmittedFor(s, s.admitted, room) + live[..Min(n, |live|)]
             && LiveTickets(t, Queue(t, room)) == live[Min(n, |live|)..]
    requires IsTail(Queue(s, room), Queue(t, room))
    ensures Refilled(s, t, room, n)
  {
  }

  lemma LiveOfRoom(s: Server, room: string, r: string)
    requires QueuesOk(s)
    ensures forall x <- LiveTickets(s, Queue(s, room)) :: OfRoom(s, x, room) && (r != room ==> !OfRoom(s, x, r))
  {
    hide QueuesOk, LiveTickets, OfRoom, Queue;
    LiveTicketsOf(s, Queue(s, room));
    forall x | x in LiveTickets(s, Queue(s, room)) ensures OfRoom(s, x, room) && (r != room ==> !OfRoom(s, x, r)) {
      var e :| e in Queue(s, room) && e.ticket == x;
      QueuedEntry(s, room, e);
      EntryRoom(s, room, e, r);
    }
  }

  lemma EntryRoom(s: Server, room: string, e: Entry, r: string)
    requires EntryOk(s, room, e)
    ensures OfRoom(s, e.ticket, room) && (r != room ==> !OfRoom(s, e.ticket, r))
  {
  }

  lemma RefilledTrans(s: Server, t: Server, u: Server, room: string, n: nat)
    requires (Refilled(s, t, room, 0) && Refilled(t, u, room, n)) || (Refilled(s, t, room, n) && Refilled(t, u, room, 0))
    ensures Refilled(s, u, room, n)
  {
    hide LiveTickets, AdmittedFor, IsTail;
    TailOfTail(Queue(s, room), Queue(t, room), Queue(u, room));
    var live := LiveTickets(s, Queue(s, room));
    var a := AdmittedFor(s, s.admitted, room);
    assert live[..0] == [] && live[0..] == live && a + [] == a;
    assert live[..Min(n, |live|)] + [] == live[..Min(n, |live|)];
  }

  lemma {:induction false} RoomsRefilled(s: Server, rooms: seq<string>, ids: seq<ConnId>, r: string)
    requires QueuesOk(s) && !s.shuttingDown
    requires forall i, j :: 0 <= i < j < |rooms| ==> rooms[i] != rooms[j]
    ensures var t := AdmitRooms(s, rooms, ids);
            && QueuesOk(t) && !t.shuttingDown && t.conns == s.conns && t.clients == s.clients
            && Refilled(s, t, r, if r in rooms then SlotsOpened(s, ids, r) else 0)
  {
    hide QueuesOk, AdmitTimes, SlotsOpened, Refilled;
    if rooms == [] {
      assert Refilled(s, s, r, 0) by { RefilledSelf(s, r); }
    } else {
      var init, room := rooms[..|rooms| - 1], rooms[|rooms| - 1];
      assert rooms == init + [room];
      RoomsRefilled(s, init, ids, r);
      var t := AdmitRooms(s, init, ids);
      var n := SlotsOpened(s, ids, room);
      AdmitTimesOk(t, room, n);
      AdmitTimesEffect(t, room, n);
      RoomRefill(t, room, n, r);
      RefilledTrans(s, t, AdmitTimes(t, room, n), r, if r in rooms then SlotsOpened(s, ids, r) else 0);
    }
  }

  lemma RefilledSelf(s: Server, r: string)
    ensures Refilled(s, s, r, 0)
  {
    WholeTail(Queue(s, r));
    var live := LiveTickets(s, Queue(s, r));
    assert live[..0] == [] && live[0..] == live;
  }

  // ---------- expelling ----------

  /** Every key belongs to a connection that bears it. */
  ghost predicate Keyed(s: Server) {
    forall name :: name in s.clients ==> s.clients[name] in s.conns && ClientOf(s, s.clients[name]).username == name
  }

  lemma GroundedIsKeyed(s: Server)
    requires Grounded(s)
    ensures Keyed(s)
  {
    hide Grounded;
    forall name | name in s.clients ensures s.clients[name] in s.conns && ClientOf(s, s.clients[name]).username == name {
      assert KeyGrounded(s, name) by { KeyOfGrounded(s, name); }
    }
  }

  lemma KeyOfGrounded(s: Server, name: string)
    requires Grounded(s) && name in s.clients
    ensures KeyGrounded(s, name)
  {
  }

  lemma ExpelKeepsRooms(s: Server, id: ConnId, name: string, verdict: Reason, issuer: string, now: Moment)
    ensures forall x :: ClientOf(Expel(s, id, name, verdict, issuer, now), x).room == ClientOf(s, x).room
  {
    hide Expel, SameLinks;
    ExpelLinks(s, id, name, verdict, issuer, now);
  }

  lemma SweepKeepsRooms(s: Server, host: string, visit: seq<string>)
    ensures forall id :: ClientOf(PurgeAndClose(s, host, visit), id).room == ClientOf(s, id).room
  {
    hide Purge, CloseAll, PurgeAndClose;
    PurgeAndCloseLinks(s, host, visit);
  }

  // ---------- the whole ban ----------

  /** The name is taken out of the room together with the registration of one of these connections. */
  predicate Struck(s: Server, ids: seq<ConnId>, room: string, name: string) {
    room != "" && name in s.clients && s.clients[name] in ids && ClientOf(s, s.clients[name]).room == room
  }

  /** Facts about the state once these registered connections are out. */
  ghost predicate Emptied(s: Server, t: Server, ids: seq<ConnId>) {
    && SameData(s, t) && t.shuttingDown == s.shuttingDown
    && (forall name :: name in t.clients <==> name in s.clients && s.clients[name] !in ids)
    && (forall name :: name in t.clients ==> t.clients[name] == s.clients[name])
    && (forall room, name :: name in Members(t, room) <==> name in Members(s, room) && !Struck(s, ids, room, name))
    && (forall room, name :: name in Members(t, room) ==> Members(t, room)[name] == Members(s, room)[name])
    && (forall id :: id !in ids ==> ClientOf(t, id) == ClientOf(s, id))
    && (forall id :: id in s.conns ==> id in t.conns)
    && (forall id :: ClientOf(t, id).host == ClientOf(s, id).host && ClientOf(t, id).username == ClientOf(s, id).username
                     && ClientOf(t, id).room == ClientOf(s, id).room)
  }

  lemma EmptiedKeyed(s: Server, t: Server, ids: seq<ConnId>)
    requires Keyed(s) && Emptied(s, t, ids)
    ensures Keyed(t)
  {
    hide Members, SameData, Struck;
  }

  lemma ExpelKeepsRest(s: Server, id: ConnId, name: string, issuer: string, now: Moment)
    ensures Expel(s, id, name, Banned, issuer, now).shuttingDown == s.shuttingDown
  {
  }

  lemma ExpelEmpties(s: Server, id: ConnId, issuer: string, now: Moment)
    requires Keyed(s) && id in s.conns && Registered(s, id)
    ensures Emptied(s, Expel(s, id, ClientOf(s, id).username, Banned, issuer, now), [id])
  {
    hide Expel, SameData, Members, Emptied;
    var c := ClientOf(s, id);
    var name := c.username;
    var marked := WithClient(s, id, c.(reason := Banned, closed := true));
    var t := Expel(s, id, name, Banned, issuer, now);
    ExpelLinks(s, id, name, Banned, issuer, now);
    ExpelData(s, id, name, Banned, issuer, now);
    ExpelKeepsRest(s, id, name, issuer, now);
    forall room ensures Members(t, room) == if room == c.room && room != "" then Members(s, room) - {name} else Members(s, room) {
      RemoveMembers(marked, name, room);
      assert Members(marked, room) == Members(s, room) by { MarkedMembers(s, marked, room); }
    }
    assert t.clients == s.clients - {name} by { RemoveMembers(marked, name, ""); }
    forall room, n ensures n in Members(t, room) <==> n in Members(s, room) && !Struck(s, [id], room, n) {
      assert Struck(s, [id], room, n) <==> room != "" && room == c.room && n == name;
    }
    EmptiedIf(s, t, [id]);
  }

  lemma MarkedMembers(s: Server, t: Server, room: string)
    requires t.rooms == s.rooms
    ensures Members(t, room) == Members(s, room)
  {
  }

  lemma {:induction false} ExpelAllEmpties(s: Server, ids: seq<ConnId>, issuer: string, now: Moment)
    requires Keyed(s) && Distinct(ids) && forall id <- ids :: id in s.conns && Registered(s, id)
    ensures Emptied(s, ExpelAll(s, ids, issuer, now), ids)
  {
    hide Keyed, Expel, SameData, Members, Emptied, Struck;
    if ids == [] {
      NobodyEmptied(s);
    } else {
      var init, id := ids[..|ids| - 1], ids[|ids| - 1];
      DistinctInit(ids);
      assert forall x <- init :: x in ids;
      ExpelAllEmpties(s, init, issuer, now);
      var t := ExpelAll(s, init, issuer, now);
      EmptiedKeyed(s, t, init);
      assert id in ids;
      StillRegistered(s, t, init, id);
      ExpelEmpties(t, id, issuer, now);
      EmptiedTwice(s, t, ExpelAll(s, ids, issuer, now), init, [id]);
      assert ids == init + [id];
    }
  }

  lemma NobodyEmptied(s: Server)
    ensures Emptied(s, s, [])
  {
    hide Members;
    SameDataSelf(s);
  }

  lemma StillRegistered(s: Server, t: Server, ids: seq<ConnId>, id: ConnId)
    requires Emptied(s, t, ids) && id in s.conns && Registered(s, id) && id !in ids
    ensures id in t.conns && Registered(t, id)
  {
    hide Members, SameData, Struck;
  }

  lemma EmptiedIf(s: Server, t: Server, ids: seq<ConnId>)
    requires SameData(s, t) && t.shuttingDown == s.shuttingDown
    requires forall name :: name in t.clients <==> name in s.clients && s.clients[name] !in ids
    requires forall name :: name in t.clients ==> t.clients[name] == s.clients[name]
    requires forall room, name :: name in Members(t, room) <==> name in Members(s, room) && !Struck(s, ids, room, name)
    requires forall room, name :: name in Members(t, room) ==> Members(t, room)[name] == Members(s, room)[name]
    requires forall id :: id !in ids ==> ClientOf(t, id) == ClientOf(s, id)
    requires forall id :: id in s.conns ==> id in t.conns
    requires forall id :: ClientOf(t, id).host == ClientOf(s, id).host && ClientOf(t, id).username == ClientOf(s, id).username
                          && ClientOf(t, id).room == ClientOf(s, id).room
    ensures Emptied(s, t, ids)
  {
  }

  lemma EmptiedTwice(s: Server, t: Server, u: Server, a: seq<ConnId>, b: seq<ConnId>)
    requires Emptied(s, t, a) && Emptied(t, u, b)
    ensures Emptied(s, u, a + b)
  {
    hide Members, ClientOf;
    SameDataTrans(s, t, u);
    hide SameData;
    forall room, name ensures Struck(s, a + b, room, name) <==> Struck(s, a, room, name) || Struck(t, b, room, name) { }
    hide Struck;
  }

  lemma BanFirstEmpties(s: Server, name: string, issuer: string, now: Moment)
    requires Keyed(s) && name in s.clients
    ensures Emptied(s, BanFirst(s, name, issuer, now), [s.clients[name]])
  {
    hide Expel, SameData, Members, ClientOf, Registered, Emptied;
    var id := s.clients[name];
    KeyRegistered(s, name);
    ExpelEmpties(s, id, issuer, now);
    BanFlagEmpties(s, Expel(s, id, name, Banned, issuer, now), [id], ClientOf(s, id).host);
  }

  lemma KeyRegistered(s: Server, name: string)
    requires name in s.clients && ClientOf(s, s.clients[name]).username == name
    ensures Registered(s, s.clients[name])
  {
  }

  lemma BanFlagEmpties(s: Server, t: Server, ids: seq<ConnId>, host: string)
    requires Emptied(s, t, ids)
    ensures Emptied(s, AddBan(t, host), ids)
  {
    hide AddBan, Members, ClientOf, SameData;
    BanFlagFrame(t, host);
    SameDataTrans(s, t, AddBan(t, host));
    EmptiedIf(s, AddBan(t, host), ids);
  }

  lemma BanFlagFrame(t: Server, host: string)
    ensures var u := AddBan(t, host);
            && SameData(t, u) && u.clients == t.clients && u.shuttingDown == t.shuttingDown
            && (forall room :: Members(u, room) == Members(t, room))
            && (forall id :: ClientOf(u, id) == ClientOf(t, id)) && u.conns == t.conns
  {
  }

  /** Everyone the ban expels is registered once, has the host, and only a client named as excluded may stay. */
  lemma BanExpels(s: Server, name: string, issuer: string, exclude: string, order: BanOrder, now: Moment)
    requires Keyed(s) && name in s.clients && PossibleOrder(s, name, issuer, exclude, order, now)
    ensures var host := ClientOf(s, s.clients[name]).host;
            var ids := Expelled(s, name, order);
            && Distinct(ids) && Emptied(s, BanEveryone(s, name, issuer, order, now), ids)
            && (forall id <- ids :: id in s.conns && Registered(s, id) && HasHost(s, id, host))
            && (forall n :: n in s.clients ==> (s.clients[n] in ids <==> n == name || (HasHost(s, s.clients[n], host) && n != exclude)))
  {
    hide Keyed, BanFirst, BanEveryone, Emptied, ClientOf, Registered, HasHost, Members;
    var id, t := s.clients[name], BanFirst(s, name, issuer, now);
    BanFirstEmpties(s, name, issuer, now);
    EmptiedKeyed(s, t, [id]);
    KeyedRegistered(s, name);
    CollateralIs(s, name, issuer, exclude, order, now);
    forall x | x in order.collateral ensures x in t.conns && Registered(t, x) { StillRegistered(s, t, [id], x); }
    CollateralOnce(s, name, order);
    ExpelAllEmpties(t, order.collateral, issuer, now);
    assert BanEveryone(s, name, issuer, order, now) == ExpelAll(t, order.collateral, issuer, now) by { BanEveryoneIs(s, name, issuer, order, now); }
    EmptiedTwice(s, t, ExpelAll(t, order.collateral, issuer, now), [id], order.collateral);
  }

  lemma CollateralOnce(s: Server, name: string, order: BanOrder)
    requires name in s.clients && Distinct(Expelled(s, name, order))
    ensures Distinct(order.collateral)
  {
    var ids := Expelled(s, name, order);
    assert forall i :: 0 <= i < |order.collateral| ==> order.collateral[i] == ids[i + 1];
  }

  lemma KeyedRegistered(s: Server, name: string)
    requires Keyed(s) && name in s.clients
    ensures s.clients[name] in s.conns && Registered(s, s.clients[name])
  {
  }

  lemma BanEveryoneIs(s: Server, name: string, issuer: string, order: BanOrder, now: Moment)
    requires name in s.clients
    ensures BanEveryone(s, name, issuer, order, now) == ExpelAll(BanFirst(s, name, issuer, now), order.collateral, issuer, now)
  {
  }

  lemma CollateralIs(s: Server, name: string, issuer: string, exclude: string, order: BanOrder, now: Moment)
    requires Keyed(s) && name in s.clients && PossibleOrder(s, name, issuer, exclude, order, now)
    requires Emptied(s, BanFirst(s, name, issuer, now), [s.clients[name]])
    ensures var host := ClientOf(s, s.clients[name]).host;
            var ids := Expelled(s, name, order);
            && HasHost(s, s.clients[name], host)
            && Distinct(ids)
            && (forall id <- order.collateral :: id in s.conns && Registered(s, id) && HasHost(s, id, host) && id != s.clients[name])
            && (forall n :: n in s.clients ==> (s.clients[n] in ids <==> n == name || (HasHost(s, s.clients[n], host) && n != exclude)))
  {
    hide BanFirst, BanEveryone, ClientsByHost, ValidName, Reserved, Members, SameData, Struck;
    var t := BanFirst(s, name, issuer, now);
    var host := ClientOf(s, s.clients[name]).host;
    assert forall id :: HasHost(t, id, host) == HasHost(s, id, host);
    forall id | id in order.collateral
      ensures id in s.conns && Registered(s, id) && HasHost(s, id, host) && id != s.clients[name]
    {
      assert id in ClientsByHost(t, host, exclude);
      var n := ByHostMember(t, host, exclude, id);
      assert n in s.clients && s.clients[n] == id;
    }
    forall n | n in s.clients && n != name
      ensures s.clients[n] != s.clients[name] && (s.clients[n] in order.collateral <==> HasHost(s, s.clients[n], host) && n != exclude)
    {
      assert n in t.clients;
      if HasHost(s, s.clients[n], host) && n != exclude {
        ByHostKey(t, host, exclude, n);
      }
      if s.clients[n] in order.collateral {
        assert s.clients[n] in ClientsByHost(t, host, exclude);
        var m := ByHostMember(t, host, exclude, s.clients[n]);
        assert m in s.clients;
      }
    }
  }

  lemma ByHostMember(t: Server, host: string, exclude: string, id: ConnId) returns (name: string)
    requires id in ClientsByHost(t, host, exclude)
    ensures name in t.clients && t.clients[name] == id && HasHost(t, id, host) && ClientOf(t, id).username != exclude
  {
    name :| name in t.clients && t.clients[name] == id && HasHost(t, id, host) && ClientOf(t, id).username != exclude;
  }

  lemma ByHostKey(t: Server, host: string, exclude: string, name: string)
    requires name in t.clients && HasHost(t, t.clients[name], host) && ClientOf(t, t.clients[name]).username != exclude
    ensures t.clients[name] in ClientsByHost(t, host, exclude)
  {
  }

  /** Queues, connections and registrations after the queues have been purged as well. */
  lemma PurgedAfterExpulsion(s: Server, t: Server, host: string, ids: seq<ConnId>, visit: seq<string>)
    requires Emptied(s, t, ids) && Enumerates(visit, t.rooms.Keys)
    requires forall id <- ids :: HasHost(s, id, host)
    ensures var u := PurgeAndClose(t, host, visit);
            && u.clients == t.clients && u.tickets == s.tickets && u.admitted == s.admitted && u.shuttingDown == s.shuttingDown
            && (forall room :: Queue(u, room) == Kept(s, Queue(s, room), host))
            && (forall id :: ClientOf(u, id).host == ClientOf(s, id).host && ClientOf(u, id).room == ClientOf(s, id).room)
            && (forall id :: !HasHost(s, id, host) ==> ClientOf(u, id) == ClientOf(s, id))
            && (forall room :: Members(u, room) == Members(t, room))
  {
    hide Purge, Members, CloseAll, Kept, DroppedAlong;
    PurgeIsStableFilter(t, host, visit);
    var (p, removed) := Purge(t, host, visit);
    DroppedAlongHaveHost(t, host, visit);
    CloseAllFrame(p, removed);
    PurgeAndCloseLinks(t, host, visit);
    PurgedQueues(s, t, p, host, ids, visit);
    assert CloseAll(p, removed).rooms == p.rooms;
    hide SameData;
    assert forall id :: ClientOf(p, id) == ClientOf(t, id);
  }

  lemma PurgedQueues(s: Server, t: Server, p: Server, host: string, ids: seq<ConnId>, visit: seq<string>)
    requires Emptied(s, t, ids) && Filtered(t, p, host, visit) && Enumerates(visit, t.rooms.Keys)
    ensures forall room :: Queue(p, room) == Kept(s, Queue(s, room), host)
  {
    hide Kept, Members;
    forall room ensures Queue(p, room) == Kept(s, Queue(s, room), host) {
      SameHostsKept(s, t, Queue(s, room), host);
      if room !in visit {
        assert Queue(t, room) == [] && Kept(s, [], host) == [] by { KeptNothing(s, host); }
      }
    }
  }

  lemma KeptNothing(s: Server, host: string)
    ensures Kept(s, [], host) == []
  {
  }

  lemma {:induction false} SameSlots(s: Server, t: Server, ids: seq<ConnId>, room: string)
    requires forall id :: ClientOf(t, id).room == ClientOf(s, id).room
    ensures SlotsOpened(t, ids, room) == SlotsOpened(s, ids, room)
  {
    if ids != [] {
      SameSlots(s, t, ids[..|ids| - 1], room);
    }
  }

  lemma {:induction false} NoSlots(s: Server, ids: seq<ConnId>, room: string)
    requires forall id <- ids :: ClientOf(s, id).room != room
    ensures SlotsOpened(s, ids, room) == 0
  {
    if ids != [] {
      assert ids[|ids| - 1] in ids && forall id <- ids[..|ids| - 1] :: id in ids;
      NoSlots(s, ids[..|ids| - 1], room);
    }
  }

  /** Members of a room among some connections. */
  function MembersAmong(s: Server, ids: seq<ConnId>, room: string): set<string> {
    set name | name in Members(s, room) && Members(s, room)[name] in ids
  }

  lemma OwnName(t: Server, id: ConnId)
    requires Registered(t, id)
    ensures ClientOf(t, id).username in t.clients && t.clients[ClientOf(t, id).username] == id
  {
  }

  lemma AmongOneMore(s: Server, ids: seq<ConnId>, id: ConnId, room: string)
    requires Owned(s) && room != "" && id in s.conns && Registered(s, id) && id !in ids
    ensures var name := ClientOf(s, id).username;
            && name !in MembersAmong(s, ids, room)
            && MembersAmong(s, ids + [id], room) == MembersAmong(s, ids, room) + if ClientOf(s, id).room == room then {name} else {}
  {
    hide Owned, Registered, ValidName, Reserved, Members, ClientOf;
    var name := ClientOf(s, id).username;
    OwnName(s, id);
    OfKey(s, name);
    forall n | n in Members(s, room) ensures Members(s, room)[n] == id <==> n == name && ClientOf(s, id).room == room {
      OfMember(s, room, n);
    }
    if name in Members(s, room) { OfMember(s, room, name); }
  }

  /** The slots opened in a room are exactly its members among the expelled connections. */
  lemma {:induction false} SlotsCountMembers(s: Server, ids: seq<ConnId>, room: string)
    requires Owned(s) && room != "" && Distinct(ids) && forall id <- ids :: id in s.conns && Registered(s, id)
    ensures |MembersAmong(s, ids, room)| == SlotsOpened(s, ids, room)
  {
    hide Owned, Registered, MembersAmong;
    if ids == [] {
      assert MembersAmong(s, [], room) == {} by { NobodyAmong(s, room); }
    } else {
      var init, id := ids[..|ids| - 1], ids[|ids| - 1];
      assert ids == init + [id];
      assert id in ids && forall x <- init :: x in ids;
      DistinctInit(ids);
      SlotsCountMembers(s, init, room);
      AmongOneMore(s, init, id, room);
    }
  }

  lemma NobodyAmong(s: Server, room: string)
    ensures MembersAmong(s, [], room) == {}
  {
  }

  /** What a room's queue and admissions look like after the ban expelled these connections. */
  ghost predicate QueueServed(s: Server, v: Server, host: string, room: string, ids: seq<ConnId>) {
    var n := if s.shuttingDown then 0 else SlotsOpened(s, ids, room);
    var kept := Kept(s, Queue(s, room), host);
    var live := LiveTickets(s, kept);
    && IsTail(kept, Queue(v, room))
    && (forall e <- Queue(v, room) :: !HasHost(v, e.client, host))
    && AdmittedFor(v, v.admitted, room) == AdmittedFor(s, s.admitted, room) + live[..Min(n, |live|)]
    && LiveTickets(v, Queue(v, room)) == live[Min(n, |live|)..]
  }

  /** The name's registration for a client of the room is gone. */
  predicate Removed(s: Server, v: Server, room: string, name: string) {
    room != "" && name in s.clients && name !in v.clients && ClientOf(s, s.clients[name]).room == room
  }

  /** Everyone on the host is gone from the global index, and with each of them its name from its room; everyone and
      everything else is as before. */
  ghost predicate OnlyHostGone(s: Server, v: Server, name: string, host: string, exclude: string) {
    && (forall n :: n in v.clients <==> n in s.clients && n != name && (HasHost(s, s.clients[n], host) ==> n == exclude))
    && (forall n :: n in v.clients ==> v.clients[n] == s.clients[n])
    && (forall room, n :: n in Members(v, room) <==> n in Members(s, room) && !Removed(s, v, room, n))
    && (forall room, n :: n in Members(v, room) && n in Members(s, room) ==> Members(v, room)[n] == Members(s, room)[n])
    && (forall id :: HasHost(v, id, host) <==> HasHost(s, id, host))
    && (forall id :: !HasHost(s, id, host) ==> ClientOf(v, id) == ClientOf(s, id))
  }

  /** State of a ban just before it hands out the places it opened. */
  function BanCleared(s: Server, name: string, issuer: string, order: BanOrder, now: Moment): Server
    requires name in s.clients
  {
    PurgeAndClose(BanEveryone(s, name, issuer, order, now), ClientOf(s, s.clients[name]).host, order.visit)
  }

  lemma {:induction false} AdmitTimesIdle(s: Server, room: string, n: nat)
    requires s.shuttingDown
    ensures AdmitTimes(s, room, n) == s
  {
    if n > 0 { AdmitTimesIdle(s, room, n - 1); }
  }

  lemma {:induction false} AdmitRoomsIdle(s: Server, rooms: seq<string>, ids: seq<ConnId>)
    requires s.shuttingDown
    ensures AdmitRooms(s, rooms, ids) == s
  {
    if rooms != [] {
      AdmitRoomsIdle(s, rooms[..|rooms| - 1], ids);
      AdmitTimesIdle(s, rooms[|rooms| - 1], SlotsOpened(s, ids, rooms[|rooms| - 1]));
    }
  }

  /** What the ban has done before handing out places. */
  ghost predicate Cleared(s: Server, u: Server, ids: seq<ConnId>, host: string) {
    && u.tickets == s.tickets && u.admitted == s.admitted && u.shuttingDown == s.shuttingDown
    && (forall room :: Queue(u, room) == Kept(s, Queue(s, room), host))
    && (forall name :: name in u.clients <==> name in s.clients && s.clients[name] !in ids)
    && (forall name :: name in u.clients ==> u.clients[name] == s.clients[name])
    && (forall room, name :: name in Members(u, room) <==> name in Members(s, room) && !Struck(s, ids, room, name))
    && (forall room, name :: name in Members(u, room) ==> Members(u, room)[name] == Members(s, room)[name])
    && (forall id :: ClientOf(u, id).host == ClientOf(s, id).host && ClientOf(u, id).room == ClientOf(s, id).room)
    && (forall id :: !HasHost(s, id, host) ==> ClientOf(u, id) == ClientOf(s, id))
  }

  lemma BanClears(s: Server, name: string, issuer: string, exclude: string, order: BanOrder, now: Moment)
    requires Keyed(s) && name in s.clients && PossibleOrder(s, name, issuer, exclude, order, now)
    ensures Cleared(s, BanCleared(s, name, issuer, order, now), Expelled(s, name, order), ClientOf(s, s.clients[name]).host)
  {
    hide Keyed, BanFirst, BanEveryone, ExpelAll, PurgeAndClose, SameData, Members, ClientOf, Registered, Kept, Expelled, Distinct, Struck;
    BanExpels(s, name, issuer, exclude, order, now);
    PurgedAfterExpulsion(s, BanEveryone(s, name, issuer, order, now), ClientOf(s, s.clients[name]).host, Expelled(s, name, order), order.visit);
  }

  /** Handing out places changes no connection, registration or membership. */
  lemma PlacesFrame(u: Server, rooms: seq<string>, ids: seq<ConnId>)
    ensures var v := AdmitRooms(u, rooms, ids);
            v.clients == u.clients && v.conns == u.conns && forall room :: Members(v, room) == Members(u, room)
  {
    hide Members, SlotsOpened, AdmitTimes, AdmitRooms;
    AdmitRoomsLinks(u, rooms, ids);
    AdmitRoomsConns(u, rooms, ids);
  }

  lemma {:induction false} AdmitRoomsConns(u: Server, rooms: seq<string>, ids: seq<ConnId>)
    ensures AdmitRooms(u, rooms, ids).conns == u.conns
  {
    if rooms != [] {
      AdmitRoomsConns(u, rooms[..|rooms| - 1], ids);
      AdmitTimesConns(AdmitRooms(u, rooms[..|rooms| - 1], ids), rooms[|rooms| - 1], SlotsOpened(u, ids, rooms[|rooms| - 1]));
    }
  }

  lemma {:induction false} AdmitTimesConns(u: Server, room: string, n: nat)
    ensures AdmitTimes(u, room, n).conns == u.conns
  {
    if n > 0 {
      AdmitTimesConns(u, room, n - 1);
      AdmitConns(AdmitTimes(u, room, n - 1), room);
    }
  }

  lemma BanTargetIs(s: Server, name: string, issuer: string, order: BanOrder, now: Moment)
    requires name in s.clients
    ensures BanTarget(s, name, issuer, order, now) == AdmitRooms(BanCleared(s, name, issuer, order, now), order.reopened, Expelled(s, name, order))
  {
  }

  lemma BanRemoves(s: Server, name: string, issuer: string, exclude: string, order: BanOrder, now: Moment)
    requires Keyed(s) && name in s.clients && PossibleOrder(s, name, issuer, exclude, order, now)
    ensures OnlyHostGone(s, BanTarget(s, name, issuer, order, now), name, ClientOf(s, s.clients[name]).host, exclude)
  {
    hide *;
    var u, ids := BanCleared(s, name, issuer, order, now), Expelled(s, name, order);
    BanTargetIs(s, name, issuer, order, now);
    BanClears(s, name, issuer, exclude, order, now);
    BanExpels(s, name, issuer, exclude, order, now);
    PlacesFrame(u, order.reopened, ids);
    GoneIf(s, u, AdmitRooms(u, order.reopened, ids), name, ClientOf(s, s.clients[name]).host, exclude, ids);
  }

  lemma GoneIf(s: Server, u: Server, v: Server, name: string, host: string, exclude: string, ids: seq<ConnId>)
    requires Cleared(s, u, ids, host)
    requires v.clients == u.clients && v.conns == u.conns && forall room :: Members(v, room) == Members(u, room)
    requires forall n :: n in s.clients ==> (s.clients[n] in ids <==> n == name || (HasHost(s, s.clients[n], host) && n != exclude))
    ensures OnlyHostGone(s, v, name, host, exclude)
  {
    hide Kept, Members, ClientOf, Queue;
    SameConns(u, v);
    forall room, n ensures Struck(s, ids, room, n) <==> Removed(s, v, room, n) { }
    hide Struck, Removed;
    assert forall id :: ClientOf(v, id) == ClientOf(u, id);
    assert forall id :: HasHost(v, id, host) <==> HasHost(s, id, host);
  }

  /** With both indexes owned, a name is in the room's index if and only if its registered client is in the room. */
  lemma StruckWhileOwned(s: Server, ids: seq<ConnId>, room: string, name: string)
    requires Owned(s) && name in Members(s, room)
    ensures Struck(s, ids, room, name) <==> Members(s, room)[name] in ids
  {
    hide Owned, Members;
    OfMember(s, room, name);
  }

  lemma OwnedIsKeyed(s: Server)
    requires Owned(s)
    ensures Keyed(s)
  {
    hide Owned;
    forall name | name in s.clients ensures s.clients[name] in s.conns && ClientOf(s, s.clients[name]).username == name { OfKey(s, name); }
  }

  /** With both indexes owned, each room has lost exactly the clients the ban has counted for it, and whoever has left a
      room has left the global index. */
  lemma BanCountsMembers(s: Server, name: string, issuer: string, exclude: string, order: BanOrder, now: Moment, room: string)
    requires Owned(s) && name in s.clients && PossibleOrder(s, name, issuer, exclude, order, now) && room != ""
    ensures var v := BanTarget(s, name, issuer, order, now);
            && |Members(s, room)| == |Members(v, room)| + SlotsOpened(s, Expelled(s, name, order), room)
            && (forall n :: n in Members(v, room) <==> n in Members(s, room) && n in v.clients)
  {
    hide Owned, BanFirst, BanEveryone, PurgeAndClose, AdmitRooms, BanCleared, BanTarget, PossibleOrder, Members, Kept, Expelled, Registered, Queue,
         Struck, Keyed;
    OwnedIsKeyed(s);
    BanTargetIs(s, name, issuer, order, now);
    BanClears(s, name, issuer, exclude, order, now);
    BanExpels(s, name, issuer, exclude, order, now);
    var u := BanCleared(s, name, issuer, order, now);
    var ids := Expelled(s, name, order);
    PlacesFrame(u, order.reopened, ids);
    SlotsCountMembers(s, ids, room);
    forall n | n in Members(s, room) ensures n in Members(u, room) <==> Members(s, room)[n] !in ids { StruckWhileOwned(s, ids, room, n); }
    forall n | n in Members(s, room) ensures n in s.clients && s.clients[n] == Members(s, room)[n] { OfMember(s, room, n); }
    SplitCount(Members(s, room), Members(u, room), ids);
  }

  lemma SplitCount(before: map<string, ConnId>, after: map<string, ConnId>, ids: seq<ConnId>)
    requires forall name :: name in after <==> name in before && before[name] !in ids
    ensures |before| == |after| + |set name | name in before && before[name] in ids|
  {
    var gone := set name | name in before && before[name] in ids;
    assert before.Keys == after.Keys + gone && after.Keys !! gone;
  }

  lemma BanServes(s: Server, name: string, issuer: string, exclude: string, order: BanOrder, now: Moment, room: string)
    requires Keyed(s) && QueuesOk(s) && name in s.clients && PossibleOrder(s, name, issuer, exclude, order, now)
    ensures QueueServed(s, BanTarget(s, name, issuer, order, now), ClientOf(s, s.clients[name]).host, room, Expelled(s, name, order))
  {
    hide *;
    var u, ids, host := BanCleared(s, name, issuer, order, now), Expelled(s, name, order), ClientOf(s, s.clients[name]).host;
    BanTargetIs(s, name, issuer, order, now);
    BanClears(s, name, issuer, exclude, order, now);
    BanClearedOk(s, name, issuer, order, now);
    var v := AdmitRooms(u, order.reopened, ids);
    var n := if s.shuttingDown then 0 else SlotsOpened(s, ids, room);
    assert Refilled(u, v, room, n) by { BanRefills(s, u, name, exclude, issuer, order, now, room); }
    PlacesFrame(u, order.reopened, ids);
    ServedIf(s, u, v, ids, host, room);
  }

  lemma BanClearedOk(s: Server, name: string, issuer: string, order: BanOrder, now: Moment)
    requires QueuesOk(s) && name in s.clients
    ensures QueuesOk(BanCleared(s, name, issuer, order, now))
  {
    hide QueuesOk, Expel, ExpelAll, PurgeAndClose;
    var id := s.clients[name];
    ExpelOk(s, id, name, Banned, issuer, now);
    FieldsOk(Expel(s, id, name, Banned, issuer, now), BanFirst(s, name, issuer, now));
    ExpelAllOk(BanFirst(s, name, issuer, now), order.collateral, issuer, now);
    PurgeAndCloseOk(BanEveryone(s, name, issuer, order, now), ClientOf(s, id).host, order.visit);
  }

  lemma BanRefills(s: Server, u: Server, name: string, exclude: string, issuer: string, order: BanOrder, now: Moment, room: string)
    requires name in s.clients && PossibleOrder(s, name, issuer, exclude, order, now) && QueuesOk(u)
    requires Cleared(s, u, Expelled(s, name, order), ClientOf(s, s.clients[name]).host)
    ensures var ids := Expelled(s, name, order);
            Refilled(u, AdmitRooms(u, order.reopened, ids), room, if s.shuttingDown then 0 else SlotsOpened(s, ids, room))
  {
    hide QueuesOk, AdmitRooms, SlotsOpened, Refilled, Kept, Members, Queue, HasHost, BanFirst, BanEveryone, Expelled;
    var ids := Expelled(s, name, order);
    if s.shuttingDown {
      AdmitRoomsIdle(u, order.reopened, ids);
      RefilledSelf(u, room);
    } else {
      RoomsRefilled(u, order.reopened, ids, room);
      SameSlots(s, u, ids, room);
      if room !in order.reopened {
        forall id | id in ids ensures ClientOf(s, id).room != room { }
        NoSlots(s, ids, room);
      }
    }
  }

  lemma ServedIf(s: Server, u: Server, v: Server, ids: seq<ConnId>, host: string, room: string)
    requires Cleared(s, u, ids, host) && v.conns == u.conns
    requires Refilled(u, v, room, if s.shuttingDown then 0 else SlotsOpened(s, ids, room))
    ensures QueueServed(s, v, host, room, ids)
  {
    hide Kept, LiveTickets, AdmittedFor, ClientOf, Members;
    var kept := Kept(s, Queue(s, room), host);
    KeptComeFromQueue(s, Queue(s, room), host);
    forall e | e in kept ensures ClientOf(u, e.client).closed == ClientOf(s, e.client).closed { }
    SameLive(s, u, kept);
    AdmittedForSame(s, u, u.admitted, room);
    forall e | e in Queue(v, room) ensures !HasHost(v, e.client, host) {
      assert e in kept;
      SameConns(u, v);
    }
  }

  /** Ban completeness and frame. After a ban the host has no registered client but possibly the excluded issuer, no
      queue entry in any room, and every client of another host is as it was; each name removed leaves its client's room,
      and no other name leaves any room. Outside shutdown each room admits exactly min(clients of the room expelled, live
      entries left in its queue), in queue order. */
  lemma BanReachesTheHost(s: Server, name: string, issuer: string, exclude: string, order: BanOrder, now: Moment)
    requires Grounded(s) && QueuesOk(s) && name in s.clients && PossibleOrder(s, name, issuer, exclude, order, now)
    ensures var host := ClientOf(s, s.clients[name]).host;
            var v := BanTarget(s, name, issuer, order, now);
            && OnlyHostGone(s, v, name, host, exclude)
            && (forall room :: QueueServed(s, v, host, room, Expelled(s, name, order)))
  {
    hide *;
    GroundedIsKeyed(s);
    BanRemoves(s, name, issuer, exclude, order, now);
    forall room ensures QueueServed(s, BanTarget(s, name, issuer, order, now), ClientOf(s, s.clients[name]).host, room, Expelled(s, name, order))
    {
      BanServes(s, name, issuer, exclude, order, now, room);
    }
  }

  /** In every reachable state, with no other condition. */
  lemma BansInReachableStates(admins: set<string>, run: Run, name: string, issuer: string, exclude: string, order: BanOrder, now: Moment)
    requires Possible(Fresh(admins), run)
    requires var s := After(Fresh(admins), run); name in s.clients && PossibleOrder(s, name, issuer, exclude, order, now)
    ensures var s := After(Fresh(admins), run);
            var host := ClientOf(s, s.clients[name]).host;
            var v := BanTarget(s, name, issuer, order, now);
            && OnlyHostGone(s, v, name, host, exclude)
            && (forall room :: QueueServed(s, v, host, room, Expelled(s, name, order)))
  {
    hide *;
    FreshGrounded(admins);
    FreshQueuesOk(admins);
    RunGrounded(Fresh(admins), run);
    RunQueuesOk(Fresh(admins), run);
    BanReachesTheHost(After(Fresh(admins), run), name, issuer, exclude, order, now);
  }
}
