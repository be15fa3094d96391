/** The server as an object that changes: rooms with their members, history and queue, and the methods that update them
    (server/server.go, clients.go, room.go, moderation.go, admins.go). Each method is tied to the section function of
    ServerState it carries out; View is the state it stands for. */
module LiveServer {
  import opened Messages
  import opened S = ServerState
  import opened LiveSteps

  /** One step of the insertion sort: the name at i is moved back past the greater names ahead of it. */
  method Insert(names: seq<string>, i: nat) returns (r: seq<string>)
    requires i < |names| && forall a, b :: 0 <= a < b < i ==> AtMost(names[a], names[b])
    ensures |r| == |names| && forall a, b :: 0 <= a < b < i + 1 ==> AtMost(r[a], r[b])
    ensures SameNames(r, names)
  {
    hide AtMost;
    r := names;
    var key := names[i];
    var j := i;
    while j > 0 && !AtMost(r[j - 1], key)
      invariant 0 <= j <= i && |r| == |names|
      invariant forall a :: 0 <= a < j ==> r[a] == names[a]
      invariant forall a :: j < a <= i ==> r[a] == names[a - 1] && !AtMost(r[a], key)
      invariant SameNames(r[j := key], names)
    {
      ShiftedElements(r, j, key);
      r := r[j := r[j - 1]];
      j := j - 1;
    }
    InsertedSorted(names, r, i, j, key);
    r := r[j := key];
  }

  class LiveRoom {
    var clients: map<string, ConnId>
    var history: seq<Event>
    var queue: seq<Entry>

    constructor ()
      ensures View() == EMPTY_ROOM
    {
      clients, history, queue := map[], [], [];
    }

    function View(): Room
      reads this
    {
      Room(clients, history, queue)
    }
  }

  class LiveServer {
    var conns: map<ConnId, Client>
    var clients: map<string, ConnId>
    var rooms: map<string, LiveRoom>
    var admins: set<string>
    var kickedIPs: map<string, int>
    var bannedIPs: set<string>
    var shuttingDown: bool
    var log: seq<Message>
    var stamps: nat
    var heard: set<(ConnId, Event)>
    var position: map<ConnId, nat>
    var tickets: seq<Ticket>
    var admitted: seq<nat>

    /** No two names share a room object. */
    ghost predicate Valid()
      reads this`rooms
    {
      forall a, b :: a in rooms && b in rooms && a != b ==> rooms[a] != rooms[b]
    }

    ghost function RoomsView(): map<string, Room>
      reads this`rooms, rooms.Values
    {
      map room | room in rooms :: rooms[room].View()
    }

    ghost function View(): Server
      reads this, rooms.Values
    {
      Server(conns, clients, RoomsView(), admins, kickedIPs, bannedIPs, shuttingDown, log, stamps, heard, position, tickets, admitted)
    }

    constructor (known: set<string>)
      ensures Valid() && fresh(rooms.Values)
      ensures View() == Fresh(known)
    {
      var lobby := new LiveRoom();
      conns, clients, rooms, admins, kickedIPs, bannedIPs := map[], map[], map[DEFAULT_ROOM := lobby], known, map[], {};
      shuttingDown, log, stamps, heard, position, tickets, admitted := false, [], 0, {}, map[], [], [];
      new;
      assert RoomsView() == map[DEFAULT_ROOM := EMPTY_ROOM];
    }

    // ---------- reading ----------

    function Conn(id: ConnId): (c: Client)
      reads this, rooms.Values
      ensures c == ClientOf(View(), id)
    {
      if id in conns then conns[id] else NO_CLIENT
    }

    predicate HasRoom(name: string)
      reads this, rooms.Values
      ensures HasRoom(name) == (name in View().rooms)
    {
      name in rooms
    }

    function RoomKeys(): (names: set<string>)
      reads this, rooms.Values
      ensures names == View().rooms.Keys
    {
      rooms.Keys
    }

    function RoomNow(name: string): (r: Room)
      reads this, rooms.Values
      ensures r == RoomOf(View(), name)
    {
      if name in rooms then rooms[name].View() else EMPTY_ROOM
    }

    // ---------- single fields of single rooms ----------

    method GetOrCreateRoom(name: string) returns (r: LiveRoom)
      requires Valid()
      modifies this`rooms
      ensures Valid() && fresh(rooms.Values - old(rooms.Values))
      ensures name in rooms && r == rooms[name]
      ensures View() == if name in old(View()).rooms then old(View()) else WithRoom(old(View()), name, EMPTY_ROOM)
    {
      if name !in rooms {
        var created := new LiveRoom();
        rooms := rooms[name := created];
        assert RoomsView() == WithRoom(old(View()), name, EMPTY_ROOM).rooms;
      }
      r := rooms[name];
    }

    method WriteRoom(name: string, room: Room)
      requires Valid() && name in rooms
      modifies rooms[name]
      ensures View() == WithRoom(old(View()), name, room)
    {
      var r := rooms[name];
      r.clients, r.history, r.queue := room.clients, room.history, room.queue;
      assert RoomsView() == old(RoomsView())[name := room];
    }

    /** Every change of a room: its fields are set, the room being created when it does not exist. */
    method PutRoom(name: string, room: Room)
      requires Valid()
      modifies this`rooms, rooms.Values
      ensures Valid() && fresh(rooms.Values - old(rooms.Values))
      ensures View() == WithRoom(old(View()), name, room)
    {
      hide RoomsView;
      ghost var s := View();
      var r := GetOrCreateRoom(name);
      WriteRoom(name, room);
      WithRoomTwice(s, name, EMPTY_ROOM, room);
    }

    method DropRoom(name: string)
      requires Valid()
      modifies this`rooms
      ensures Valid() && rooms.Values <= old(rooms.Values)
      ensures View() == old(View()).(rooms := old(View()).rooms - {name})
    {
      rooms := rooms - {name};
      assert RoomsView() == old(RoomsView()) - {name};
    }

    method DeleteRoomIfEmpty(name: string)
      requires Valid()
      modifies this`rooms
      ensures Valid() && rooms.Values <= old(rooms.Values)
      ensures View() == S.DeleteRoomIfEmpty(old(View()), name)
    {
      hide RoomsView;
      if name == DEFAULT_ROOM || !HasRoom(name) { return; }
      var r := RoomNow(name);
      if |r.clients| == 0 && |r.queue| == 0 { DropRoom(name); }
    }

    // ---------- name indexes (clients.go) ----------

    method RegisterClient(id: ConnId, name: string) returns (ok: bool)
      modifies this`conns, this`clients
      ensures (View(), ok) == S.RegisterClient(old(View()), id, name)
    {
      if name in clients || Reserved(name) { return false; }
      conns := conns[id := Conn(id).(username := name)];
      clients := clients[name := id];
      return true;
    }

    method RemoveClient(username: string)
      requires Valid()
      modifies this, rooms.Values
      ensures Valid() && fresh(rooms.Values - old(rooms.Values))
      ensures View() == S.RemoveClient(old(View()), username)
    {
      hide RoomsView, WithRoom;
      ghost var s := View();
      if username in clients {
        var c := Conn(clients[username]);
        if c.room != "" && HasRoom(c.room) {
          var r := RoomNow(c.room);
          PutRoom(c.room, r.(clients := r.clients - {username}));
        }
        ghost var left := View();
        clients := clients - {username};
        RemoveSteps(s, username, left, View());
      }
    }

    method RenameClient(id: ConnId, oldName: string, newName: string) returns (ok: bool)
      requires Valid()
      modifies this, rooms.Values
      ensures Valid() && fresh(rooms.Values - old(rooms.Values))
      ensures (View(), ok) == S.RenameClient(old(View()), id, oldName, newName)
    {
      hide RoomsView, WithRoom;
      ghost var s := View();
      if newName in clients || Reserved(newName) { return false; }
      var c := Conn(id);
      clients := clients - {oldName};
      conns := conns[id := c.(username := newName)];
      clients := clients[newName := id];
      ghost var keyed := View();
      if c.room != "" && HasRoom(c.room) {
        var r := RoomNow(c.room);
        PutRoom(c.room, r.(clients := (r.clients - {oldName})[newName := id]));
      }
      RenameSteps(s, id, oldName, newName, keyed, View());
      return true;
    }

    /** The connections found, each once as long as every name belongs to its own connection. */
    method GetClientsByIP(host: string, exclude: string) returns (found: seq<ConnId>)
      ensures forall id :: id in found <==> id in ClientsByHost(View(), host, exclude)
      ensures OwnNames(View()) ==> Enumerates(found, ClientsByHost(View(), host, exclude))
    {
      hide RoomsView, ClientsByHost, Enumerates;
      found := [];
      var left := clients.Keys;
      ghost var s := View();
      while left != {}
        invariant left <= clients.Keys
        invariant forall id :: id in found <==> exists name :: name !in left && Hit(s, name, id, host, exclude)
        invariant OwnNames(s) ==> forall i, j :: 0 <= i < j < |found| ==> found[i] != found[j]
        decreases |left|
      {
        var name :| name in left;
        var id := clients[name];
        HitOwn(s, name, id, left, found, host, exclude);
        if Conn(id).host == host && Conn(id).username != exclude { found := found + [id]; }
        left := left - {name};
      }
      HitsAre(s, host, exclude);
      assert OwnNames(s) ==> Enumerates(found, ClientsByHost(s, host, exclude)) by { EnumeratesIf(found, ClientsByHost(s, host, exclude)); }
    }

    // ---------- rooms (room.go) ----------

    method JoinRoom(id: ConnId, room: string)
      requires Valid()
      modifies this, rooms.Values
      ensures Valid() && fresh(rooms.Values - old(rooms.Values))
      ensures View() == S.JoinRoom(old(View()), id, room)
    {
      hide RoomsView, WithRoom;
      ghost var s := View();
      var c := Conn(id);
      if c.room != "" && HasRoom(c.room) {
        var r := RoomNow(c.room);
        PutRoom(c.room, r.(clients := r.clients - {c.username}));
      }
      ghost var left := View();
      var r := RoomNow(room);
      PutRoom(room, r.(clients := r.clients[c.username := id]));
      ghost var entered := View();
      conns := conns[id := c.(room := room)];
      JoinSteps(s, id, room, left, entered, View());
    }

    method CheckRoomCapacity(room: string) returns (free: bool)
      ensures free == HasCapacity(View(), room)
    {
      if !HasRoom(room) { return true; }
      return |RoomNow(room).clients| < MAX_ACTIVE;
    }

    /** The event recorded is returned for the broadcast that follows. */
    method RecordRoomEvent(room: string, m: Message) returns (e: Event)
      requires Valid()
      modifies this, rooms.Values
      ensures Valid() && fresh(rooms.Values - old(rooms.Values))
      ensures e == EventOf(old(View()), room, m) && View() == S.Record(old(View()), room, m)
    {
      hide RoomsView;
      e := Event(stamps, m.(room := room));
      var r := RoomNow(room);
      PutRoom(room, r.(history := r.history + [e]));
      log := log + [e.msg];
      stamps := stamps + 1;
    }

    method BroadcastRoom(room: string, e: Event, exclude: string)
      modifies this`heard
      ensures View() == S.BroadcastRoom(old(View()), room, e, exclude)
    {
      hide RoomsView, Told, S.BroadcastRoom;
      ToldAll(View(), room, e, exclude);
      if !HasRoom(room) { return; }
      var members := RoomNow(room).clients;
      ToldNobody(members, e, exclude);
      var left := members.Keys;
      ghost var before := heard;
      while left != {}
        invariant left <= members.Keys
        invariant heard == before + Told(members, left, e, exclude)
        decreases |left|
      {
        var name :| name in left;
        ToldOneMore(members, left, name, e, exclude);
        if name != exclude { heard := heard + {(members[name], e)}; }
        left := left - {name};
      }
    }

    /** A copy of the room's history, sent to a connection item by item. */
    method SendRoomHistory(id: ConnId, room: string)
      modifies this`heard
      ensures View() == SendHistory(old(View()), id, room)
    {
      hide RoomsView;
      var items := RoomNow(room).history;
      ghost var before := heard;
      for i := 0 to |items|
        invariant heard == before + set e | e in items[..i] :: (id, e)
      {
        assert items[..i + 1] == items[..i] + [items[i]];
        heard := heard + {(id, items[i])};
      }
      assert items[..|items|] == items;
    }

    /** The room names in order, each once. */
    method GetRoomNames() returns (names: seq<string>)
      ensures Sorted(names) && Enumerates(names, View().rooms.Keys)
    {
      names := [];
      var left := rooms.Keys;
      while left != {}
        invariant left <= rooms.Keys
        invariant Enumerates(names, rooms.Keys - left)
        decreases |left|
      {
        var name :| name in left;
        names, left := names + [name], left - {name};
      }
      var i := 1;
      while i < |names|
        invariant i >= 1 && Enumerates(names, rooms.Keys)
        invariant forall a, b :: 0 <= a < b < i && b < |names| ==> AtMost(names[a], names[b])
        decreases |names| - i
      {
        ghost var before := names;
        names := Insert(names, i);
        SameElements(before, names, rooms.Keys);
        i := i + 1;
      }
    }

    // ---------- queues (room.go, handler.go) ----------

    /** Every queued connection is told its place, front first. */
    method SendPositions(queue: seq<Entry>)
      modifies this`position
      ensures position == Renumber(old(position), queue)
    {
      ghost var before := position;
      for i := 0 to |queue|
        invariant position == Renumber(before, queue[..i])
      {
        RenumberOneMore(before, queue, i);
        position := position[queue[i].client := i + 1];
      }
      assert queue[..|queue|] == queue;
    }

    method AdmitFromRoomQueue(room: string)
      requires Valid()
      modifies this, rooms.Values
      ensures Valid() && fresh(rooms.Values - old(rooms.Values))
      ensures View() == Admit(old(View()), room)
    {
      hide RoomsView, Renumber, WithQueue, WithRoom, Admit, ClosedAhead;
      ghost var s := View();
      if shuttingDown || !HasRoom(room) {
        AdmitNothing(s, room);
        return;
      }
      var r := RoomNow(room);
      ghost var k := 0;
      var queue := r.queue;
      QueueAgain(s, room, queue, queue);
      while |queue| > 0
        invariant Valid() && fresh(rooms.Values - old(rooms.Values))
        invariant k <= |r.queue| && queue == r.queue[k..]
        invariant forall i :: 0 <= i < k ==> ClientOf(s, r.queue[i].client).closed
        invariant View() == WithQueue(s, room, queue)
        decreases |queue|
      {
        var entry := queue[0];
        queue := queue[1..];
        QueueAgain(s, room, r.queue[k..], queue);
        PutRoom(room, r.(queue := queue));
        if !Conn(entry.client).closed {
          AdmitFirst(s, room, k);
          admitted := admitted + [entry.ticket];
          SendPositions(queue);
          return;
        }
        k := k + 1;
      }
      AdmitNobody(s, room);
    }

    method RemoveFromRoomQueue(room: string, ticket: nat)
      requires Valid()
      modifies this, rooms.Values
      ensures Valid() && fresh(rooms.Values - old(rooms.Values))
      ensures View() == RemoveFromQueue(old(View()), room, ticket)
    {
      hide RoomsView, Renumber;
      if !HasRoom(room) { return; }
      var r := RoomNow(room);
      var queue := r.queue;
      var i := 0;
      while i < |queue| && queue[i].ticket != ticket
        invariant i <= |queue| && forall j :: 0 <= j < i ==> queue[j].ticket != ticket
      {
        i := i + 1;
      }
      WithoutTicketIs(queue, ticket, i);
      if i < |queue| { queue := queue[..i] + queue[i + 1..]; }
      PutRoom(room, r.(queue := queue));
      SendPositions(queue);
    }

    method SplitByHost(queue: seq<Entry>, host: string) returns (remaining: seq<Entry>, removed: seq<ConnId>)
      ensures remaining == Kept(View(), queue, host) && removed == Dropped(View(), queue, host)
    {
      remaining, removed := [], [];
      for i := 0 to |queue|
        invariant remaining == Kept(View(), queue[..i], host) && removed == Dropped(View(), queue[..i], host)
      {
        KeptOneMore(View(), queue, i, host);
        var e := queue[i];
        if Conn(e.client).host == host { removed := removed + [e.client]; } else { remaining := remaining + [e]; }
      }
      assert queue[..|queue|] == queue;
    }

    /** The rooms may be visited in any order; the order taken is returned for the specification's sake. */
    method RemoveFromAllRoomQueuesByIP(host: string) returns (removed: seq<ConnId>, ghost visit: seq<string>)
      requires Valid()
      modifies this, rooms.Values
      ensures Valid() && fresh(rooms.Values - old(rooms.Values))
      ensures Enumerates(visit, old(View()).rooms.Keys)
      ensures (View(), removed) == Purge(old(View()), host, visit)
    {
      hide RoomsView, Renumber, Purge, Kept, Dropped, WithRoom, Enumerates;
      ghost var s := View();
      removed, visit := [], [];
      var left := RoomKeys();
      PurgeNothing(s, host);
      while left != {}
        invariant Valid() && fresh(rooms.Values - old(rooms.Values))
        invariant left <= s.rooms.Keys && Enumerates(visit, s.rooms.Keys - left)
        invariant (View(), removed) == Purge(s, host, visit)
        decreases |left|
      {
        var room :| room in left;
        var r := RoomNow(room);
        var remaining, dropped := SplitByHost(r.queue, host);
        PurgeOneMore(s, host, visit, room);
        VisitOneMore(visit, s.rooms.Keys, left, room);
        removed := removed + dropped;
        if |removed| > 0 {
          PutRoom(room, r.(queue := remaining));
          SendPositions(remaining);
        }
        left, visit := left - {room}, visit + [room];
      }
      assert s.rooms.Keys - left == s.rooms.Keys;
    }

    /** The number of places taken in all queues. */
    method GetQueueLength() returns (n: nat)
      ensures n == |Places(View(), View().rooms.Keys)|
    {
      hide RoomsView, Places;
      n := 0;
      var left := RoomKeys();
      ghost var s, seen: set<string> := View(), {};
      NoPlaces(s);
      while left != {}
        invariant left <= s.rooms.Keys && seen == s.rooms.Keys - left && n == |Places(s, seen)|
        decreases |left|
      {
        var room :| room in left;
        PlacesOneMore(s, seen, room);
        n := n + |RoomNow(room).queue|;
        left, seen := left - {room}, seen + {room};
      }
      assert seen == s.rooms.Keys;
    }

    /** A place at the end of the room's queue; the position is sent with the question whether to wait. */
    method JoinQueue(id: ConnId, room: string) returns (ticket: nat)
      requires Valid()
      modifies this, rooms.Values
      ensures Valid() && fresh(rooms.Values - old(rooms.Values))
      ensures ticket == |old(tickets)| && View() == Enqueue(old(View()), id, room)
    {
      hide RoomsView;
      ticket := |tickets|;
      var r := RoomNow(room);
      PutRoom(room, r.(queue := r.queue + [Entry(id, ticket)]));
      tickets := tickets + [Ticket(room, id)];
      position := position[id := |r.queue| + 1];
    }

    // ---------- history (history.go) ----------

    method ClearHistory()
      requires Valid()
      modifies rooms.Values
      ensures View() == S.ClearHistory(old(View()))
    {
      var left := rooms.Keys;
      while left != {}
        invariant left <= rooms.Keys
        invariant forall name :: name in rooms ==> rooms[name].View() == if name in left then old(rooms[name].View()) else old(rooms[name].View()).(history := [])
        decreases |left|
      {
        var name :| name in left;
        rooms[name].history := [];
        left := left - {name};
      }
      assert RoomsView() == S.ClearHistory(old(View())).rooms;
    }

    // ---------- address blocks (moderation.go) ----------

    method AddKickCooldown(host: string, clock: int)
      modifies this`kickedIPs
      ensures View() == S.AddKickCooldown(old(View()), host, clock)
    {
      kickedIPs := kickedIPs[host := clock + KICK_SECONDS];
    }

    method AddBanIP(host: string)
      modifies this`bannedIPs
      ensures View() == AddBan(old(View()), host)
    {
      bannedIPs := bannedIPs + {host};
    }

    method IsIPBlocked(host: string, clock: int) returns (blocked: bool)
      modifies this`kickedIPs
      ensures (View(), blocked) == IsBlocked(old(View()), host, clock)
    {
      if host in bannedIPs { return true; }
      if host in kickedIPs {
        if clock < kickedIPs[host] { return true; }
        kickedIPs := kickedIPs - {host};
      }
      return false;
    }

    // ---------- admins (admins.go) ----------

    method RenameAdmin(oldName: string, newName: string)
      modifies this`admins
      ensures View() == S.RenameAdmin(old(View()), oldName, newName)
    {
      if oldName in admins { admins := admins - {oldName} + {newName}; }
    }
  }
}
