/** The server's shared state and the effect of each section that runs under its lock
    (server/server.go, clients.go, room.go, moderation.go). Connection ids stand for client pointers,
    tickets for queue entry pointers. */
module ServerState {
  import opened Text
  import opened Messages

  type ConnId = nat

  const MAX_ACTIVE := 10
  const KICK_SECONDS := 300

  /** Where a connection's handler is between two whole commands. */
  datatype Stage =
    | Naming                              // not registered yet
    | Choosing                            // registered, asked for a room
    | Asked(room: string, ticket: nat)    // queued, asked whether to wait
    | Waiting(room: string, ticket: nat)  // queued or admitted, waiting for the slot
    | Active                              // in a room
    | Finished

  /** The disconnect reason; the first two stand for the empty text and "drop". */
  datatype Reason = Unset | Drop | Kicked | Banned

  datatype Client = Client(host: string, username: string, room: string, admin: bool, muted: bool,
                           closed: bool, reason: Reason, stage: Stage)

  datatype Entry = Entry(client: ConnId, ticket: nat)

  /** A history item; the stamp tells apart equal messages recorded at different times. */
  datatype Event = Event(stamp: nat, msg: Message)

  datatype Room = Room(clients: map<string, ConnId>, history: seq<Event>, queue: seq<Entry>)

  datatype Ticket = Ticket(room: string, client: ConnId)

  datatype Server = Server(
    conns: map<ConnId, Client>,
    clients: map<string, ConnId>,
    rooms: map<string, Room>,
    admins: set<string>,
    kicked: map<string, int>,          // host to end of cooldown
    banned: set<string>,
    shuttingDown: bool,
    // observations
    log: seq<Message>,                 // everything passed to the logger
    stamps: nat,
    heard: set<(ConnId, Event)>,       // room events sent to a connection
    position: map<ConnId, nat>,        // last queue position sent to a connection
    tickets: seq<Ticket>,              // every queue entry ever made, in order
    admitted: seq<nat>                 // tickets admitted, in order
  )

  const NO_CLIENT := Client("", "", "", false, false, true, Unset, Finished)
  const EMPTY_ROOM := Room(map[], [], [])

  function Fresh(admins: set<string>): Server {
    Server(map[], map[], map[DEFAULT_ROOM := EMPTY_ROOM], admins, map[], {}, false, [], 0, {}, map[], [], [])
  }

  predicate Reserved(name: string) { name == "Server" }

  predicate Pending(stage: Stage) { stage.Choosing? || stage.Asked? || stage.Waiting? }

  predicate Moderated(c: Client) { c.reason.Kicked? || c.reason.Banned? }

  function ClientOf(s: Server, id: ConnId): Client { if id in s.conns then s.conns[id] else NO_CLIENT }

  function RoomOf(s: Server, room: string): Room { if room in s.rooms then s.rooms[room] else EMPTY_ROOM }

  function Members(s: Server, room: string): map<string, ConnId> { RoomOf(s, room).clients }

  function Queue(s: Server, room: string): seq<Entry> { RoomOf(s, room).queue }

  function History(s: Server, room: string): seq<Event> { RoomOf(s, room).history }

  function WithClient(s: Server, id: ConnId, c: Client): Server { s.(conns := s.conns[id := c]) }

  function WithRoom(s: Server, room: string, r: Room): Server { s.(rooms := s.rooms[room := r]) }

  function WithQueue(s: Server, room: string, queue: seq<Entry>): Server {
    WithRoom(s, room, RoomOf(s, room).(queue := queue))
  }

  // ---------- name indexes (clients.go) ----------

  function RegisterClient(s: Server, id: ConnId, name: string): (Server, bool) {
    if name in s.clients || Reserved(name) then (s, false)
    else (WithClient(s, id, ClientOf(s, id).(username := name)).(clients := s.clients[name := id]), true)
  }

  /** Rooms without the given name in the given room. */
  function Without(rooms: map<string, Room>, room: string, name: string): map<string, Room> {
    if room != "" && room in rooms
    then rooms[room := rooms[room].(clients := rooms[room].clients - {name})]
    else rooms
  }

  function RemoveClient(s: Server, name: string): Server {
    if name !in s.clients then s
    else s.(rooms := Without(s.rooms, ClientOf(s, s.clients[name]).room, name), clients := s.clients - {name})
  }

  predicate CanRekey(s: Server, name: string) { name !in s.clients && !Reserved(name) }

  function RenameClient(s: Server, id: ConnId, oldName: string, newName: string): (Server, bool) {
    if !CanRekey(s, newName) then (s, false)
    else
      var c := ClientOf(s, id);
      var rooms := Without(s.rooms, c.room, oldName);
      var moved := if c.room != "" && c.room in rooms
                   then rooms[c.room := rooms[c.room].(clients := rooms[c.room].clients[newName := id])]
                   else rooms;
      (WithClient(s, id, c.(username := newName)).(clients := (s.clients - {oldName})[newName := id], rooms := moved), true)
  }

  predicate HasHost(s: Server, id: ConnId, host: string) { ClientOf(s, id).host == host }

  /** Registered connections with the given host, except the one of the given name. */
  function ClientsByHost(s: Server, host: string, exclude: string): set<ConnId> {
    set name | name in s.clients && HasHost(s, s.clients[name], host) && ClientOf(s, s.clients[name]).username != exclude
      :: s.clients[name]
  }

  // ---------- rooms (room.go) ----------

  function JoinRoom(s: Server, id: ConnId, room: string): Server {
    var c := ClientOf(s, id);
    var left := s.(rooms := Without(s.rooms, c.room, c.username));
    var r := RoomOf(left, room);
    WithClient(WithRoom(left, room, r.(clients := r.clients[c.username := id])), id, c.(room := room))
  }

  function DeleteRoomIfEmpty(s: Server, room: string): Server {
    if room != DEFAULT_ROOM && room in s.rooms && s.rooms[room].clients == map[] && s.rooms[room].queue == []
    then s.(rooms := s.rooms - {room})
    else s
  }

  function EventOf(s: Server, room: string, m: Message): Event { Event(s.stamps, m.(room := room)) }

  function Record(s: Server, room: string, m: Message): Server {
    var r := RoomOf(s, room);
    var e := EventOf(s, room, m);
    WithRoom(s, room, r.(history := r.history + [e])).(log := s.log + [e.msg], stamps := s.stamps + 1)
  }

  function Receivers(s: Server, room: string, exclude: string): set<ConnId> {
    set name | name in Members(s, room) && name != exclude :: Members(s, room)[name]
  }

  function BroadcastRoom(s: Server, room: string, e: Event, exclude: string): Server {
    s.(heard := s.heard + set id | id in Receivers(s, room, exclude) :: (id, e))
  }

  /** The history copy sent to a connection that has just joined. */
  function SendHistory(s: Server, id: ConnId, room: string): Server {
    s.(heard := s.heard + set e | e in History(s, room) :: (id, e))
  }

  function ClearHistory(s: Server): Server {
    s.(rooms := map room | room in s.rooms :: s.rooms[room].(history := []))
  }

  predicate HasCapacity(s: Server, room: string) { |Members(s, room)| < MAX_ACTIVE }

  // ---------- queues (room.go, handler.go) ----------

  /** Every queued connection is told its position, front first. */
  function Renumber(position: map<ConnId, nat>, queue: seq<Entry>): map<ConnId, nat> {
    if queue == [] then position
    else Renumber(position, queue[..|queue| - 1])[queue[|queue| - 1].client := |queue|]
  }

  function Enqueue(s: Server, id: ConnId, room: string): Server {
    var queue := Queue(s, room) + [Entry(id, |s.tickets|)];
    WithQueue(s, room, queue).(tickets := s.tickets + [Ticket(room, id)], position := s.position[id := |queue|])
  }

  /** Number of closed connections ahead of the first live one. */
  function ClosedAhead(s: Server, queue: seq<Entry>): (k: nat)
    ensures k <= |queue|
    ensures forall i :: 0 <= i < k ==> ClientOf(s, queue[i].client).closed
    ensures k < |queue| ==> !ClientOf(s, queue[k].client).closed
  {
    if queue == [] || !ClientOf(s, queue[0].client).closed then 0 else 1 + ClosedAhead(s, queue[1..])
  }

  function Admit(s: Server, room: string): Server {
    if s.shuttingDown || room !in s.rooms then s
    else
      var queue := Queue(s, room);
      var k := ClosedAhead(s, queue);
      if k == |queue| then WithQueue(s, room, [])
      else
        var rest := queue[k + 1..];
        WithQueue(s, room, rest).(admitted := s.admitted + [queue[k].ticket], position := Renumber(s.position, rest))
  }

  /** The queue without its first entry with the given ticket. */
  function WithoutTicket(queue: seq<Entry>, ticket: nat): seq<Entry> {
    if queue == [] then []
    else if queue[0].ticket == ticket then queue[1..]
    else [queue[0]] + WithoutTicket(queue[1..], ticket)
  }

  function RemoveFromQueue(s: Server, room: string, ticket: nat): Server {
    if room !in s.rooms then s
    else
      var queue := WithoutTicket(Queue(s, room), ticket);
      WithQueue(s, room, queue).(position := Renumber(s.position, queue))
  }

  function Kept(s: Server, queue: seq<Entry>, host: string): seq<Entry> {
    if queue == [] then []
    else
      var kept := Kept(s, queue[..|queue| - 1], host);
      var e := queue[|queue| - 1];
      if HasHost(s, e.client, host) then kept else kept + [e]
  }

  function Dropped(s: Server, queue: seq<Entry>, host: string): seq<ConnId> {
    if queue == [] then []
    else
      var dropped := Dropped(s, queue[..|queue| - 1], host);
      var e := queue[|queue| - 1];
      if HasHost(s, e.client, host) then dropped + [e.client] else dropped
  }

  /** RemoveFromAllRoomQueuesByIP over the rooms in the order the map iteration visits them. As in the source, a room
      is rewritten and renumbered once anything has been removed in this or an earlier room. */
  function Purge(s: Server, host: string, visit: seq<string>): (Server, seq<ConnId>) {
    if visit == [] then (s, [])
    else
      var (t, removed) := Purge(s, host, visit[..|visit| - 1]);
      var room := visit[|visit| - 1];
      var queue := Queue(t, room);
      var all := removed + Dropped(t, queue, host);
      if all == [] then (t, all)
      else
        var kept := Kept(t, queue, host);
        (WithQueue(t, room, kept).(position := Renumber(t.position, kept)), all)
  }

  function CloseConn(s: Server, id: ConnId): Server { WithClient(s, id, ClientOf(s, id).(closed := true)) }

  function CloseAll(s: Server, ids: seq<ConnId>): Server {
    if ids == [] then s else CloseConn(CloseAll(s, ids[..|ids| - 1]), ids[|ids| - 1])
  }

  /** A sequence that lists every element of a set once: one possible map iteration order. */
  ghost predicate Enumerates<T(!new)>(order: seq<T>, all: set<T>) {
    (forall x :: x in order <==> x in all) && (forall i, j :: 0 <= i < j < |order| ==> order[i] != order[j])
  }

  // ---------- address blocks (moderation.go) ----------

  function IsBlocked(s: Server, host: string, clock: int): (Server, bool) {
    if host in s.banned then (s, true)
    else if host in s.kicked then
      if clock < s.kicked[host] then (s, true) else (s.(kicked := s.kicked - {host}), false)
    else (s, false)
  }

  function AddKickCooldown(s: Server, host: string, clock: int): Server {
    s.(kicked := s.kicked[host := clock + KICK_SECONDS])
  }

  function AddBan(s: Server, host: string): Server { s.(banned := s.banned + {host}) }

  // ---------- admins (admins.go) ----------

  function RenameAdmin(s: Server, oldName: string, newName: string): Server {
    if oldName in s.admins then s.(admins := s.admins - {oldName} + {newName}) else s
  }
}
