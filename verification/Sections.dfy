/** The same server, one step per section under its lock: every handler and the operator work through a list of
    sections, and any two of them may interleave (server/handler.go, commands.go, operator.go, room.go). */
module Sections {
  import opened Text
  import opened Messages
  import opened ServerState
  import opened Commands

  datatype Thread = Handler(id: ConnId) | Operator

  /** A section still to be run, with what the thread read beforehand. */
  datatype Work =
    | Check(id: ConnId, room: string)                      // capacity check before entering
    | Line(id: ConnId, room: string)                       // take a place in the queue
    | CheckSwitch(id: ConnId, room: string)                // capacity check of /switch
    | CheckCreate(id: ConnId, room: string)                // existence check of /create
    | Move(id: ConnId, room: string)                       // JoinRoom
    | Snapshot(id: ConnId, room: string)                   // GetRoomHistory, sent to the connection
    | Post(room: string, m: Message, exclude: string)      // record, to be followed by the broadcast
    | Tell(room: string, e: Event, exclude: string)        // BroadcastRoom
    | Jot(room: string, m: Message)                        // record without a room broadcast
    | Unregister(name: string)                             // RemoveClient
    | Rekey(id: ConnId, name: string)                      // RenameClient
    | AdminRekey(oldName: string, newName: string)         // RenameAdmin
    | Refill(room: string)                                 // admitFromRoomQueue
    | RefillAny(rooms: multiset<string>)                   // one admission per slot a ban opened
    | Tidy(room: string)                                   // deleteRoomIfEmpty
    | Dequeue(room: string, ticket: nat)                   // removeFromRoomQueue
    | Mark(id: ConnId, reason: Reason)                     // ForceDisconnectReason
    | Shut(id: ConnId)                                     // Close
    | Cool(host: string, clock: int)                       // AddKickCooldown
    | Forbid(host: string)                                 // AddBanIP
    | Gather(host: string, exclude: string, issuer: string, room: string)         // GetClientsByIP
    | Collateral(ids: seq<ConnId>, host: string, issuer: string, rooms: multiset<string>)  // the next client of a ban
    | Sweep(host: string, penalty: seq<Work>)              // RemoveFromAllRoomQueuesByIP
    | Quit(id: ConnId)                                     // end of the handler

  /** Map iteration orders a section may meet. */
  datatype Choice = Choice(ids: seq<ConnId>, visit: seq<string>, room: string)

  /** Per room: departures no admission call has answered yet, places handed out while another was still out,
      and places handed out beyond the departures. */
  datatype Ledger = Ledger(owed: multiset<string>, overlap: multiset<string>, extra: multiset<string>)

  datatype System = System(
    server: Server,
    work: map<Thread, seq<Work>>,
    // observations
    ledger: Ledger,
    own: set<(ConnId, Event)>,        // events posted by the connection itself
    missed: set<(ConnId, Event)>,     // broadcasts that skipped a member bearing the excluded name, not sent since
    absent: set<(ConnId, Event)>      // broadcasts made while the connection was out of its room's index, not sent since
  )

  function WorkOf(y: System, th: Thread): seq<Work> { if th in y.work then y.work[th] else [] }

  function FreshSystem(admins: set<string>): System {
    System(Fresh(admins), map[], Ledger(multiset{}, multiset{}, multiset{}), {}, {}, {})
  }

  // ---------- the section lists of the commands ----------

  function Entering(s: Server, id: ConnId, room: string, now: Moment): seq<Work> {
    var name := ClientOf(s, id).username;
    [Move(id, room), Snapshot(id, room), Post(room, Note(now, Kind.Join, name, "", ""), name)]
  }

  function Switching(s: Server, id: ConnId, room: string, now: Moment): seq<Work> {
    var c := ClientOf(s, id);
    [Post(c.room, Note(now, Kind.Leave, c.username, "", "switched"), c.username), Move(id, room), Refill(c.room), Tidy(c.room),
     Snapshot(id, room), Post(room, Note(now, Kind.Join, c.username, "", ""), c.username)]
  }

  function GivingUp(s: Server, id: ConnId): seq<Work> {
    var c := ClientOf(s, id);
    if c.stage.Naming? then [Quit(id)]
    else if c.stage.Asked? || c.stage.Waiting? then [Dequeue(c.stage.room, c.stage.ticket), Unregister(c.username), Quit(id)]
    else [Unregister(c.username), Quit(id)]
  }

  function Leaving(c: Client, id: ConnId, now: Moment): seq<Work> {
    (if Moderated(c) then []
     else [Unregister(c.username),
           Post(c.room, Note(now, Kind.Leave, c.username, "", if c.reason.Unset? then "voluntary" else "drop"), c.username)])
    + [Refill(c.room), Tidy(c.room), Quit(id)]
  }

  function Kicking(s: Server, name: string, issuer: string, now: Moment): seq<Work>
    requires name in s.clients
  {
    var id := s.clients[name];
    var c := ClientOf(s, id);
    [Mark(id, Kicked), Unregister(name), Post(c.room, Note(now, Moderation, name, "kicked", issuer), ""), Shut(id),
     Cool(c.host, now.clock), Refill(c.room)]
  }

  function Banning(s: Server, name: string, issuer: string, exclude: string, now: Moment): seq<Work>
    requires name in s.clients
  {
    var id := s.clients[name];
    var c := ClientOf(s, id);
    [Mark(id, Banned), Unregister(name), Post(c.room, Note(now, Moderation, name, "banned", issuer), ""), Shut(id),
     Forbid(c.host), Gather(c.host, exclude, issuer, c.room)]
  }

  function Jots(rooms: seq<string>, m: Message): seq<Work> {
    if rooms == [] then [] else Jots(rooms[..|rooms| - 1], m) + [Jot(rooms[|rooms| - 1], m)]
  }

  function Shuts(ids: seq<ConnId>): seq<Work> {
    if ids == [] then [] else Shuts(ids[..|ids| - 1]) + [Shut(ids[|ids| - 1])]
  }

  // ---------- starting a command ----------

  function ThreadOf(a: Action): Thread {
    match a
    case Connect(id, _) => Handler(id)
    case EnterName(id, _) => Handler(id)
    case ChooseRoom(id, _) => Handler(id)
    case Answer(id, _) => Handler(id)
    case TakeSlot(id) => Handler(id)
    case GiveUp(id) => Handler(id)
    case Say(id, _) => Handler(id)
    case Switch(id, _) => Handler(id)
    case Create(id, _) => Handler(id)
    case Rename(id, _) => Handler(id)
    case Kick(id, _) => Handler(id)
    case Ban(id, _, _) => Handler(id)
    case SetMute(id, _, _) => Handler(id)
    case Announce(id, _, _) => Handler(id)
    case Leave(id, _) => Handler(id)
    case _ => Operator
  }

  /** Actions of neither a handler nor the operator: they are one section and run beside the threads. */
  predicate Ambient(a: Action) { a.Sever? || a.Midnight? || a.BeginShutdown? }

  /** A thread reads its next command only when it has finished the last one. */
  ghost predicate CanStart(y: System, a: Action) {
    var s := y.server;
    && (Ambient(a) || WorkOf(y, ThreadOf(a)) == [])
    && match a
       case Connect(id, _) => id !in s.conns
       case EnterName(id, _) => ClientOf(s, id).stage.Naming?
       case ChooseRoom(id, _) => ClientOf(s, id).stage.Choosing?
       case Answer(id, _) => ClientOf(s, id).stage.Asked?
       case TakeSlot(id) => ClientOf(s, id).stage.Waiting? && ClientOf(s, id).stage.ticket in s.admitted
       case GiveUp(id) => ClientOf(s, id).stage.Naming? || Pending(ClientOf(s, id).stage)
       case Announce(id, _, names) => InSession(s, id) && Enumerates(names, s.rooms.Keys)
       case Leave(id, _) => ClientOf(s, id).stage.Active?
       case OperatorAnnounce(_, names) => Enumerates(names, s.rooms.Keys)
       case Sever(id, _) => id in s.conns
       case Say(id, _) => InSession(s, id)
       case Switch(id, _) => InSession(s, id)
       case Create(id, _) => InSession(s, id)
       case Rename(id, _) => InSession(s, id)
       case Kick(id, _) => InSession(s, id)
       case Ban(id, _, _) => InSession(s, id)
       case SetMute(id, _, _) => InSession(s, id)
       case _ => true
  }

  /** What reading the command itself changes: registration, the connection's own flags, and ambient actions. */
  function StartEffect(s: Server, a: Action, now: Moment): Server {
    match a
    case Connect(id, host) => AcceptConnection(s, id, host, now)
    case EnterName(id, name) => SubmitName(s, id, name)
    case Answer(id, line) => if TrimSpace(line) == "yes" then AnswerStep(s, id, line) else s
    case Leave(id, drop) => WithClient(s, id, SetReason(ClientOf(s, id), drop))
    case SetMute(id, args, on) =>
      if IsAdmin(s, id) && args != "" && args in s.clients then SetMuted(s, args, on) else s
    case OperatorSetMute(args, on) =>
      if args != "" && args in s.clients then SetMuted(s, args, on) else s
    case OperatorPromote(args) => if args != "" && args in s.clients then SetAdmin(s, args, true) else s
    case OperatorDemote(args) => if args != "" && args in s.clients then SetAdmin(s, args, false) else s
    case Sever(id, drop) => Step(s, a, now)
    case Midnight => Step(s, a, now)
    case BeginShutdown => Step(s, a, now)
    case _ => s
  }

  function SetMuted(s: Server, name: string, on: bool): Server
    requires name in s.clients
  {
    var id := s.clients[name];
    var c := ClientOf(s, id);
    if c.muted == on then s else WithClient(s, id, c.(muted := on))
  }

  function SetAdmin(s: Server, name: string, on: bool): Server
    requires name in s.clients
  {
    var id := s.clients[name];
    var c := ClientOf(s, id);
    if c.admin == on then s
    else WithClient(s, id, c.(admin := on)).(admins := if on then s.admins + {name} else s.admins - {name})
  }

  function Flagged(s: Server, args: string, same: bool, verb: string, issuer: string, now: Moment): seq<Work>
    requires args in s.clients
  {
    if same then [] else [Jot(ClientOf(s, s.clients[args]).room, Note(now, Moderation, args, verb, issuer))]
  }

  /** The sections a command will run. */
  function StartWork(s: Server, a: Action, now: Moment): seq<Work> {
    match a
    case ChooseRoom(id, line) =>
      var room := if TrimSpace(line) == "" then DEFAULT_ROOM else TrimSpace(line);
      if !ValidName(room) then [] else if s.shuttingDown then GivingUp(s, id) else [Check(id, room)]
    case Answer(id, line) => if TrimSpace(line) == "no" then GivingUp(s, id) else []
    case TakeSlot(id) => (match ClientOf(s, id).stage case Waiting(room, _) => Entering(s, id, room, now) case _ => [])
    case GiveUp(id) => GivingUp(s, id)
    case Say(id, line) =>
      var c := ClientOf(s, id);
      if TrimSpace(line) == "" || ByteLen(line) > 2048 || c.muted then []
      else [Post(c.room, Note(now, Chat, c.username, line, ""), c.username)]
    case Switch(id, args) => if args == "" || !ValidName(args) || args == ClientOf(s, id).room then [] else [CheckSwitch(id, args)]
    case Create(id, args) => if args == "" || !ValidName(args) then [] else [CheckCreate(id, args)]
    case Rename(id, args) =>
      if args == "" || !ValidName(args) || Reserved(args) || args == ClientOf(s, id).username then [] else [Rekey(id, args)]
    case Kick(id, args) =>
      if IsAdmin(s, id) && args != "" && args in s.clients && ClientOf(s, s.clients[args]).room == ClientOf(s, id).room
      then Kicking(s, args, ClientOf(s, id).username, now) else []
    case Ban(id, args, _) =>
      if IsAdmin(s, id) && args != "" && args in s.clients
      then Banning(s, args, ClientOf(s, id).username, ClientOf(s, id).username, now) else []
    case SetMute(id, args, on) =>
      if IsAdmin(s, id) && args != "" && args in s.clients
      then Flagged(s, args, ClientOf(s, s.clients[args]).muted == on, if on then "muted" else "unmuted", ClientOf(s, id).username, now)
      else []
    case Announce(id, args, names) =>
      if IsAdmin(s, id) && TrimSpace(args) != "" then Jots(names, Note(now, Announcement, "", args, ClientOf(s, id).username)) else []
    case Leave(id, drop) => Leaving(SetReason(ClientOf(s, id), drop), id, now)
    case OperatorKick(args, _) =>
      if args == "" then []
      else if args in s.clients then Kicking(s, args, "Server", now) else [Sweep(args, [Cool(args, now.clock)])]
    case OperatorBan(args, _) =>
      if args == "" then []
      else if args in s.clients then Banning(s, args, "Server", "", now) else [Sweep(args, [Forbid(args)])]
    case OperatorSetMute(args, on) =>
      if args != "" && args in s.clients
      then Flagged(s, args, ClientOf(s, s.clients[args]).muted == on, if on then "muted" else "unmuted", "Server", now) else []
    case OperatorAnnounce(args, names) =>
      if TrimSpace(args) != "" then Jots(names, Note(now, Announcement, "", args, "Server")) else []
    case OperatorPromote(args) =>
      if args != "" && args in s.clients then Flagged(s, args, ClientOf(s, s.clients[args]).admin, "promoted", "Server", now) else []
    case OperatorDemote(args) =>
      if args != "" && args in s.clients then Flagged(s, args, !ClientOf(s, s.clients[args]).admin, "demoted", "Server", now) else []
    case _ => []
  }

  // ---------- running a section ----------

  ghost predicate Legal(s: Server, w: Work, choice: Choice) {
    match w
    case Gather(host, exclude, _, _) => Enumerates(choice.ids, ClientsByHost(s, host, exclude))
    case Sweep(_, _) => Enumerates(choice.visit, s.rooms.Keys)
    case RefillAny(rooms) => choice.room in rooms
    case _ => true
  }

  function Effect(s: Server, w: Work, choice: Choice): Server {
    match w
    case Line(id, room) =>
      var t := Enqueue(s, id, room);
      WithClient(t, id, ClientOf(t, id).(stage := Asked(room, |s.tickets|)))
    case Move(id, room) =>
      var t := JoinRoom(s, id, room);
      WithClient(t, id, ClientOf(t, id).(stage := Active))
    case Snapshot(id, room) => SendHistory(s, id, room)
    case Post(room, m, _) => Record(s, room, m)
    case Tell(room, e, exclude) => BroadcastRoom(s, room, e, exclude)
    case Jot(room, m) => Record(s, room, m)
    case Unregister(name) => RemoveClient(s, name)
    case Rekey(id, name) => RenameClient(s, id, ClientOf(s, id).username, name).0
    case AdminRekey(oldName, newName) => RenameAdmin(s, oldName, newName)
    case Refill(room) => Admit(s, room)
    case RefillAny(_) => Admit(s, choice.room)
    case Tidy(room) => DeleteRoomIfEmpty(s, room)
    case Dequeue(room, ticket) => RemoveFromQueue(s, room, ticket)
    case Mark(id, reason) => WithClient(s, id, ClientOf(s, id).(reason := reason))
    case Shut(id) => CloseConn(s, id)
    case Cool(host, clock) => AddKickCooldown(s, host, clock)
    case Forbid(host) => AddBan(s, host)
    case Collateral(ids, _, _, _) => if ids == [] then s else WithClient(s, ids[0], ClientOf(s, ids[0]).(reason := Banned))
    case Sweep(host, _) => Purge(s, host, choice.visit).0
    case Quit(id) => WithClient(s, id, ClientOf(s, id).(closed := true, stage := Finished))
    case _ => s
  }

  /** The sections that take the place of the one just run. */
  function Next(s: Server, w: Work, choice: Choice, now: Moment): seq<Work> {
    match w
    case Check(id, room) => if HasCapacity(s, room) then Entering(s, id, room, now) else [Line(id, room)]
    case CheckSwitch(id, room) => if HasCapacity(s, room) then Switching(s, id, room, now) else []
    case CheckCreate(id, room) => if room !in s.rooms then Switching(s, id, room, now) else []
    case Post(room, m, exclude) => [Tell(room, EventOf(s, room, m), exclude)]
    case Rekey(id, name) =>
      var c := ClientOf(s, id);
      if !CanRekey(s, name) then []
      else (if c.admin then [AdminRekey(c.username, name)] else []) + [Post(c.room, Note(now, NameChange, name, "", c.username), "")]
    case RefillAny(rooms) => if rooms == multiset{choice.room} then [] else [RefillAny(rooms - multiset{choice.room})]
    case Gather(host, _, issuer, room) => [Collateral(choice.ids, host, issuer, multiset{room})]
    case Collateral(ids, host, issuer, rooms) =>
      if ids == [] then [Sweep(host, []), RefillAny(rooms)]
      else
        var c := ClientOf(s, ids[0]);
        [Unregister(c.username), Post(c.room, Note(now, Moderation, c.username, "banned", issuer), ""), Shut(ids[0]),
         Collateral(ids[1..], host, issuer, rooms + multiset{c.room})]
    case Sweep(host, penalty) => var removed := Purge(s, host, choice.visit).1; if removed == [] then [] else Shuts(removed) + penalty
    case _ => []
  }

  // ---------- observations ----------

  /** A place in the room is out: the check has passed or the queue has admitted, and the join has not happened. */
  ghost predicate Granted(y: System, id: ConnId, room: string) {
    || Move(id, room) in WorkOf(y, Handler(id))
    || HoldsSlot(y.server, id, room)
  }

  predicate HoldsSlot(s: Server, id: ConnId, room: string) {
    var stage := ClientOf(s, id).stage;
    (stage.Asked? || stage.Waiting?) && stage.room == room && stage.ticket in s.admitted
  }

  ghost function Grants(y: System, room: string): set<ConnId> {
    set id | id in y.server.conns && Granted(y, id, room)
  }

  /** The rooms that lose a member, gain an admission, or gain a member without a check, by this section. */
  function Vacated(s: Server, w: Work): multiset<string> {
    match w
    case Move(id, _) => var c := ClientOf(s, id); if c.room != "" && c.username in Members(s, c.room) then multiset{c.room} else multiset{}
    case Unregister(name) =>
      if name in s.clients && ClientOf(s, s.clients[name]).room != "" && name in Members(s, ClientOf(s, s.clients[name]).room)
      then multiset{ClientOf(s, s.clients[name]).room} else multiset{}
    case _ => multiset{}
  }

  function AdmitsIn(w: Work, choice: Choice): multiset<string> {
    match w case Refill(room) => multiset{room} case RefillAny(_) => multiset{choice.room} case _ => multiset{}
  }

  /** A rename by a connection that is no longer in its room puts it back without a check. */
  function Reenters(s: Server, w: Work): multiset<string> {
    match w
    case Rekey(id, name) =>
      var c := ClientOf(s, id);
      if CanRekey(s, name) && c.room != "" && c.room in s.rooms && c.username !in Members(s, c.room) then multiset{c.room} else multiset{}
    case _ => multiset{}
  }

  /** A place handed out by the capacity check alone. */
  function FastGrant(s: Server, w: Work): multiset<string> {
    match w
    case Check(_, room) => if HasCapacity(s, room) then multiset{room} else multiset{}
    case CheckSwitch(_, room) => if HasCapacity(s, room) then multiset{room} else multiset{}
    case CheckCreate(_, room) => if room !in s.rooms then multiset{room} else multiset{}
    case _ => multiset{}
  }

  /** A place handed out by a check while another is out or a departure has not been answered. */
  ghost function Overlapping(y: System, w: Work): multiset<string> {
    if (w.Check? || w.CheckSwitch? || w.CheckCreate?) && (Grants(y, w.room) != {} || w.room in y.ledger.owed)
    then FastGrant(y.server, w) else multiset{}
  }

  /** An admission that answers no departure. */
  function Unanswered(y: System, w: Work, choice: Choice): multiset<string> {
    var admits := AdmitsIn(w, choice);
    if Effect(y.server, w, choice).admitted != y.server.admitted && admits * y.ledger.owed == multiset{} then admits else multiset{}
  }

  ghost function Booked(y: System, w: Work, choice: Choice): Ledger {
    Ledger(
      y.ledger.owed + Vacated(y.server, w) - AdmitsIn(w, choice),
      y.ledger.overlap + Overlapping(y, w),
      y.ledger.extra + Reenters(y.server, w) + Unanswered(y, w, choice))
  }

  function NewlyMissed(s: Server, th: Thread, w: Work): set<(ConnId, Event)> {
    if w.Tell? && w.exclude in Members(s, w.room) && th != Handler(Members(s, w.room)[w.exclude])
    then {(Members(s, w.room)[w.exclude], w.e)} else {}
  }

  function NewlyAbsent(s: Server, th: Thread, w: Work): set<(ConnId, Event)> {
    if w.Tell?
    then set id | id in s.conns && ClientOf(s, id).room == w.room && id !in Members(s, w.room).Values && th != Handler(id) :: (id, w.e)
    else {}
  }

  function NewlyOwn(s: Server, th: Thread, w: Work): set<(ConnId, Event)> {
    if w.Post? && th.Handler? then {(th.id, EventOf(s, w.room, w.m))} else {}
  }

  predicate InPlace(s: Server, id: ConnId) {
    var c := ClientOf(s, id); c.username in Members(s, c.room) && Members(s, c.room)[c.username] == id
  }

  // ---------- the system's steps ----------

  datatype Tick = Begin(a: Action, now: Moment) | Continue(th: Thread, choice: Choice, now: Moment)

  ghost predicate Can(y: System, tick: Tick) {
    match tick
    case Begin(a, _) => CanStart(y, a)
    case Continue(th, choice, _) => WorkOf(y, th) != [] && Legal(y.server, WorkOf(y, th)[0], choice)
  }

  ghost function Started(y: System, a: Action, now: Moment): System {
    y.(server := StartEffect(y.server, a, now),
       work := if Ambient(a) then y.work else y.work[ThreadOf(a) := StartWork(y.server, a, now)])
  }

  ghost function Continued(y: System, th: Thread, choice: Choice, now: Moment): System
    requires WorkOf(y, th) != []
  {
    var w := WorkOf(y, th)[0];
    System(Effect(y.server, w, choice),
           y.work[th := Next(y.server, w, choice, now) + WorkOf(y, th)[1..]],
           Booked(y, w, choice),
           y.own + NewlyOwn(y.server, th, w),
           y.missed + NewlyMissed(y.server, th, w) - Effect(y.server, w, choice).heard,
           y.absent + NewlyAbsent(y.server, th, w) - Effect(y.server, w, choice).heard)
  }

  ghost function TickOf(y: System, tick: Tick): System {
    match tick
    case Begin(a, now) => Started(y, a, now)
    case Continue(th, choice, now) => if WorkOf(y, th) == [] then y else Continued(y, th, choice, now)
  }

  type Trace = seq<Tick>

  ghost predicate Feasible(y: System, trace: Trace)
    decreases |trace|
  {
    trace == [] || (Can(y, trace[0]) && Feasible(TickOf(y, trace[0]), trace[1..]))
  }

  ghost function AfterTrace(y: System, trace: Trace): System
    decreases |trace|
  {
    if trace == [] then y else AfterTrace(TickOf(y, trace[0]), trace[1..])
  }
}
