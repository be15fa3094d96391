/** Connection events and commands, each as one step (server/handler.go, commands.go, operator.go). */
module Commands {
  import opened Text
  import opened Messages
  import opened ServerState

  /** Wall clock readings of one step. */
  datatype Moment = Moment(time: Time, clock: int)

  /** The map iteration orders a ban meets. */
  datatype BanOrder = BanOrder(collateral: seq<ConnId>, visit: seq<string>, reopened: seq<string>)

  datatype Action =
    | Connect(id: ConnId, host: string)
    | EnterName(id: ConnId, name: string)
    | ChooseRoom(id: ConnId, line: string)
    | Answer(id: ConnId, line: string)
    | TakeSlot(id: ConnId)
    | GiveUp(id: ConnId)                       // read error or closed connection before entering a room
    | Say(id: ConnId, line: string)
    | Switch(id: ConnId, args: string)
    | Create(id: ConnId, args: string)
    | Rename(id: ConnId, args: string)
    | Kick(id: ConnId, args: string)
    | Ban(id: ConnId, args: string, order: BanOrder)
    | SetMute(id: ConnId, args: string, on: bool)
    | Announce(id: ConnId, args: string, names: seq<string>)
    | Leave(id: ConnId, drop: bool)            // /quit, or a read error
    | OperatorKick(args: string, visit: seq<string>)
    | OperatorBan(args: string, order: BanOrder)
    | OperatorSetMute(args: string, on: bool)
    | OperatorAnnounce(args: string, names: seq<string>)
    | OperatorPromote(args: string)
    | OperatorDemote(args: string)
    | Sever(id: ConnId, drop: bool)            // connection closed by the heartbeat or by shutdown
    | Midnight
    | BeginShutdown

  function Note(now: Moment, kind: Kind, sender: string, content: string, extra: string): Message {
    Message(now.time, sender, content, kind, extra, "")
  }

  function Publish(s: Server, room: string, m: Message, exclude: string): Server {
    BroadcastRoom(Record(s, room, m), room, EventOf(s, room, m), exclude)
  }

  // ---------- entering (handler.go) ----------

  function AcceptConnection(s: Server, id: ConnId, host: string, now: Moment): Server {
    var (t, blocked) := IsBlocked(s, host, now.clock);
    if blocked || t.shuttingDown then WithClient(t, id, NO_CLIENT.(host := host))
    else WithClient(t, id, NO_CLIENT.(host := host, closed := false, stage := Naming))
  }

  function SubmitName(s: Server, id: ConnId, name: string): Server {
    if !ValidName(name) || Reserved(name) then s
    else
      var (t, ok) := RegisterClient(s, id, name);
      if !ok then s
      else WithClient(t, id, ClientOf(t, id).(stage := Choosing, admin := ClientOf(t, id).admin || name in t.admins))
  }

  function EnterRoom(s: Server, id: ConnId, room: string, now: Moment): Server {
    var joined := JoinRoom(s, id, room);
    var c := ClientOf(joined, id);
    var settled := WithClient(SendHistory(joined, id, room), id, c.(stage := Active));
    Publish(settled, room, Note(now, Kind.Join, c.username, "", ""), c.username)
  }

  function FinishPending(s: Server, id: ConnId): Server {
    var t := RemoveClient(s, ClientOf(s, id).username);
    WithClient(t, id, ClientOf(t, id).(closed := true, stage := Finished))
  }

  function GiveUpStep(s: Server, id: ConnId): Server {
    var c := ClientOf(s, id);
    if c.stage.Naming? then WithClient(s, id, c.(closed := true, stage := Finished))
    else if c.stage.Choosing? then FinishPending(s, id)
    else if c.stage.Asked? || c.stage.Waiting? then FinishPending(RemoveFromQueue(s, c.stage.room, c.stage.ticket), id)
    else s
  }

  function SubmitRoom(s: Server, id: ConnId, line: string, now: Moment): Server {
    var room := if TrimSpace(line) == "" then DEFAULT_ROOM else TrimSpace(line);
    if !ValidName(room) then s
    else if s.shuttingDown then FinishPending(s, id)
    else if HasCapacity(s, room) then EnterRoom(s, id, room, now)
    else
      var t := Enqueue(s, id, room);
      WithClient(t, id, ClientOf(t, id).(stage := Asked(room, |s.tickets|)))
  }

  function AnswerStep(s: Server, id: ConnId, line: string): Server {
    var c := ClientOf(s, id);
    if !c.stage.Asked? then s
    else if TrimSpace(line) == "yes" then WithClient(s, id, c.(stage := Waiting(c.stage.room, c.stage.ticket)))
    else if TrimSpace(line) == "no" then GiveUpStep(s, id)
    else s
  }

  // ---------- session commands (commands.go) ----------

  function SayStep(s: Server, id: ConnId, line: string, now: Moment): Server {
    var c := ClientOf(s, id);
    if TrimSpace(line) == "" || ByteLen(line) > 2048 || c.muted then s
    else Publish(s, c.room, Note(now, Chat, c.username, line, ""), c.username)
  }

  function SwitchRoom(s: Server, id: ConnId, room: string, now: Moment): Server {
    var c := ClientOf(s, id);
    var parted := Publish(s, c.room, Note(now, Kind.Leave, c.username, "", "switched"), c.username);
    var arrived := DeleteRoomIfEmpty(Admit(JoinRoom(parted, id, room), c.room), c.room);
    Publish(SendHistory(arrived, id, room), room, Note(now, Kind.Join, c.username, "", ""), c.username)
  }

  function SwitchStep(s: Server, id: ConnId, args: string, now: Moment): Server {
    if args == "" || !ValidName(args) || args == ClientOf(s, id).room || !HasCapacity(s, args) then s
    else SwitchRoom(s, id, args, now)
  }

  function CreateStep(s: Server, id: ConnId, args: string, now: Moment): Server {
    if args == "" || !ValidName(args) || args in s.rooms then s else SwitchRoom(s, id, args, now)
  }

  function RenameStep(s: Server, id: ConnId, args: string, now: Moment): Server {
    var c := ClientOf(s, id);
    if args == "" || !ValidName(args) || Reserved(args) || args == c.username then s
    else
      var (t, ok) := RenameClient(s, id, c.username, args);
      if !ok then s
      else
        var u := if c.admin then RenameAdmin(t, c.username, args) else t;
        Publish(u, c.room, Note(now, NameChange, args, "", c.username), "")
  }

  // ---------- moderation, shared by /kick, /ban and the operator ----------

  function Verb(verdict: Reason): string { if verdict.Kicked? then "kicked" else "banned" }

  /** Removes a name from both indexes, records why, and closes the connection it was looked up for. */
  function Expel(s: Server, id: ConnId, name: string, verdict: Reason, issuer: string, now: Moment): Server {
    var c := ClientOf(s, id);
    var t := RemoveClient(WithClient(s, id, c.(reason := verdict)), name);
    CloseConn(Publish(t, c.room, Note(now, Moderation, name, Verb(verdict), issuer), ""), id)
  }

  function KickTarget(s: Server, name: string, issuer: string, now: Moment): Server
    requires name in s.clients
  {
    var id := s.clients[name];
    var c := ClientOf(s, id);
    Admit(AddKickCooldown(Expel(s, id, name, Kicked, issuer, now), c.host, now.clock), c.room)
  }

  function ExpelAll(s: Server, ids: seq<ConnId>, issuer: string, now: Moment): Server {
    if ids == [] then s
    else
      var t := ExpelAll(s, ids[..|ids| - 1], issuer, now);
      var id := ids[|ids| - 1];
      Expel(t, id, ClientOf(t, id).username, Banned, issuer, now)
  }

  /** Slots opened in a room by removing these connections. */
  function SlotsOpened(s: Server, ids: seq<ConnId>, room: string): nat {
    if ids == [] then 0
    else SlotsOpened(s, ids[..|ids| - 1], room) + if ClientOf(s, ids[|ids| - 1]).room == room then 1 else 0
  }

  function AdmitTimes(s: Server, room: string, n: nat): Server {
    if n == 0 then s else Admit(AdmitTimes(s, room, n - 1), room)
  }

  function AdmitRooms(s: Server, rooms: seq<string>, ids: seq<ConnId>): Server {
    if rooms == [] then s
    else
      var room := rooms[|rooms| - 1];
      AdmitTimes(AdmitRooms(s, rooms[..|rooms| - 1], ids), room, SlotsOpened(s, ids, room))
  }

  /** State right after the named target itself has been banned. */
  function BanFirst(s: Server, name: string, issuer: string, now: Moment): Server
    requires name in s.clients
  {
    AddBan(Expel(s, s.clients[name], name, Banned, issuer, now), ClientOf(s, s.clients[name]).host)
  }

  /** Everyone removed from a room by the ban, the target first. */
  function Expelled(s: Server, name: string, order: BanOrder): seq<ConnId>
    requires name in s.clients
  {
    [s.clients[name]] + order.collateral
  }

  /** State after all registered clients of the host are gone. */
  function BanEveryone(s: Server, name: string, issuer: string, order: BanOrder, now: Moment): Server
    requires name in s.clients
  {
    ExpelAll(BanFirst(s, name, issuer, now), order.collateral, issuer, now)
  }

  function PurgeAndClose(s: Server, host: string, visit: seq<string>): Server {
    var (t, removed) := Purge(s, host, visit);
    CloseAll(t, removed)
  }

  function BanTarget(s: Server, name: string, issuer: string, order: BanOrder, now: Moment): Server
    requires name in s.clients
  {
    var host := ClientOf(s, s.clients[name]).host;
    AdmitRooms(PurgeAndClose(BanEveryone(s, name, issuer, order, now), host, order.visit), order.reopened, Expelled(s, name, order))
  }

  /** The orders are ones the map iterations of this ban can take. */
  ghost predicate PossibleOrder(s: Server, name: string, issuer: string, exclude: string, order: BanOrder, now: Moment)
    requires name in s.clients
  {
    var host := ClientOf(s, s.clients[name]).host;
    && Enumerates(order.collateral, ClientsByHost(BanFirst(s, name, issuer, now), host, exclude))
    && Enumerates(order.visit, BanEveryone(s, name, issuer, order, now).rooms.Keys)
    && Enumerates(order.reopened, set id | id in Expelled(s, name, order) :: ClientOf(s, id).room)
  }

  function MuteTarget(s: Server, name: string, on: bool, issuer: string, now: Moment): Server
    requires name in s.clients
  {
    var id := s.clients[name];
    var c := ClientOf(s, id);
    if c.muted == on then s
    else Record(WithClient(s, id, c.(muted := on)), c.room, Note(now, Moderation, name, if on then "muted" else "unmuted", issuer))
  }

  function AnnounceIn(s: Server, names: seq<string>, text: string, issuer: string, now: Moment): Server {
    if names == [] then s
    else Record(AnnounceIn(s, names[..|names| - 1], text, issuer, now), names[|names| - 1], Note(now, Announcement, "", text, issuer))
  }

  function PromoteTarget(s: Server, name: string, on: bool, issuer: string, now: Moment): Server
    requires name in s.clients
  {
    var id := s.clients[name];
    var c := ClientOf(s, id);
    if c.admin == on then s
    else
      var t := WithClient(s, id, c.(admin := on)).(admins := if on then s.admins + {name} else s.admins - {name});
      Record(t, c.room, Note(now, Moderation, name, if on then "promoted" else "demoted", issuer))
  }

  // ---------- leaving (handler.go) ----------

  function Cleanup(s: Server, id: ConnId, now: Moment): Server {
    var c := ClientOf(s, id);
    var t :=
      if Moderated(c) then s
      else Publish(RemoveClient(s, c.username), c.room,
                   Note(now, Kind.Leave, c.username, "", if c.reason.Unset? then "voluntary" else "drop"), c.username);
    var u := DeleteRoomIfEmpty(Admit(t, c.room), c.room);
    WithClient(u, id, ClientOf(u, id).(closed := true, stage := Finished))
  }

  function SetReason(c: Client, drop: bool): Client {
    if drop && c.reason.Unset? then c.(reason := Drop) else c
  }

  // ---------- steps ----------

  /** A session command is read only while the connection is open. */
  predicate InSession(s: Server, id: ConnId) {
    ClientOf(s, id).stage.Active? && !ClientOf(s, id).closed
  }

  predicate IsAdmin(s: Server, id: ConnId) { ClientOf(s, id).admin }

  ghost predicate Enabled(s: Server, a: Action, now: Moment) {
    match a
    case Connect(id, _) => id !in s.conns
    case EnterName(id, _) => ClientOf(s, id).stage.Naming?
    case ChooseRoom(id, _) => ClientOf(s, id).stage.Choosing?
    case Answer(id, _) => ClientOf(s, id).stage.Asked?
    case TakeSlot(id) => ClientOf(s, id).stage.Waiting? && ClientOf(s, id).stage.ticket in s.admitted
    case GiveUp(id) => ClientOf(s, id).stage.Naming? || Pending(ClientOf(s, id).stage)
    case Say(id, _) => InSession(s, id)
    case Switch(id, _) => InSession(s, id)
    case Create(id, _) => InSession(s, id)
    case Rename(id, _) => InSession(s, id)
    case Kick(id, _) => InSession(s, id)
    case Ban(id, args, order) =>
      InSession(s, id)
      && (args in s.clients ==> PossibleOrder(s, args, ClientOf(s, id).username, ClientOf(s, id).username, order, now))
    case SetMute(id, _, _) => InSession(s, id)
    case Announce(id, _, names) => InSession(s, id) && Enumerates(names, s.rooms.Keys)
    case Leave(id, _) => ClientOf(s, id).stage.Active?
    case OperatorKick(_, visit) => Enumerates(visit, s.rooms.Keys)
    case OperatorBan(args, order) =>
      if args in s.clients then PossibleOrder(s, args, "Server", "", order, now) else Enumerates(order.visit, s.rooms.Keys)
    case OperatorSetMute(_, _) => true
    case OperatorAnnounce(_, names) => Enumerates(names, s.rooms.Keys)
    case OperatorPromote(_) => true
    case OperatorDemote(_) => true
    case Sever(id, _) => id in s.conns
    case Midnight => true
    case BeginShutdown => true
  }

  function KickQueued(s: Server, host: string, visit: seq<string>, now: Moment): Server {
    if Purge(s, host, visit).1 == [] then s
    else AddKickCooldown(PurgeAndClose(s, host, visit), host, now.clock)
  }

  function BanQueued(s: Server, host: string, visit: seq<string>): Server {
    if Purge(s, host, visit).1 == [] then s else AddBan(PurgeAndClose(s, host, visit), host)
  }

  function Step(s: Server, a: Action, now: Moment): Server {
    match a
    case Connect(id, host) => AcceptConnection(s, id, host, now)
    case EnterName(id, name) => SubmitName(s, id, name)
    case ChooseRoom(id, line) => SubmitRoom(s, id, line, now)
    case Answer(id, line) => AnswerStep(s, id, line)
    case TakeSlot(id) => (match ClientOf(s, id).stage case Waiting(room, _) => EnterRoom(s, id, room, now) case _ => s)
    case GiveUp(id) => GiveUpStep(s, id)
    case Say(id, line) => SayStep(s, id, line, now)
    case Switch(id, args) => SwitchStep(s, id, args, now)
    case Create(id, args) => CreateStep(s, id, args, now)
    case Rename(id, args) => RenameStep(s, id, args, now)
    case Kick(id, args) =>
      if IsAdmin(s, id) && args != "" && args in s.clients && ClientOf(s, s.clients[args]).room == ClientOf(s, id).room
      then KickTarget(s, args, ClientOf(s, id).username, now) else s
    case Ban(id, args, order) =>
      if IsAdmin(s, id) && args != "" && args in s.clients then BanTarget(s, args, ClientOf(s, id).username, order, now) else s
    case SetMute(id, args, on) =>
      if IsAdmin(s, id) && args != "" && args in s.clients then MuteTarget(s, args, on, ClientOf(s, id).username, now) else s
    case Announce(id, args, names) =>
      if IsAdmin(s, id) && TrimSpace(args) != "" then AnnounceIn(s, names, args, ClientOf(s, id).username, now) else s
    case Leave(id, drop) => Cleanup(WithClient(s, id, SetReason(ClientOf(s, id), drop)), id, now)
    case OperatorKick(args, visit) =>
      if args == "" then s
      else if args in s.clients then KickTarget(s, args, "Server", now) else KickQueued(s, args, visit, now)
    case OperatorBan(args, order) =>
      if args == "" then s
      else if args in s.clients then BanTarget(s, args, "Server", order, now) else BanQueued(s, args, order.visit)
    case OperatorSetMute(args, on) => if args != "" && args in s.clients then MuteTarget(s, args, on, "Server", now) else s
    case OperatorAnnounce(args, names) => if TrimSpace(args) != "" then AnnounceIn(s, names, args, "Server", now) else s
    case OperatorPromote(args) => if args != "" && args in s.clients then PromoteTarget(s, args, true, "Server", now) else s
    case OperatorDemote(args) => if args != "" && args in s.clients then PromoteTarget(s, args, false, "Server", now) else s
    case Sever(id, drop) => WithClient(s, id, SetReason(ClientOf(s, id), drop).(closed := true))
    case Midnight => ClearHistory(s)
    case BeginShutdown => s.(shuttingDown := true)
  }

  // ---------- runs ----------

  type Run = seq<(Action, Moment)>

  /** Every action of the run can happen when its turn comes. */
  ghost predicate Possible(s: Server, run: Run)
    decreases |run|
  {
    run == [] || (Enabled(s, run[0].0, run[0].1) && Possible(Step(s, run[0].0, run[0].1), run[1..]))
  }

  function After(s: Server, run: Run): Server
    decreases |run|
  {
    if run == [] then s else After(Step(s, run[0].0, run[0].1), run[1..])
  }
}
