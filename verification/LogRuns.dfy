/** The server's own histories and log follow the log machine of HistoryRuns: whatever sections interleave, the server
    records only loggable messages of one line each, and what it does to its histories is a run of recordings, deletions and
    clears (server/room.go, handler.go, commands.go, history.go). */
module LogRuns {
  import opened Text
  import opened Messages
  import opened ServerState
  import opened Commands
  import opened Sections
  import opened Logs
  import opened LogLines
  import opened Scripts
  import opened Capacity
  import opened Delivery
  import opened CalmRuns
  import opened Atomic
  import opened Lift
  import opened Ownership
  import Machine = HistoryRuns
  import Recovery = LiveHistory

  // ---------- names and messages ----------

  predicate NameOk(s: Server, id: ConnId) { ValidName(ClientOf(s, id).username) }

  predicate RoomOk(room: string) { room == "" || ValidName(room) }

  predicate ConnOk(c: Client) {
    && (c.stage.Active? || Pending(c.stage) ==> ValidName(c.username))
    && RoomOk(c.room)
    && (c.stage.Asked? || c.stage.Waiting? ==> ValidName(c.stage.room))
  }

  /** Names are valid wherever they are read. */
  ghost predicate Proper(s: Server) {
    && (forall id :: ConnOk(ClientOf(s, id)))
    && (forall name :: name in s.clients ==> ValidName(name) && NameOk(s, s.clients[name]))
    && (forall room <- s.rooms :: RoomOk(room))
  }

  /** Whoever has a valid name keeps having one. */
  ghost predicate Named(s: Server, t: Server) { forall id :: NameOk(s, id) ==> NameOk(t, id) }

  predicate Recordable(room: string, m: Message, date: string) {
    Plain(Machine.Tagged(room, m)) && Loggable(Machine.Tagged(room, m)) && FormatDate(m.timestamp) == date
  }

  /** What a section still to be run relies on. */
  ghost predicate Fine(s: Server, w: Work, date: string) {
    match w
    case Check(id, room) => ValidName(room) && NameOk(s, id)
    case Line(id, room) => ValidName(room) && NameOk(s, id)
    case CheckSwitch(id, room) => ValidName(room) && NameOk(s, id)
    case CheckCreate(id, room) => ValidName(room) && NameOk(s, id)
    case Move(id, room) => ValidName(room) && NameOk(s, id)
    case Post(room, m, _) => Recordable(room, m, date)
    case Jot(room, m) => Recordable(room, m, date)
    case Rekey(id, name) => ValidName(name) && NameOk(s, id)
    case Gather(_, _, issuer, _) => ValidName(issuer)
    case Collateral(ids, _, issuer, _) => ValidName(issuer) && forall id <- ids :: NameOk(s, id)
    case Sweep(_, penalty) => forall p <- penalty :: p.Cool? || p.Forbid?
    case _ => true
  }

  ghost predicate AllFine(s: Server, ws: seq<Work>, date: string) { forall w <- ws :: Fine(s, w, date) }

  predicate Timely(now: Moment, date: string) {
    now.time.Valid() && now.time.year < 10000 && FormatDate(now.time) == date
  }

  /** Lines come from line readers: there is no line feed in them. */
  predicate Typed(a: Action) {
    match a
    case Say(_, line) => '\n' !in line
    case Announce(_, args, _) => '\n' !in args
    case OperatorAnnounce(args, _) => '\n' !in args
    case _ => true
  }

  lemma StillFine(s: Server, t: Server, ws: seq<Work>, date: string)
    requires AllFine(s, ws, date) && Named(s, t)
    ensures AllFine(t, ws, date)
  {
    hide NameOk, ValidName, Recordable;
    forall w | w in ws ensures Fine(t, w, date) { assert Fine(s, w, date); }
  }

  lemma FineConcat(s: Server, a: seq<Work>, b: seq<Work>, date: string)
    requires AllFine(s, a, date) && AllFine(s, b, date)
    ensures AllFine(s, a + b, date)
  {
    hide Fine;
  }

  lemma FineTail(s: Server, ws: seq<Work>, date: string)
    requires AllFine(s, ws, date) && ws != []
    ensures Fine(s, ws[0], date) && AllFine(s, ws[1..], date)
  {
    hide Fine;
    assert ws[0] in ws && forall w <- ws[1..] :: w in ws;
  }

  lemma NoneFine(s: Server, date: string)
    ensures AllFine(s, [], date)
  {
  }

  lemma ShortNames()
    ensures ValidName("Server") && ValidName("kicked") && ValidName("banned") && ValidName("muted") && ValidName("unmuted")
    ensures ValidName("promoted") && ValidName("demoted") && ValidName(DEFAULT_ROOM)
  {
  }

  lemma Reasons()
    ensures Brief("voluntary", 32) && Brief("drop", 32) && Brief("switched", 32)
  {
    hide ByteLen;
    AsciiBrief("voluntary"); AsciiBrief("drop"); AsciiBrief("switched");
  }

  lemma SpokenOk(room: string, now: Moment, sender: string, text: string, date: string)
    requires Timely(now, date) && RoomOk(room) && ValidName(sender) && '\n' !in text
    ensures ByteLen(text) <= 2048 ==> Recordable(room, Note(now, Chat, sender, text, ""), date)
    ensures Recordable(room, Note(now, Announcement, "", text, sender), date)
  {
    hide ValidName, FormatDate, ByteLen;
  }

  lemma MovedOk(room: string, now: Moment, sender: string, reason: string, date: string)
    requires Timely(now, date) && RoomOk(room) && ValidName(sender) && Brief(reason, 32)
    ensures Recordable(room, Note(now, Kind.Join, sender, "", ""), date)
    ensures Recordable(room, Note(now, Kind.Leave, sender, "", reason), date)
  {
    hide ValidName, Brief, FormatDate;
  }

  lemma RenamedOk(room: string, now: Moment, name: string, was: string, date: string)
    requires Timely(now, date) && RoomOk(room) && ValidName(name) && ValidName(was)
    ensures Recordable(room, Note(now, NameChange, name, "", was), date)
  {
    hide ValidName, Brief, FormatDate;
  }

  lemma ModeratedOk(room: string, now: Moment, target: string, verb: string, issuer: string, date: string)
    requires Timely(now, date) && RoomOk(room) && ValidName(target) && ValidName(verb) && ValidName(issuer)
    ensures Recordable(room, Note(now, Moderation, target, verb, issuer), date)
  {
    hide ValidName, Brief, FormatDate;
  }

  // ---------- the lists of the commands ----------

  lemma EnteringFine(s: Server, id: ConnId, room: string, now: Moment, date: string)
    requires Timely(now, date) && ValidName(room) && NameOk(s, id)
    ensures AllFine(s, Entering(s, id, room, now), date)
  {
    hide ValidName, Note, Recordable, Timely, Brief;
    Reasons();
    MovedOk(room, now, ClientOf(s, id).username, "drop", date);
  }

  lemma SwitchingFine(s: Server, id: ConnId, room: string, now: Moment, date: string)
    requires Timely(now, date) && ValidName(room) && NameOk(s, id) && RoomOk(ClientOf(s, id).room)
    ensures AllFine(s, Switching(s, id, room, now), date)
  {
    hide ValidName, Note, Recordable, Timely, Brief, Fine;
    Reasons();
    var c := ClientOf(s, id);
    MovedOk(room, now, c.username, "drop", date);
    MovedOk(c.room, now, c.username, "switched", date);
    PostFine(s, c.room, Note(now, Kind.Leave, c.username, "", "switched"), c.username, date);
    PostFine(s, room, Note(now, Kind.Join, c.username, "", ""), c.username, date);
    MoveFine(s, id, room, date);
    IdlesFine(s, date);
  }

  lemma PostFine(s: Server, room: string, m: Message, exclude: string, date: string)
    requires Recordable(room, m, date)
    ensures Fine(s, Post(room, m, exclude), date)
  {
    hide Recordable;
  }

  lemma MoveFine(s: Server, id: ConnId, room: string, date: string)
    requires ValidName(room) && NameOk(s, id)
    ensures Fine(s, Move(id, room), date)
  {
    hide ValidName, NameOk;
  }

  lemma IdlesFine(s: Server, date: string)
    ensures forall room :: Fine(s, Refill(room), date) && Fine(s, Tidy(room), date)
    ensures forall id, room :: Fine(s, Snapshot(id, room), date)
    ensures forall id :: Fine(s, Shut(id), date) && Fine(s, Quit(id), date)
    ensures forall id, reason :: Fine(s, Mark(id, reason), date)
    ensures forall name :: Fine(s, Unregister(name), date)
    ensures forall host :: Fine(s, Forbid(host), date)
    ensures forall host, clock :: Fine(s, Cool(host, clock), date)
  {
  }

  lemma GivingUpFine(s: Server, id: ConnId, date: string)
    ensures AllFine(s, GivingUp(s, id), date)
  {
  }

  lemma LeavingFine(s: Server, c: Client, id: ConnId, now: Moment, date: string)
    requires Timely(now, date) && ValidName(c.username) && RoomOk(c.room)
    ensures AllFine(s, Leaving(c, id, now), date)
  {
    hide ValidName, Note, Recordable, Timely, Brief, Fine;
    Reasons();
    MovedOk(c.room, now, c.username, "voluntary", date);
    MovedOk(c.room, now, c.username, "drop", date);
    PostFine(s, c.room, Note(now, Kind.Leave, c.username, "", "voluntary"), c.username, date);
    PostFine(s, c.room, Note(now, Kind.Leave, c.username, "", "drop"), c.username, date);
    IdlesFine(s, date);
  }

  lemma TargetRoom(s: Server, name: string)
    requires Proper(s) && name in s.clients
    ensures ValidName(name) && RoomOk(ClientOf(s, s.clients[name]).room)
  {
    assert ConnOk(ClientOf(s, s.clients[name]));
  }

  lemma KickingFine(s: Server, name: string, issuer: string, exclude: string, now: Moment, date: string)
    requires Proper(s) && Timely(now, date) && name in s.clients && ValidName(issuer)
    ensures AllFine(s, Kicking(s, name, issuer, now), date)
    ensures AllFine(s, Banning(s, name, issuer, exclude, now), date)
  {
    hide ValidName, Note, Recordable, Timely, Proper, RoomOk, Fine;
    ShortNames();
    TargetRoom(s, name);
    var room := ClientOf(s, s.clients[name]).room;
    ModeratedOk(room, now, name, "kicked", issuer, date);
    ModeratedOk(room, now, name, "banned", issuer, date);
    PostFine(s, room, Note(now, Moderation, name, "kicked", issuer), "", date);
    PostFine(s, room, Note(now, Moderation, name, "banned", issuer), "", date);
    GatherFine(s, issuer, date);
    IdlesFine(s, date);
  }

  lemma GatherFine(s: Server, issuer: string, date: string)
    requires ValidName(issuer)
    ensures forall host, exclude, room :: Fine(s, Gather(host, exclude, issuer, room), date)
  {
    hide ValidName;
  }

  lemma FlaggedFine(s: Server, name: string, same: bool, verb: string, issuer: string, now: Moment, date: string)
    requires Proper(s) && Timely(now, date) && name in s.clients && ValidName(issuer) && ValidName(verb)
    ensures AllFine(s, Flagged(s, name, same, verb, issuer, now), date)
  {
    hide ValidName, Note, Recordable, Timely, Proper, RoomOk;
    TargetRoom(s, name);
    ModeratedOk(ClientOf(s, s.clients[name]).room, now, name, verb, issuer, date);
  }

  lemma {:induction false} JotsFine(s: Server, rooms: seq<string>, m: Message, date: string)
    requires forall room <- rooms :: Recordable(room, m, date)
    ensures AllFine(s, Jots(rooms, m), date)
  {
    hide Recordable;
    if rooms != [] {
      assert rooms[|rooms| - 1] in rooms && forall room <- rooms[..|rooms| - 1] :: room in rooms;
      JotsFine(s, rooms[..|rooms| - 1], m, date);
    }
  }

  lemma AnnouncedFine(s: Server, rooms: seq<string>, text: string, issuer: string, now: Moment, date: string)
    requires Proper(s) && Timely(now, date) && Enumerates(rooms, s.rooms.Keys) && ValidName(issuer) && '\n' !in text
    ensures AllFine(s, Jots(rooms, Note(now, Announcement, "", text, issuer)), date)
  {
    hide ValidName, Note, Recordable, Timely, RoomOk, ConnOk, NameOk, Brief;
    forall room | room in rooms ensures Recordable(room, Note(now, Announcement, "", text, issuer), date) {
      assert room in s.rooms;
      SpokenOk(room, now, issuer, text, date);
    }
    JotsFine(s, rooms, Note(now, Announcement, "", text, issuer), date);
  }

  lemma SaidFine(s: Server, room: string, line: string, name: string, now: Moment, date: string)
    requires Timely(now, date) && RoomOk(room) && ValidName(name) && '\n' !in line && ByteLen(line) <= 2048
    ensures AllFine(s, [Post(room, Note(now, Chat, name, line, ""), name)], date)
  {
    hide ValidName, Note, Recordable, Timely, RoomOk;
    SpokenOk(room, now, name, line, date);
  }

  /** What the reader of a command knows of its own connection. */
  lemma ReaderOk(y: System, a: Action)
    requires Proper(y.server) && CanStart(y, a) && !Ambient(a) && ThreadOf(a).Handler? && !a.Connect? && !a.EnterName?
    ensures var c := ClientOf(y.server, ThreadOf(a).id);
            RoomOk(c.room) && (a.GiveUp? || ValidName(c.username)) && (a.TakeSlot? ==> c.stage.Waiting? && ValidName(c.stage.room))
  {
    hide ValidName, Enumerates, NameOk;
    assert ConnOk(ClientOf(y.server, ThreadOf(a).id));
  }

  lemma StartFine(y: System, a: Action, now: Moment, date: string)
    requires Proper(y.server) && CanStart(y, a) && Timely(now, date) && Typed(a)
    ensures AllFine(y.server, StartWork(y.server, a, now), date)
  {
    hide Proper, CanStart, Timely, Recordable, ValidName, TrimSpace, Entering, GivingUp, Leaving, Kicking, Banning, Flagged, Jots, Note, RoomOk, Brief,
         Enumerates, Reserved, Step, StartEffect;
    var s := y.server;
    ShortNames();
    NoneFine(s, date);
    if a.Connect? || a.EnterName? || Ambient(a) {
      StartsNothing(s, a, now);
    } else if ThreadOf(a).Operator? {
      OperatorFine(y, a, now, date);
    } else {
      ReaderOk(y, a);
      HandlerFine(y, a, now, date);
    }
  }

  lemma StartsNothing(s: Server, a: Action, now: Moment)
    requires a.Connect? || a.EnterName? || Ambient(a)
    ensures StartWork(s, a, now) == []
  {
  }

  lemma OperatorFine(y: System, a: Action, now: Moment, date: string)
    requires Proper(y.server) && CanStart(y, a) && Timely(now, date) && Typed(a) && ThreadOf(a).Operator? && !Ambient(a)
    ensures AllFine(y.server, StartWork(y.server, a, now), date)
  {
    hide Proper, Timely, Recordable, ValidName, TrimSpace, Kicking, Banning, Flagged, Jots, Note, Brief, Enumerates;
    var s := y.server;
    ShortNames();
    NoneFine(s, date);
    match a
    case OperatorKick(args, _) => if args in s.clients { KickingFine(s, args, "Server", "", now, date); }
    case OperatorBan(args, _) => if args in s.clients { KickingFine(s, args, "Server", "", now, date); }
    case OperatorSetMute(args, on) =>
      if args in s.clients { FlaggedFine(s, args, ClientOf(s, s.clients[args]).muted == on, if on then "muted" else "unmuted", "Server", now, date); }
    case OperatorAnnounce(args, names) => AnnouncedFine(s, names, args, "Server", now, date);
    case OperatorPromote(args) => if args in s.clients { FlaggedFine(s, args, ClientOf(s, s.clients[args]).admin, "promoted", "Server", now, date); }
    case OperatorDemote(args) => if args in s.clients { FlaggedFine(s, args, !ClientOf(s, s.clients[args]).admin, "demoted", "Server", now, date); }
  }

  lemma HandlerFine(y: System, a: Action, now: Moment, date: string)
    requires Proper(y.server) && CanStart(y, a) && Timely(now, date) && Typed(a)
    requires ThreadOf(a).Handler? && !Ambient(a) && !a.Connect? && !a.EnterName?
    requires var c := ClientOf(y.server, ThreadOf(a).id);
             RoomOk(c.room) && (a.GiveUp? || ValidName(c.username)) && (a.TakeSlot? ==> c.stage.Waiting? && ValidName(c.stage.room))
    ensures AllFine(y.server, StartWork(y.server, a, now), date)
  {
    hide Proper, Timely, Recordable, ValidName, TrimSpace, Entering, GivingUp, Leaving, Kicking, Banning, Flagged, Jots, Note, RoomOk, Brief,
         Enumerates, Reserved, ByteLen, SetReason;
    var s, c := y.server, ClientOf(y.server, ThreadOf(a).id);
    ShortNames();
    NoneFine(s, date);
    match a
    case ChooseRoom(id, line) => GivingUpFine(s, id, date);
    case Answer(id, line) => GivingUpFine(s, id, date);
    case TakeSlot(id) => EnteringFine(s, id, c.stage.room, now, date);
    case GiveUp(id) => GivingUpFine(s, id, date);
    case Say(id, line) => if ByteLen(line) <= 2048 { SaidFine(s, c.room, line, c.username, now, date); }
    case Switch(id, args) =>
    case Create(id, args) =>
    case Rename(id, args) =>
    case Kick(id, args) => if args in s.clients { KickingFine(s, args, c.username, "", now, date); }
    case Ban(id, args, _) => if args in s.clients { KickingFine(s, args, c.username, c.username, now, date); }
    case SetMute(id, args, on) =>
      if args in s.clients { FlaggedFine(s, args, ClientOf(s, s.clients[args]).muted == on, if on then "muted" else "unmuted", c.username, now, date); }
    case Announce(id, args, names) => AnnouncedFine(s, names, args, c.username, now, date);
    case Leave(id, drop) => SameSelf(c, drop); LeavingFine(s, SetReason(c, drop), id, now, date);
  }

  lemma SameSelf(c: Client, drop: bool)
    ensures SetReason(c, drop).username == c.username && SetReason(c, drop).room == c.room
  {
  }

  // ---------- the sections that follow ----------

  lemma {:induction false} ShutsFine(s: Server, ids: seq<ConnId>, date: string)
    ensures AllFine(s, Shuts(ids), date)
  {
    if ids != [] { ShutsFine(s, ids[..|ids| - 1], date); }
  }

  lemma RekeyFine(s: Server, id: ConnId, name: string, choice: Choice, now: Moment, date: string)
    requires Proper(s) && Timely(now, date) && ValidName(name) && NameOk(s, id)
    ensures AllFine(s, Next(s, Rekey(id, name), choice, now), date)
  {
    hide ValidName, Note, Recordable, Timely, CanRekey, RoomOk;
    var c := ClientOf(s, id);
    assert ConnOk(c);
    RenamedOk(c.room, now, name, c.username, date);
  }

  lemma CollateralFine(s: Server, w: Work, choice: Choice, now: Moment, date: string)
    requires Proper(s) && Timely(now, date) && w.Collateral? && Fine(s, w, date)
    ensures AllFine(s, Next(s, w, choice, now), date)
  {
    hide ValidName, Note, Recordable, Timely, RoomOk, Proper;
    if w.ids != [] {
      var c := ClientOf(s, w.ids[0]);
      assert w.ids[0] in w.ids && forall id <- w.ids[1..] :: id in w.ids;
      RoomIsOk(s, w.ids[0]);
      ShortNames();
      ModeratedOk(c.room, now, c.username, "banned", w.issuer, date);
    }
  }

  lemma GatheredFine(s: Server, w: Work, choice: Choice, now: Moment, date: string)
    requires Proper(s) && w.Gather? && Fine(s, w, date) && Legal(s, w, choice)
    ensures AllFine(s, Next(s, w, choice, now), date)
  {
    hide ValidName, RoomOk, ConnOk;
    forall id | id in choice.ids ensures NameOk(s, id) { assert id in ClientsByHost(s, w.host, w.exclude); }
  }

  lemma SweptFine(s: Server, w: Work, choice: Choice, now: Moment, date: string)
    requires w.Sweep? && Fine(s, w, date)
    ensures AllFine(s, Next(s, w, choice, now), date)
  {
    hide Purge;
    ShutsFine(s, Purge(s, w.host, choice.visit).1, date);
  }

  lemma NextFine(s: Server, w: Work, choice: Choice, now: Moment, date: string)
    requires Proper(s) && Timely(now, date) && Fine(s, w, date) && Legal(s, w, choice)
    ensures AllFine(s, Next(s, w, choice, now), date)
  {
    hide Proper, Timely, Recordable, HasCapacity, NameOk, Entering, Switching, Legal, ValidName, CanRekey, RoomOk, ConnOk;
    match w
    case Check(id, room) => EnteringFine(s, id, room, now, date);
    case CheckSwitch(id, room) => RoomIsOk(s, id); SwitchingFine(s, id, room, now, date);
    case CheckCreate(id, room) => RoomIsOk(s, id); SwitchingFine(s, id, room, now, date);
    case Rekey(id, name) => RekeyFine(s, id, name, choice, now, date);
    case Collateral(_, _, _, _) => CollateralFine(s, w, choice, now, date);
    case Gather(_, _, _, _) => GatheredFine(s, w, choice, now, date);
    case Sweep(_, _) => SweptFine(s, w, choice, now, date);
    case _ =>
  }

  lemma RoomIsOk(s: Server, id: ConnId)
    requires Proper(s)
    ensures RoomOk(ClientOf(s, id).room)
  {
    assert ConnOk(ClientOf(s, id));
  }

  // ---------- names stay valid ----------

  lemma {:induction false} PurgeRooms(s: Server, host: string, visit: seq<string>)
    ensures forall room :: room in Purge(s, host, visit).0.rooms ==> room in s.rooms || room in visit
  {
    hide Kept, Dropped, Renumber;
    if visit != [] {
      PurgeRooms(s, host, visit[..|visit| - 1]);
      PurgeStep(s, host, visit);
    }
  }

  lemma IndexesRooms(s: Server, id: ConnId, room: string, name: string)
    ensures JoinRoom(s, id, room).rooms.Keys <= s.rooms.Keys + {room}
    ensures RemoveClient(s, name).rooms.Keys <= s.rooms.Keys && RenameAdmin(s, name, room).rooms == s.rooms
    ensures RenameClient(s, id, ClientOf(s, id).username, name).0.rooms.Keys <= s.rooms.Keys
  {
  }

  lemma QueuesRooms(s: Server, id: ConnId, room: string, ticket: nat)
    ensures Enqueue(s, id, room).rooms.Keys <= s.rooms.Keys + {room} && RemoveFromQueue(s, room, ticket).rooms.Keys <= s.rooms.Keys
    ensures Admit(s, room).rooms.Keys <= s.rooms.Keys && DeleteRoomIfEmpty(s, room).rooms.Keys <= s.rooms.Keys
  {
    hide Renumber, ClosedAhead, WithoutTicket;
  }

  /** A section creates at most the room it names. */
  lemma EffectRooms(s: Server, w: Work, choice: Choice, room: string)
    requires Legal(s, w, choice) && room in Effect(s, w, choice).rooms
    ensures room in s.rooms || ((w.Line? || w.Move? || w.Post? || w.Jot?) && room == w.room)
  {
    hide Enqueue, RemoveFromQueue, Admit, DeleteRoomIfEmpty, JoinRoom, RemoveClient, RenameClient, RenameAdmin, Purge;
    if w.Sweep? { PurgeRooms(s, w.host, choice.visit); }
    else if w.Move? || w.Rekey? { IndexesRooms(s, w.id, if w.Move? then w.room else "", if w.Rekey? then w.name else ""); }
    else if w.Unregister? { IndexesRooms(s, 0, "", w.name); }
    else if w.AdminRekey? { IndexesRooms(s, 0, w.newName, w.oldName); }
    else if w.Line? { QueuesRooms(s, w.id, w.room, 0); }
    else if w.Dequeue? { QueuesRooms(s, 0, w.room, w.ticket); }
    else if w.Refill? || w.Tidy? { QueuesRooms(s, 0, w.room, 0); }
    else if w.RefillAny? { QueuesRooms(s, 0, choice.room, 0); }
  }

  lemma EffectProper(s: Server, w: Work, choice: Choice, date: string)
    requires Proper(s) && Fine(s, w, date) && Legal(s, w, choice)
    ensures Proper(Effect(s, w, choice)) && Named(s, Effect(s, w, choice))
  {
    hide Effect, Legal, ValidName, CanRekey, ClientOf;
    var t := Effect(s, w, choice);
    forall id ensures ConnOk(ClientOf(t, id)) && (NameOk(s, id) ==> NameOk(t, id)) {
      EffectClient(s, w, choice, id);
      assert ConnOk(ClientOf(s, id));
    }
    EffectIndexes(s, w, choice, "");
    forall name | name in t.clients ensures ValidName(name) && NameOk(t, t.clients[name]) {
      if name in s.clients { assert NameOk(s, s.clients[name]); }
    }
    forall room | room in t.rooms ensures RoomOk(room) {
      EffectRooms(s, w, choice, room);
      if room !in s.rooms { RecordedRoom(s, w, date); }
    }
  }

  lemma RecordedRoom(s: Server, w: Work, date: string)
    requires Fine(s, w, date) && (w.Line? || w.Move? || w.Post? || w.Jot?)
    ensures RoomOk(w.room)
  {
  }

  lemma NewNameIsValid(s: Server, id: ConnId, name: string)
    ensures SubmitName(s, id, name) != s ==> ValidName(name)
  {
  }

  lemma StartProper(y: System, a: Action, now: Moment)
    requires Proper(y.server) && CanStart(y, a)
    ensures Proper(StartEffect(y.server, a, now)) && Named(y.server, StartEffect(y.server, a, now))
  {
    hide StartEffect, CanStart, ValidName, ClientOf;
    var s, t := y.server, StartEffect(y.server, a, now);
    StartClients(y, a, now);
    forall id ensures ConnOk(ClientOf(t, id)) && (NameOk(s, id) ==> NameOk(t, id)) {
      StartConnOk(y, a, now, id);
    }
    forall name | name in t.clients ensures ValidName(name) && NameOk(t, t.clients[name]) {
      if name !in s.clients { OwnStart(s, a, now); NewNameIsValid(s, a.id, a.name); }
    }
    StartKeepsRooms(y, a, now);
  }

  lemma StartConnOk(y: System, a: Action, now: Moment, id: ConnId)
    requires Proper(y.server) && CanStart(y, a)
    ensures var s, t := y.server, StartEffect(y.server, a, now);
            ConnOk(ClientOf(t, id)) && (NameOk(s, id) ==> NameOk(t, id))
  {
    hide StartEffect, ValidName;
    var s := y.server;
    assert ConnOk(ClientOf(s, id));
    StartClient(y, a, now, id);
    if a.EnterName? {
      StartClients(y, a, now);
      OwnStart(s, a, now);
      NewNameIsValid(s, a.id, a.name);
    }
  }

  lemma StartKeepsRooms(y: System, a: Action, now: Moment)
    requires CanStart(y, a)
    ensures StartEffect(y.server, a, now).rooms.Keys == y.server.rooms.Keys
  {
    hide StartEffect;
    if a.Midnight? {
      MidnightStart(y.server, now);
    } else {
      NamingStart(y, a);
      hide CanStart;
      StartSameRooms(y.server, a, now);
    }
  }

  // ---------- sections against the log machine ----------

  /** The machine holds the same histories, and its log is what came before followed by the server's. */
  ghost predicate Mirrors(s: Server, h: Machine.State, base: seq<Message>) {
    && h.log == base + s.log && (forall m <- s.log :: Plain(m))
    && forall room :: HistoryOf(h.rooms, room) == Recovery.MessagesOf(History(s, room))
  }

  /** No restart and no change of date, and whether there is a clear. */
  predicate Steady(ops: seq<Machine.Op>, clears: bool) {
    (forall op <- ops :: op.Record? || op.DeleteRoom? || op.Clear?) && (clears <==> Machine.Clear in ops)
  }

  lemma {:induction false} MachineConcat(h: Machine.State, a: seq<Machine.Op>, b: seq<Machine.Op>)
    requires Machine.AllEnabled(h, a) && Machine.AllEnabled(Machine.Run(h, a), b)
    ensures Machine.AllEnabled(h, a + b) && Machine.Run(h, a + b) == Machine.Run(Machine.Run(h, a), b)
    decreases |a|
  {
    hide Machine.Enabled, Machine.Step;
    if a == [] {
      assert a + b == b;
    } else {
      MachineConcat(Machine.Step(h, a[0]), a[1..], b);
      assert (a + b)[1..] == a[1..] + b;
    }
  }

  lemma OneOp(h: Machine.State, op: Machine.Op)
    requires Machine.Enabled(h, op)
    ensures Machine.AllEnabled(h, [op]) && Machine.Run(h, [op]) == Machine.Step(h, op)
  {
    hide Machine.Enabled, Machine.Step;
    assert [op][1..] == [];
    assert Machine.AllEnabled(Machine.Step(h, op), []) && Machine.Run(Machine.Step(h, op), []) == Machine.Step(h, op);
  }

  lemma NoOp(h: Machine.State)
    ensures Machine.AllEnabled(h, []) && Machine.Run(h, []) == h
  {
  }

  /** A clear catches up with the log; without one the default room's memory goes on from where it began. */
  ghost predicate Onward(h: Machine.State, g: Machine.State, cleared: bool) {
    if cleared then g.read == g.since else g.start == h.start && g.read == h.read && g.since == h.since
  }

  lemma {:induction false} SteadyRun(h: Machine.State, ops: seq<Machine.Op>, clears: bool)
    requires Steady(ops, clears)
    ensures var g := Machine.Run(h, ops);
            g.today == h.today && g.past == h.past && g.dayStart == h.dayStart && Onward(h, g, clears)
    decreases |ops|
  {
    if ops != [] {
      assert ops[0] in ops && forall op <- ops[1..] :: op in ops;
      assert ops == [ops[0]] + ops[1..];
      SteadyRun(Machine.Step(h, ops[0]), ops[1..], Machine.Clear in ops[1..]);
    }
  }

  lemma SameMirrors(s: Server, t: Server, h: Machine.State, base: seq<Message>)
    requires Mirrors(s, h, base) && t.log == s.log && forall room :: History(t, room) == History(s, room)
    ensures Mirrors(t, h, base)
  {
    hide History;
  }

  lemma MessagesAppend(es: seq<Event>, e: Event)
    ensures Recovery.MessagesOf(es + [e]) == Recovery.MessagesOf(es) + [e.msg]
  {
  }

  lemma RecordMirrors(s: Server, room: string, m: Message, h: Machine.State, base: seq<Message>)
    requires Mirrors(s, h, base) && Recordable(room, m, h.today)
    ensures Machine.Enabled(h, Machine.Record(room, m))
    ensures Mirrors(Record(s, room, m), Machine.Step(h, Machine.Record(room, m)), base)
  {
    hide Loggable, Plain, FormatDate, Logged, Single, History, Recovery.MessagesOf, Record;
    assert Machine.Tagged(room, m).kind != ServerEvent by { PlainKind(Machine.Tagged(room, m)); }
    PlainIsOneLine(Machine.Tagged(room, m));
    var e := EventOf(s, room, m);
    var t, g := Record(s, room, m), Machine.Step(h, Machine.Record(room, m));
    RecordLog(s, room, m);
    MessagesAppend(History(s, room), e);
    forall r ensures HistoryOf(g.rooms, r) == Recovery.MessagesOf(History(t, r)) {
      RecordHistory(s, room, m, r);
      assert History(s, r) + [] == History(s, r);
    }
  }

  lemma PlainKind(m: Message)
    requires Plain(m)
    ensures m.kind != ServerEvent
  {
  }

  lemma RecordLog(s: Server, room: string, m: Message)
    ensures Record(s, room, m).log == s.log + [Machine.Tagged(room, m)] && EventOf(s, room, m).msg == Machine.Tagged(room, m)
  {
  }

  lemma TidyMirrors(s: Server, room: string, h: Machine.State, base: seq<Message>) returns (ops: seq<Machine.Op>)
    requires Mirrors(s, h, base)
    ensures Machine.AllEnabled(h, ops) && Mirrors(DeleteRoomIfEmpty(s, room), Machine.Run(h, ops), base) && Steady(ops, false)
  {
    hide Recovery.MessagesOf;
    var t := DeleteRoomIfEmpty(s, room);
    if t == s {
      ops := [];
      NoOp(h);
    } else {
      ops := [Machine.DeleteRoom(room)];
      OneOp(h, ops[0]);
      assert Recovery.MessagesOf([]) == [] by { NoTexts(); }
      forall r ensures HistoryOf(Machine.Step(h, ops[0]).rooms, r) == Recovery.MessagesOf(History(t, r)) {
        assert HistoryOf(h.rooms, r) == Recovery.MessagesOf(History(s, r));
        assert History(t, r) == if r == room then [] else History(s, r);
      }
    }
  }

  lemma NoTexts()
    ensures Recovery.MessagesOf([]) == []
  {
  }

  lemma {:induction false} PurgeLog(s: Server, host: string, visit: seq<string>)
    ensures Purge(s, host, visit).0.log == s.log
  {
    hide Kept, Dropped, Renumber;
    if visit != [] {
      PurgeLog(s, host, visit[..|visit| - 1]);
      PurgeStep(s, host, visit);
    }
  }

  lemma IndexesLog(s: Server, id: ConnId, room: string, name: string)
    ensures JoinRoom(s, id, room).log == s.log && RemoveClient(s, name).log == s.log && RenameAdmin(s, name, room).log == s.log
    ensures RenameClient(s, id, ClientOf(s, id).username, name).0.log == s.log
  {
  }

  lemma QueuesLog(s: Server, id: ConnId, room: string, ticket: nat)
    ensures Enqueue(s, id, room).log == s.log && RemoveFromQueue(s, room, ticket).log == s.log
    ensures Admit(s, room).log == s.log && DeleteRoomIfEmpty(s, room).log == s.log
  {
    hide Renumber, ClosedAhead, WithoutTicket;
  }

  lemma EffectLog(s: Server, w: Work, choice: Choice)
    requires !w.Post? && !w.Jot?
    ensures Effect(s, w, choice).log == s.log
  {
    hide Enqueue, RemoveFromQueue, Admit, DeleteRoomIfEmpty, JoinRoom, RemoveClient, RenameClient, RenameAdmin, Purge;
    if w.Sweep? { PurgeLog(s, w.host, choice.visit); }
    else if w.Move? || w.Rekey? { IndexesLog(s, w.id, if w.Move? then w.room else "", if w.Rekey? then w.name else ""); }
    else if w.Unregister? { IndexesLog(s, 0, "", w.name); }
    else if w.AdminRekey? { IndexesLog(s, 0, w.newName, w.oldName); }
    else if w.Line? { QueuesLog(s, w.id, w.room, 0); }
    else if w.Dequeue? { QueuesLog(s, 0, w.room, w.ticket); }
    else if w.Refill? || w.Tidy? { QueuesLog(s, 0, w.room, 0); }
    else if w.RefillAny? { QueuesLog(s, 0, choice.room, 0); }
  }

  /** A section is at most one operation of the log machine. */
  lemma SectionMirrors(s: Server, w: Work, choice: Choice, h: Machine.State, base: seq<Message>) returns (ops: seq<Machine.Op>)
    requires Mirrors(s, h, base) && Fine(s, w, h.today)
    ensures Machine.AllEnabled(h, ops) && Mirrors(Effect(s, w, choice), Machine.Run(h, ops), base) && Steady(ops, false)
  {
    hide Effect, Mirrors, Recordable, ValidName, Machine.AllEnabled, Machine.Run, Machine.Enabled, Machine.Step, NameOk, Record, DeleteRoomIfEmpty;
    if w.Post? || w.Jot? {
      ops := [Machine.Record(w.room, w.m)];
      RecordMirrors(s, w.room, w.m, h, base);
      OneOp(h, ops[0]);
      Recorded(s, w, choice);
    } else if w.Tidy? {
      ops := TidyMirrors(s, w.room, h, base);
      TidyEffect(s, w.room, choice);
    } else {
      ops := [];
      NoOp(h);
      EffectLog(s, w, choice);
      forall room ensures History(Effect(s, w, choice), room) == History(s, room) { HistoryKept(s, w, choice, room); }
      SameMirrors(s, Effect(s, w, choice), h, base);
    }
  }

  lemma ClearMirrors(s: Server, h: Machine.State, base: seq<Message>)
    requires Mirrors(s, h, base)
    ensures Machine.Enabled(h, Machine.Clear) && Mirrors(ClearHistory(s), Machine.Step(h, Machine.Clear), base)
  {
    hide Recovery.MessagesOf;
    NoTexts();
  }

  lemma StartLog(s: Server, a: Action, now: Moment)
    requires !a.Midnight? && (a.EnterName? ==> ClientOf(s, a.id).stage.Naming?)
    ensures StartEffect(s, a, now).log == s.log
  {
    hide AcceptConnection, SubmitName, AnswerStep, ClearHistory, TrimSpace, SetReason;
    if a.Connect? { AcceptLog(s, a.id, a.host, now); }
    if a.EnterName? { SubmitLog(s, a.id, a.name); }
    if a.Answer? && TrimSpace(a.line) == "yes" { AnswerLog(s, a.id, a.line); }
  }

  lemma AcceptLog(s: Server, id: ConnId, host: string, now: Moment)
    ensures AcceptConnection(s, id, host, now).log == s.log
  {
  }

  lemma SubmitLog(s: Server, id: ConnId, name: string)
    ensures SubmitName(s, id, name).log == s.log
  {
    hide ValidName;
  }

  lemma AnswerLog(s: Server, id: ConnId, line: string)
    requires TrimSpace(line) == "yes"
    ensures AnswerStep(s, id, line).log == s.log
  {
    hide TrimSpace, GiveUpStep;
  }

  lemma StartMirrors(y: System, a: Action, now: Moment, h: Machine.State, base: seq<Message>) returns (ops: seq<Machine.Op>)
    requires Mirrors(y.server, h, base) && CanStart(y, a)
    ensures Machine.AllEnabled(h, ops) && Mirrors(StartEffect(y.server, a, now), Machine.Run(h, ops), base) && Steady(ops, a.Midnight?)
  {
    hide StartEffect, Mirrors, Machine.AllEnabled, Machine.Run, Machine.Enabled, Machine.Step;
    var s, t := y.server, StartEffect(y.server, a, now);
    if a.Midnight? {
      ops := [Machine.Clear];
      ClearMirrors(s, h, base);
      OneOp(h, Machine.Clear);
      MidnightStart(s, now);
    } else {
      ops := [];
      NoOp(h);
      NamingStart(y, a);
      hide CanStart;
      StartSameRooms(s, a, now);
      StartLog(s, a, now);
      SameMirrors(s, t, h, base);
    }
  }

  // ---------- whole commands over days ----------

  lemma {:induction false} ListMirrors(s: Server, ws: seq<Work>, choices: seq<Choice>, now: Moment, h: Machine.State, base: seq<Message>)
    returns (ops: seq<Machine.Op>)
    requires Proper(s) && AllFine(s, ws, h.today) && Timely(now, h.today) && Mirrors(s, h, base) && LegalRun(s, ws, choices, now)
    ensures var t := RunSections(s, ws, choices, now).0;
            Machine.AllEnabled(h, ops) && Mirrors(t, Machine.Run(h, ops), base) && Steady(ops, false) && Proper(t)
    decreases |choices|
  {
    hide Proper, AllFine, Fine, Timely, Mirrors, Legal, Effect, Next, Steady, Machine.AllEnabled, Machine.Run;
    if choices == [] {
      ops := [];
      NoOp(h);
      assert Steady([], false) by { SteadyNothing(); }
    } else {
      var w, choice := ws[0], choices[0];
      FineTail(s, ws, h.today);
      var first := SectionMirrors(s, w, choice, h, base);
      var t, more := Effect(s, w, choice), Next(s, w, choice, now);
      EffectProper(s, w, choice, h.today);
      NextFine(s, w, choice, now, h.today);
      FineConcat(s, more, ws[1..], h.today);
      StillFine(s, t, more + ws[1..], h.today);
      SteadyRun(h, first, false);
      var g := Machine.Run(h, first);
      var rest := ListMirrors(t, more + ws[1..], choices[1..], now, g, base);
      MachineConcat(h, first, rest);
      SteadyConcat(first, rest);
      ops := first + rest;
    }
  }

  lemma SteadyConcat(a: seq<Machine.Op>, b: seq<Machine.Op>)
    requires Steady(b, false)
    ensures Steady(a, false) ==> Steady(a + b, false)
    ensures Steady(a, true) ==> Steady(a + b, true)
  {
  }

  lemma SteadyNothing()
    ensures Steady([], false)
  {
  }

  /** A whole command is a run of the log machine within one day. */
  lemma CommandMirrors(s: Server, a: Action, now: Moment, h: Machine.State, base: seq<Message>) returns (ops: seq<Machine.Op>)
    requires Proper(s) && Enabled(s, a, now) && Timely(now, h.today) && Typed(a) && Mirrors(s, h, base)
    ensures Machine.AllEnabled(h, ops) && Mirrors(Step(s, a, now), Machine.Run(h, ops), base) && Steady(ops, a.Midnight?)
    ensures Proper(Step(s, a, now))
  {
    hide Proper, AllFine, Timely, Typed, Mirrors, Enabled, Step, StartEffect, StartWork, Steady, RunSections, LegalRun, CanStart,
         Machine.AllEnabled, Machine.Run;
    var y := System(s, map[], Ledger(multiset{}, multiset{}, multiset{}), {}, {}, {});
    EnabledStarts(y, a, now);
    SectionsMakeStep(s, a, now);
    var t, ws := StartEffect(s, a, now), StartWork(s, a, now);
    var choices :| LegalRun(t, ws, choices, now) && RunSections(t, ws, choices, now) == (Step(s, a, now), []);
    var first := StartMirrors(y, a, now, h, base);
    StartProper(y, a, now);
    StartFine(y, a, now, h.today);
    StillFine(s, t, ws, h.today);
    SteadyRun(h, first, a.Midnight?);
    var rest := ListMirrors(t, ws, choices, now, Machine.Run(h, first), base);
    MachineConcat(h, first, rest);
    SteadyConcat(first, rest);
    ops := first + rest;
  }

  function DayOf(now: Moment): string { FormatDate(now.time) }

  /** The clock never returns to an earlier date, and lines are ones a line reader hands over. */
  predicate Orderly(run: Run, today: string, past: set<string>)
    decreases |run|
  {
    run == [] ||
    var day := DayOf(run[0].1);
    && Timely(run[0].1, day) && Typed(run[0].0) && day !in past
    && Orderly(run[1..], day, if day == today then past else past + {today})
  }

  function LastDay(run: Run, today: string): string
    decreases |run|
  {
    if run == [] then today else LastDay(run[1..], DayOf(run[0].1))
  }

  function DaysPast(run: Run, today: string, past: set<string>): set<string>
    decreases |run|
  {
    if run == [] then past
    else
      var day := DayOf(run[0].1);
      DaysPast(run[1..], day, if day == today then past else past + {today})
  }

  predicate Sleepless(run: Run) { forall step <- run :: !step.0.Midnight? }

  /** The log machine goes to the day of the next command. */
  lemma NewDay(s: Server, h: Machine.State, base: seq<Message>, day: string) returns (ops: seq<Machine.Op>)
    requires Mirrors(s, h, base) && day !in h.past
    ensures var g := Machine.Run(h, ops);
            && Machine.AllEnabled(h, ops) && Mirrors(s, g, base) && g.today == day && Onward(h, g, false)
            && g.past == if day == h.today then h.past else h.past + {h.today}
  {
    hide Recovery.MessagesOf;
    if day == h.today {
      ops := [];
      NoOp(h);
    } else {
      ops := [Machine.NextDay(day)];
      OneOp(h, ops[0]);
    }
  }

  /** Over any run of whole commands, whatever their order and their dates, the server's histories and log are those of
      a run of the log machine. */
  lemma {:induction false} CommandsMirror(s: Server, run: Run, h: Machine.State, base: seq<Message>) returns (ops: seq<Machine.Op>)
    requires Proper(s) && Possible(s, run) && Orderly(run, h.today, h.past) && Mirrors(s, h, base)
    ensures Machine.AllEnabled(h, ops) && Mirrors(After(s, run), Machine.Run(h, ops), base)
    ensures var g := Machine.Run(h, ops);
            && Onward(h, g, !Sleepless(run)) && g.today == LastDay(run, h.today) && g.past == DaysPast(run, h.today, h.past)
    decreases |run|
  {
    hide Proper, Timely, Typed, Mirrors, Enabled, Step, Steady, Machine.AllEnabled, Machine.Run, DayOf;
    if run == [] {
      ops := [];
      NoOp(h);
    } else {
      var (a, now) := run[0];
      var dawn := NewDay(s, h, base, DayOf(now));
      var g := Machine.Run(h, dawn);
      var first := CommandMirrors(s, a, now, g, base);
      SteadyRun(g, first, a.Midnight?);
      var k := Machine.Run(g, first);
      var rest := CommandsMirror(Step(s, a, now), run[1..], k, base);
      MachineConcat(h, dawn, first);
      MachineConcat(h, dawn + first, rest);
      ops := dawn + first + rest;
      assert run[0] in run && forall step <- run[1..] :: step in run;
    }
  }

  // ---------- interleaved sections within a day ----------

  ghost predicate SystemFine(y: System, date: string) {
    Proper(y.server) && forall th :: AllFine(y.server, WorkOf(y, th), date)
  }

  /** Every clock reading of the trace is of this date, and lines are ones a line reader hands over. */
  ghost predicate OneDay(trace: Trace, date: string) {
    forall tick <- trace :: Timely(tick.now, date) && (tick.Begin? ==> Typed(tick.a))
  }

  predicate NoClearIn(trace: Trace) { forall tick <- trace :: tick.Begin? ==> !tick.a.Midnight? }

  lemma BeginMirrors(y: System, a: Action, now: Moment, h: Machine.State, base: seq<Message>) returns (ops: seq<Machine.Op>)
    requires SystemFine(y, h.today) && CanStart(y, a) && Timely(now, h.today) && Typed(a) && Mirrors(y.server, h, base)
    ensures Machine.AllEnabled(h, ops) && Mirrors(StartEffect(y.server, a, now), Machine.Run(h, ops), base) && Steady(ops, a.Midnight?)
    ensures SystemFine(Started(y, a, now), h.today)
  {
    hide Proper, AllFine, Timely, Typed, Mirrors, CanStart, StartEffect, StartWork, Steady, Machine.AllEnabled, Machine.Run;
    ops := StartMirrors(y, a, now, h, base);
    StartProper(y, a, now);
    StartFine(y, a, now, h.today);
    var z := Started(y, a, now);
    forall th ensures AllFine(z.server, WorkOf(z, th), h.today) {
      StillFine(y.server, z.server, WorkOf(z, th), h.today) by { assert AllFine(y.server, WorkOf(y, th), h.today); }
    }
  }

  lemma GoMirrors(y: System, th: Thread, choice: Choice, now: Moment, h: Machine.State, base: seq<Message>) returns (ops: seq<Machine.Op>)
    requires SystemFine(y, h.today) && WorkOf(y, th) != [] && Legal(y.server, WorkOf(y, th)[0], choice) && Timely(now, h.today)
    requires Mirrors(y.server, h, base)
    ensures var z := Continued(y, th, choice, now);
            Machine.AllEnabled(h, ops) && Mirrors(z.server, Machine.Run(h, ops), base) && Steady(ops, false) && SystemFine(z, h.today)
  {
    hide Proper, AllFine, Fine, Timely, Mirrors, Legal, Effect, Next, Booked, NewlyOwn, NewlyMissed, NewlyAbsent, Steady, Machine.AllEnabled, Machine.Run;
    var s, ws, z := y.server, WorkOf(y, th), Continued(y, th, choice, now);
    assert AllFine(s, ws, h.today);
    FineTail(s, ws, h.today);
    ops := SectionMirrors(s, ws[0], choice, h, base);
    EffectProper(s, ws[0], choice, h.today);
    NextFine(s, ws[0], choice, now, h.today);
    FineConcat(s, Next(s, ws[0], choice, now), ws[1..], h.today);
    forall other ensures AllFine(z.server, WorkOf(z, other), h.today) {
      StillFine(s, z.server, WorkOf(z, other), h.today) by { assert AllFine(s, WorkOf(y, other), h.today); }
    }
  }

  /** Over any interleaving of sections within one day, the server's histories and log are those of a run of the log
      machine. */
  lemma {:induction false} TraceMirrors(y: System, trace: Trace, h: Machine.State, base: seq<Message>) returns (ops: seq<Machine.Op>)
    requires SystemFine(y, h.today) && Feasible(y, trace) && OneDay(trace, h.today) && Mirrors(y.server, h, base)
    ensures var g := Machine.Run(h, ops);
            && Machine.AllEnabled(h, ops) && Mirrors(AfterTrace(y, trace).server, g, base) && g.today == h.today && g.dayStart == h.dayStart
            && Onward(h, g, !NoClearIn(trace))
    decreases |trace|
  {
    hide SystemFine, Timely, Typed, Mirrors, CanStart, Legal, Started, Continued, Steady, Machine.AllEnabled, Machine.Run;
    if trace == [] {
      ops := [];
      NoOp(h);
    } else {
      assert trace[0] in trace && forall tick <- trace[1..] :: tick in trace;
      var tick, first := trace[0], [];
      if tick.Begin? {
        first := BeginMirrors(y, tick.a, tick.now, h, base);
        SteadyRun(h, first, tick.a.Midnight?);
        StartedServer(y, tick.a, tick.now);
      } else {
        first := GoMirrors(y, tick.th, tick.choice, tick.now, h, base);
        SteadyRun(h, first, false);
      }
      var rest := TraceMirrors(TickOf(y, trace[0]), trace[1..], Machine.Run(h, first), base);
      MachineConcat(h, first, rest);
      ops := first + rest;
    }
  }

  lemma StartedServer(y: System, a: Action, now: Moment)
    ensures Started(y, a, now).server == StartEffect(y.server, a, now)
  {
  }

  // ---------- what the server's memory and log hold ----------

  lemma FreshMirrors(admins: set<string>, date: string)
    ensures Proper(Fresh(admins)) && Mirrors(Fresh(admins), Machine.Boot(date), []) && SystemFine(FreshSystem(admins), date)
  {
    hide ValidName, Recovery.MessagesOf;
    NoTexts();
    ShortNames();
  }

  /** A room's history as the log keeps it. */
  function MemoryOf(s: Server, room: string): seq<Message> { Machine.ViewAll(Recovery.MessagesOf(History(s, room))) }

  /** What every reachable server has in common with its log. */
  ghost predicate MatchesLog(s: Server, cleared: bool) {
    && (forall m <- s.log :: m.kind != ServerEvent && Loggable(m) && Single(m) && (m.kind.Announcement? || OneLine(m)))
    && (forall room :: room != "" && room != DEFAULT_ROOM ==> Machine.IsSuffix(MemoryOf(s, room), Machine.LogOf(s.log, room)))
    && (!cleared ==> (MemoryOf(s, DEFAULT_ROOM) == Machine.LogOf(s.log, DEFAULT_ROOM) <==> Machine.NoUntagged(s.log)))
  }

  lemma SameMemories(s: Server, h: Machine.State, base: seq<Message>, room: string)
    requires Mirrors(s, h, base)
    ensures Machine.Memory(h, room) == MemoryOf(s, room)
  {
    hide Recovery.MessagesOf, History, Machine.ViewAll;
  }

  lemma SameLog(s: Server, h: Machine.State, base: seq<Message>)
    requires Mirrors(s, h, base)
    ensures h.log == base + s.log
  {
    hide Recovery.MessagesOf, History, HistoryOf;
  }

  lemma RefinesRange(h: Machine.State)
    requires Machine.Refines(h)
    ensures Machine.InRange(h) && Machine.DefaultMemory(h) && forall room :: Machine.Named(room) ==> Machine.SuffixMemory(h, room)
  {
  }

  lemma LogIsPlain(s: Server, h: Machine.State)
    requires Machine.Dated(h) && Mirrors(s, h, [])
    ensures forall m <- s.log :: m.kind != ServerEvent && Loggable(m) && Single(m) && (m.kind.Announcement? || OneLine(m))
  {
    hide Loggable, Single, OneLine, FormatDate, Recovery.MessagesOf, History, HistoryOf, LoggedAll, Plain;
    assert h.log == s.log;
    forall m | m in s.log ensures m.kind != ServerEvent && Loggable(m) && Single(m) && (m.kind.Announcement? || OneLine(m)) {
      PlainKind(m);
      PlainIsOneLine(m);
    }
  }

  lemma MirrorsMatch(s: Server, h: Machine.State, cleared: bool)
    requires Machine.Refines(h) && Mirrors(s, h, []) && h.read == h.since && (!cleared ==> h.start == 0 && h.since == 0)
    ensures MatchesLog(s, cleared)
  {
    hide Loggable, Single, OneLine, MemoryOf, Machine.Memory, Machine.LogOf, Machine.NoUntagged, Machine.TaggedLog, Machine.IsSuffix, Machine.Refines,
         Machine.Dated, Machine.DefaultMemory, Mirrors;
    Machine.RefinedDates(h);
    LogIsPlain(s, h);
    RefinesRange(h);
    SameLog(s, h, []);
    assert h.log == s.log && Machine.Held(h) == s.log && Machine.Unread(h) == [];
    forall room | room != "" && room != DEFAULT_ROOM ensures Machine.IsSuffix(MemoryOf(s, room), Machine.LogOf(s.log, room)) {
      SameMemories(s, h, [], room);
      assert Machine.Named(room) && Machine.SuffixMemory(h, room);
    }
    SameMemories(s, h, [], DEFAULT_ROOM);
    Machine.DefaultExactly(h);
    Machine.NothingLogged();
    assert h.log[0..] == h.log;
  }

  lemma BootUpToDate(date: string, g: Machine.State, clears: bool)
    requires Onward(Machine.Boot(date), g, clears)
    ensures g.read == g.since && (!clears ==> g.start == 0 && g.since == 0)
  {
  }

  /** The server over any number of days: everything it logs is loggable on one line, and scannable unless it is an
      announcement; the history of a room other than the default one is a suffix of all that was ever logged for it; and
      without a midnight clear the default room's history is all that was logged for it if and only if nothing was recorded
      for the room without a name. */
  lemma CommandsMatchLog(admins: set<string>, run: Run, date: string)
    requires Possible(Fresh(admins), run) && Orderly(run, date, {})
    ensures MatchesLog(After(Fresh(admins), run), !Sleepless(run))
  {
    hide Proper, Possible, Orderly, Mirrors, Machine.Refines, Machine.AllEnabled, Machine.Run, SystemFine, MatchesLog, After, Sleepless, Onward;
    FreshMirrors(admins, date);
    var boot := Machine.Boot(date);
    var ops := CommandsMirror(Fresh(admins), run, boot, []);
    Machine.BootRefines(date);
    Machine.RunRefines(boot, ops);
    BootUpToDate(date, Machine.Run(boot, ops), !Sleepless(run));
    MirrorsMatch(After(Fresh(admins), run), Machine.Run(boot, ops), !Sleepless(run));
  }

  /** The same whatever sections interleave within a day; and a server started again on that day's log gets back, for
      every room, what was logged for it before the first line that is too long, hence everything if and only if nothing
      was logged for the room from there on. */
  lemma SectionsMatchLog(admins: set<string>, trace: Trace, date: string)
    requires Feasible(FreshSystem(admins), trace) && OneDay(trace, date)
    ensures var s := AfterTrace(FreshSystem(admins), trace).server;
            && MatchesLog(s, !NoClearIn(trace))
            && forall room :: var back := HistoryOf(Recover(map[DEFAULT_ROOM := []], LoggedAll(map[], s.log), date), room);
                              && back == Machine.LogOf(Readable(s.log, date), room)
                              && (back == Machine.LogOf(s.log, room) <==> Machine.LogOf(Lost(s.log, date), room) == [])
  {
    hide Proper, Feasible, OneDay, Mirrors, Machine.Refines, Machine.AllEnabled, Machine.Run, SystemFine, MatchesLog, AfterTrace, NoClearIn,
         Recover, LoggedAll, Machine.LogOf, Onward, Readable, Lost;
    FreshMirrors(admins, date);
    var boot := Machine.Boot(date);
    var ops := TraceMirrors(FreshSystem(admins), trace, boot, []);
    var s, h := AfterTrace(FreshSystem(admins), trace).server, Machine.Run(boot, ops);
    Machine.BootRefines(date);
    Machine.RunRefines(boot, ops);
    BootUpToDate(date, h, !NoClearIn(trace));
    MirrorsMatch(s, h, !NoClearIn(trace));
    forall room
      ensures var back := HistoryOf(Recover(map[DEFAULT_ROOM := []], LoggedAll(map[], s.log), date), room);
              && back == Machine.LogOf(Readable(s.log, date), room)
              && (back == Machine.LogOf(s.log, room) <==> Machine.LogOf(Lost(s.log, date), room) == [])
    {
      RestartedLog(s, h, room);
    }
  }

  lemma RestartedLog(s: Server, h: Machine.State, room: string)
    requires Machine.Refines(h) && Mirrors(s, h, []) && h.dayStart == 0
    ensures var back := HistoryOf(Recover(map[DEFAULT_ROOM := []], LoggedAll(map[], s.log), h.today), room);
            && back == Machine.LogOf(Readable(s.log, h.today), room)
            && (back == Machine.LogOf(s.log, room) <==> Machine.LogOf(Lost(s.log, h.today), room) == [])
  {
    hide Machine.Refines, Mirrors, Machine.LogOf, LoggedAll, Recover, DayHistory, HistoryOf, Readable, Loggable, Single, FormatDate;
    Machine.RefinedDates(h);
    SameLog(s, h, []);
    assert h.log == s.log && h.log[0..] == s.log;
    DayIsAll(h);
    Recovery.BootHistories(s.log, h.today, room);
    Machine.DayIsLog(Readable(s.log, h.today), h.today, room);
    Machine.DayIsLog(s.log, h.today, room);
    Machine.DayIsLog(Lost(s.log, h.today), h.today, room);
  }

  lemma DayIsAll(h: Machine.State)
    requires Machine.Dated(h) && h.dayStart == 0
    ensures forall m <- h.log :: Loggable(m) && Single(m) && FormatDate(m.timestamp) == h.today
  {
    hide Loggable, Single, FormatDate, LoggedAll;
    assert h.log[0..] == h.log;
  }
}
