/** The admin flag of registered clients and the stored admin names (server/admins.go, handler.go, operator.go). */
module Admins {
  import opened Messages
  import opened ServerState
  import opened Commands
  import opened Ownership
  import opened OwnershipRuns
  import opened Grounds

  predicate Flag(s: Server, id: ConnId) { ClientOf(s, id).admin }

  /** Every registered admin is stored under its current name; nobody is an admin before registering. */
  ghost predicate AdminsStored(s: Server) {
    && (forall name :: name in s.clients && Flag(s, s.clients[name]) ==> name in s.admins)
    && (forall id :: ClientOf(s, id).stage.Naming? ==> !Flag(s, id))
  }

  /** The converse as well: every registered client with a stored name is an admin. */
  ghost predicate AdminsExact(s: Server) {
    AdminsStored(s) && forall name :: name in s.clients && name in s.admins ==> Flag(s, s.clients[name])
  }

  /** No new registrations, the same flags and the same stored names. */
  ghost predicate AdminFrame(s: Server, t: Server) {
    && t.admins == s.admins
    && (forall name :: name in t.clients ==> name in s.clients && t.clients[name] == s.clients[name])
    && (forall id :: Flag(t, id) == Flag(s, id))
    && (forall id :: ClientOf(t, id).stage.Naming? ==> ClientOf(s, id).stage.Naming?)
  }

  lemma FrameTrans(s: Server, t: Server, u: Server)
    requires AdminFrame(s, t) && AdminFrame(t, u)
    ensures AdminFrame(s, u)
  {
  }

  lemma FrameKeeps(s: Server, t: Server)
    requires AdminFrame(s, t)
    ensures AdminsStored(s) ==> AdminsStored(t)
    ensures AdminsExact(s) ==> AdminsExact(t)
  {
    hide Flag;
  }

  /** The parts of the state the admin properties look at are untouched. */
  predicate Untouched(s: Server, t: Server) { t.admins == s.admins && t.clients == s.clients && t.conns == s.conns }

  lemma UntouchedFrame(s: Server, t: Server)
    requires Untouched(s, t)
    ensures AdminFrame(s, t)
  {
  }

  lemma PublishUntouched(s: Server, room: string, m: Message, exclude: string)
    ensures Untouched(s, Publish(s, room, m, exclude)) && Untouched(s, Record(s, room, m))
  {
  }

  lemma DeleteUntouched(s: Server, room: string)
    ensures Untouched(s, DeleteRoomIfEmpty(s, room))
  {
  }

  lemma AdmitUntouched(s: Server, room: string)
    ensures Untouched(s, Admit(s, room))
  {
  }

  lemma {:induction false} AdmitTimesUntouched(s: Server, room: string, n: nat)
    ensures Untouched(s, AdmitTimes(s, room, n))
  {
    hide Admit;
    if n > 0 {
      AdmitTimesUntouched(s, room, n - 1);
      AdmitUntouched(AdmitTimes(s, room, n - 1), room);
    }
  }

  lemma {:induction false} AdmitRoomsUntouched(s: Server, rooms: seq<string>, ids: seq<ConnId>)
    ensures Untouched(s, AdmitRooms(s, rooms, ids))
  {
    hide AdmitTimes, SlotsOpened;
    if rooms != [] {
      var init, room := rooms[..|rooms| - 1], rooms[|rooms| - 1];
      AdmitRoomsUntouched(s, init, ids);
      AdmitTimesUntouched(AdmitRooms(s, init, ids), room, SlotsOpened(s, ids, room));
    }
  }

  lemma {:induction false} PurgeUntouched(s: Server, host: string, visit: seq<string>)
    ensures Untouched(s, Purge(s, host, visit).0)
  {
    hide Kept, Dropped, Renumber;
    if visit != [] {
      PurgeUntouched(s, host, visit[..|visit| - 1]);
      PurgeStep(s, host, visit);
    }
  }

  lemma {:induction false} CloseAllFrame(s: Server, ids: seq<ConnId>)
    ensures AdminFrame(s, CloseAll(s, ids))
  {
    if ids != [] {
      CloseAllFrame(s, ids[..|ids| - 1]);
    }
  }

  lemma PurgeAndCloseFrame(s: Server, host: string, visit: seq<string>)
    ensures AdminFrame(s, PurgeAndClose(s, host, visit))
  {
    hide Purge, CloseAll, AdminFrame;
    var (t, removed) := Purge(s, host, visit);
    PurgeUntouched(s, host, visit);
    UntouchedFrame(s, t);
    CloseAllFrame(t, removed);
    FrameTrans(s, t, CloseAll(t, removed));
  }

  lemma ClientFrame(s: Server, t: Server, id: ConnId)
    requires t.admins == s.admins && t.conns == s.conns[id := ClientOf(t, id)]
    requires forall name :: name in t.clients ==> name in s.clients && t.clients[name] == s.clients[name]
    requires Flag(t, id) == Flag(s, id) && (ClientOf(t, id).stage.Naming? ==> ClientOf(s, id).stage.Naming?)
    ensures AdminFrame(s, t)
  {
  }

  lemma RemovedFields(s: Server, name: string)
    ensures var t := RemoveClient(s, name);
            && t.admins == s.admins && t.conns == s.conns && t.clients == s.clients - {name}
  {
  }

  lemma JoinFields(s: Server, id: ConnId, room: string)
    ensures var t := JoinRoom(s, id, room);
            && t.admins == s.admins && t.clients == s.clients && t.conns == s.conns[id := ClientOf(s, id).(room := room)]
  {
  }

  lemma EnterRoomFrame(s: Server, id: ConnId, room: string, now: Moment)
    ensures AdminFrame(s, EnterRoom(s, id, room, now))
  {
    hide Publish, JoinRoom, AdminFrame;
    var joined := JoinRoom(s, id, room);
    JoinFields(s, id, room);
    var c := ClientOf(joined, id);
    var settled := WithClient(SendHistory(joined, id, room), id, c.(stage := Active));
    PublishUntouched(settled, room, Note(now, Kind.Join, c.username, "", ""), c.username);
    ClientFrame(s, EnterRoom(s, id, room, now), id);
  }

  lemma FinishFrame(s: Server, id: ConnId)
    ensures AdminFrame(s, FinishPending(s, id))
  {
    hide RemoveClient, AdminFrame;
    RemovedFields(s, ClientOf(s, id).username);
    ClientFrame(s, FinishPending(s, id), id);
  }

  lemma GiveUpFrame(s: Server, id: ConnId)
    ensures AdminFrame(s, GiveUpStep(s, id))
  {
    hide FinishPending, AdminFrame, Renumber;
    var c := ClientOf(s, id);
    if c.stage.Naming? {
      ClientFrame(s, GiveUpStep(s, id), id);
    } else if c.stage.Choosing? {
      FinishFrame(s, id);
    } else if c.stage.Asked? || c.stage.Waiting? {
      var t := RemoveFromQueue(s, c.stage.room, c.stage.ticket);
      UntouchedFrame(s, t);
      FinishFrame(t, id);
      FrameTrans(s, t, FinishPending(t, id));
    } else {
      UntouchedFrame(s, s);
    }
  }

  lemma SubmitRoomFrame(s: Server, id: ConnId, line: string, now: Moment)
    requires !ClientOf(s, id).stage.Naming?
    ensures AdminFrame(s, SubmitRoom(s, id, line, now))
  {
    hide AdminFrame, FinishPending, EnterRoom, Messages.ValidName, HasCapacity, Text.TrimSpace, Enqueue, WithClient, ClientOf;
    UntouchedFrame(s, s);
    FinishFrame(s, id);
    var room := if Text.TrimSpace(line) == "" then DEFAULT_ROOM else Text.TrimSpace(line);
    EnterRoomFrame(s, id, room, now);
    EnqueueFrame(s, id, room, Asked(room, |s.tickets|));
  }

  lemma EnqueueFrame(s: Server, id: ConnId, room: string, stage: Stage)
    requires !stage.Naming?
    ensures var t := Enqueue(s, id, room); AdminFrame(s, WithClient(t, id, ClientOf(t, id).(stage := stage)))
  {
    var t := Enqueue(s, id, room);
    ClientFrame(s, WithClient(t, id, ClientOf(t, id).(stage := stage)), id);
  }

  lemma SwitchFrame(s: Server, id: ConnId, room: string, now: Moment)
    ensures AdminFrame(s, SwitchRoom(s, id, room, now))
  {
    hide Publish, JoinRoom, Admit, DeleteRoomIfEmpty, AdminFrame;
    var c := ClientOf(s, id);
    var leave := Note(now, Kind.Leave, c.username, "", "switched");
    PublishUntouched(s, c.room, leave, c.username);
    var parted := Publish(s, c.room, leave, c.username);
    JoinFields(parted, id, room);
    var moved := JoinRoom(parted, id, room);
    AdmitUntouched(moved, c.room);
    DeleteUntouched(Admit(moved, c.room), c.room);
    var arrived := DeleteRoomIfEmpty(Admit(moved, c.room), c.room);
    PublishUntouched(SendHistory(arrived, id, room), room, Note(now, Kind.Join, c.username, "", ""), c.username);
    ClientFrame(s, SwitchRoom(s, id, room, now), id);
  }

  lemma ExpelFrame(s: Server, id: ConnId, name: string, verdict: Reason, issuer: string, now: Moment)
    ensures AdminFrame(s, Expel(s, id, name, verdict, issuer, now))
  {
    hide Publish, RemoveClient, AdminFrame, Verb;
    var c := ClientOf(s, id);
    var marked := WithClient(s, id, c.(reason := verdict));
    RemovedFields(marked, name);
    PublishUntouched(RemoveClient(marked, name), c.room, Note(now, Moderation, name, Verb(verdict), issuer), "");
    ClientFrame(s, Expel(s, id, name, verdict, issuer, now), id);
  }

  lemma {:induction false} ExpelAllFrame(s: Server, ids: seq<ConnId>, issuer: string, now: Moment)
    ensures AdminFrame(s, ExpelAll(s, ids, issuer, now))
  {
    hide Expel, AdminFrame;
    if ids == [] {
      UntouchedFrame(s, s);
    } else {
      var t, id := ExpelAll(s, ids[..|ids| - 1], issuer, now), ids[|ids| - 1];
      ExpelAllFrame(s, ids[..|ids| - 1], issuer, now);
      ExpelFrame(t, id, ClientOf(t, id).username, Banned, issuer, now);
      FrameTrans(s, t, ExpelAll(s, ids, issuer, now));
    }
  }

  lemma KickFrame(s: Server, name: string, issuer: string, now: Moment)
    requires name in s.clients
    ensures AdminFrame(s, KickTarget(s, name, issuer, now))
  {
    hide Expel, AdminFrame, Admit;
    var id := s.clients[name];
    var t := Expel(s, id, name, Kicked, issuer, now);
    ExpelFrame(s, id, name, Kicked, issuer, now);
    var u := AddKickCooldown(t, ClientOf(s, id).host, now.clock);
    AdmitUntouched(u, ClientOf(s, id).room);
    UntouchedFrame(t, KickTarget(s, name, issuer, now));
    FrameTrans(s, t, KickTarget(s, name, issuer, now));
  }

  lemma BanFrame(s: Server, name: string, issuer: string, order: BanOrder, now: Moment)
    requires name in s.clients
    ensures AdminFrame(s, BanTarget(s, name, issuer, order, now))
  {
    hide Expel, ExpelAll, PurgeAndClose, AdmitRooms, AdminFrame;
    var id := s.clients[name];
    var host := ClientOf(s, id).host;
    ExpelFrame(s, id, name, Banned, issuer, now);
    var t := BanFirst(s, name, issuer, now);
    UntouchedFrame(Expel(s, id, name, Banned, issuer, now), t);
    FrameTrans(s, Expel(s, id, name, Banned, issuer, now), t);
    ExpelAllFrame(t, order.collateral, issuer, now);
    var u := BanEveryone(s, name, issuer, order, now);
    FrameTrans(s, t, u);
    PurgeAndCloseFrame(u, host, order.visit);
    var v := PurgeAndClose(u, host, order.visit);
    FrameTrans(s, u, v);
    AdmitRoomsUntouched(v, order.reopened, Expelled(s, name, order));
    var w := AdmitRooms(v, order.reopened, Expelled(s, name, order));
    UntouchedFrame(v, w);
    FrameTrans(s, v, w);
  }

  lemma QueuedFrame(s: Server, host: string, visit: seq<string>, now: Moment)
    ensures AdminFrame(s, KickQueued(s, host, visit, now)) && AdminFrame(s, BanQueued(s, host, visit))
  {
    hide Purge, PurgeAndClose, AdminFrame;
    UntouchedFrame(s, s);
    var t := PurgeAndClose(s, host, visit);
    PurgeAndCloseFrame(s, host, visit);
    UntouchedFrame(t, AddKickCooldown(t, host, now.clock));
    UntouchedFrame(t, AddBan(t, host));
    FrameTrans(s, t, AddKickCooldown(t, host, now.clock));
    FrameTrans(s, t, AddBan(t, host));
  }

  lemma MuteFrame(s: Server, name: string, on: bool, issuer: string, now: Moment)
    requires name in s.clients
    ensures AdminFrame(s, MuteTarget(s, name, on, issuer, now))
  {
  }

  lemma {:induction false} AnnounceFrame(s: Server, names: seq<string>, text: string, issuer: string, now: Moment)
    ensures Untouched(s, AnnounceIn(s, names, text, issuer, now))
  {
    if names != [] {
      AnnounceFrame(s, names[..|names| - 1], text, issuer, now);
    }
  }

  lemma CleanupFrame(s: Server, id: ConnId, now: Moment)
    ensures AdminFrame(s, Cleanup(s, id, now))
  {
    hide Publish, RemoveClient, Admit, DeleteRoomIfEmpty, AdminFrame, Moderated;
    var c := ClientOf(s, id);
    var m := Note(now, Kind.Leave, c.username, "", if c.reason.Unset? then "voluntary" else "drop");
    RemovedFields(s, c.username);
    PublishUntouched(RemoveClient(s, c.username), c.room, m, c.username);
    var t := if Moderated(c) then s else Publish(RemoveClient(s, c.username), c.room, m, c.username);
    AdmitUntouched(t, c.room);
    DeleteUntouched(Admit(t, c.room), c.room);
    ClientFrame(s, Cleanup(s, id, now), id);
  }

  lemma LeaveFrame(s: Server, id: ConnId, drop: bool, now: Moment)
    ensures AdminFrame(s, Step(s, Action.Leave(id, drop), now))
  {
    hide Cleanup, AdminFrame;
    var t := WithClient(s, id, SetReason(ClientOf(s, id), drop));
    ClientFrame(s, t, id);
    CleanupFrame(t, id, now);
    FrameTrans(s, t, Cleanup(t, id, now));
  }

  /** Steps that touch neither a flag, nor a stored name, nor add a registration. */
  predicate LeavesAdminsAlone(a: Action) {
    !a.Connect? && !a.EnterName? && !a.Rename? && !a.OperatorPromote? && !a.OperatorDemote?
  }

  lemma OtherStepsFrame(s: Server, a: Action, now: Moment)
    requires Enabled(s, a, now) && LeavesAdminsAlone(a)
    ensures AdminFrame(s, Step(s, a, now))
  {
    hide AdminFrame, EnterRoom, GiveUpStep, SubmitRoom, SwitchRoom, KickTarget, BanTarget, MuteTarget, AnnounceIn,
         KickQueued, BanQueued, PossibleOrder, Enumerates, Messages.ValidName, Text.TrimSpace, HasCapacity, ClearHistory, Publish;
    UntouchedFrame(s, s);
    match a
    case ChooseRoom(id, line) => SubmitRoomFrame(s, id, line, now);
    case Answer(id, line) => GiveUpFrame(s, id); ClientFrame(s, WithClient(s, id, ClientOf(s, id).(stage := Waiting(ClientOf(s, id).stage.room, ClientOf(s, id).stage.ticket))), id);
    case TakeSlot(id) => EnterRoomFrame(s, id, ClientOf(s, id).stage.room, now);
    case GiveUp(id) => GiveUpFrame(s, id);
    case Say(id, line) =>
      var c := ClientOf(s, id);
      PublishUntouched(s, c.room, Note(now, Chat, c.username, line, ""), c.username);
      UntouchedFrame(s, SayStep(s, id, line, now));
    case Switch(id, args) => SwitchFrame(s, id, args, now);
    case Create(id, args) => SwitchFrame(s, id, args, now);
    case Kick(id, args) => if args in s.clients { KickFrame(s, args, ClientOf(s, id).username, now); }
    case Ban(id, args, order) => if args in s.clients { BanFrame(s, args, ClientOf(s, id).username, order, now); }
    case SetMute(id, args, on) => if args in s.clients { MuteFrame(s, args, on, ClientOf(s, id).username, now); }
    case Announce(id, args, names) =>
      AnnounceFrame(s, names, args, ClientOf(s, id).username, now);
      UntouchedFrame(s, AnnounceIn(s, names, args, ClientOf(s, id).username, now));
    case Leave(id, drop) => LeaveFrame(s, id, drop, now);
    case OperatorKick(args, visit) =>
      if args in s.clients { KickFrame(s, args, "Server", now); }
      QueuedFrame(s, args, visit, now);
    case OperatorBan(args, order) =>
      if args in s.clients { BanFrame(s, args, "Server", order, now); }
      QueuedFrame(s, args, order.visit, now);
    case OperatorSetMute(args, on) => if args in s.clients { MuteFrame(s, args, on, "Server", now); }
    case OperatorAnnounce(args, names) =>
      AnnounceFrame(s, names, args, "Server", now);
      UntouchedFrame(s, AnnounceIn(s, names, args, "Server", now));
    case Sever(id, drop) => ClientFrame(s, Step(s, a, now), id);
    case Midnight => assert Untouched(s, ClearHistory(s)) by { ClearUntouched(s); } UntouchedFrame(s, ClearHistory(s));
    case BeginShutdown => UntouchedFrame(s, s.(shuttingDown := true));
  }

  lemma ClearUntouched(s: Server)
    ensures Untouched(s, ClearHistory(s))
  {
  }

  // ---------- steps that change flags or stored names ----------

  lemma NamingPlain(s: Server, t: Server, id: ConnId)
    requires t.conns == s.conns[id := ClientOf(t, id)] && (ClientOf(t, id).stage.Naming? ==> !Flag(t, id))
    ensures (forall x :: ClientOf(s, x).stage.Naming? ==> !Flag(s, x)) ==> forall x :: ClientOf(t, x).stage.Naming? ==> !Flag(t, x)
  {
    forall x | x != id ensures ClientOf(t, x) == ClientOf(s, x) { }
  }

  lemma AcceptedFields(s: Server, id: ConnId, host: string, now: Moment)
    ensures var t := AcceptConnection(s, id, host, now);
            t.admins == s.admins && t.clients == s.clients && t.conns == s.conns[id := ClientOf(t, id)] && !Flag(t, id)
  {
  }

  lemma OfGroundedKey(s: Server, name: string)
    requires Grounded(s) && name in s.clients
    ensures KeyGrounded(s, name)
  {
  }

  lemma ConnectAdmins(s: Server, id: ConnId, host: string, now: Moment)
    requires Grounded(s) && id !in s.conns
    ensures AdminsStored(s) ==> AdminsStored(AcceptConnection(s, id, host, now))
    ensures AdminsExact(s) ==> AdminsExact(AcceptConnection(s, id, host, now))
  {
    hide Grounded, AcceptConnection;
    var t := AcceptConnection(s, id, host, now);
    AcceptedFields(s, id, host, now);
    NamingPlain(s, t, id);
    forall name | name in s.clients ensures Flag(t, s.clients[name]) == Flag(s, s.clients[name]) { OfGroundedKey(s, name); }
  }

  lemma RegisterAdmins(s: Server, id: ConnId, name: string)
    requires Grounded(s) && ClientOf(s, id).stage.Naming?
    ensures AdminsStored(s) ==> AdminsStored(SubmitName(s, id, name))
    ensures AdminsExact(s) ==> AdminsExact(SubmitName(s, id, name))
  {
    hide Grounded, Messages.ValidName;
    var t := SubmitName(s, id, name);
    if t != s { NamingPlain(s, t, id); }
    forall n | n in s.clients ensures Flag(t, s.clients[n]) == Flag(s, s.clients[n]) { OfGroundedKey(s, n); }
  }

  /** A rename that goes through. */
  predicate Renames(s: Server, id: ConnId, args: string) {
    args != "" && Messages.ValidName(args) && !Reserved(args) && args != ClientOf(s, id).username && args !in s.clients
  }

  lemma RenameFields(s: Server, id: ConnId, args: string, now: Moment)
    ensures var t := RenameStep(s, id, args, now);
            var c := ClientOf(s, id);
            if Renames(s, id, args) then
              && t.clients == (s.clients - {c.username})[args := id]
              && t.conns == s.conns[id := c.(username := args)]
              && t.admins == if c.admin && c.username in s.admins then s.admins - {c.username} + {args} else s.admins
            else t == s
  {
    hide Messages.ValidName, Publish;
    var c := ClientOf(s, id);
    var t := RenameClient(s, id, c.username, args).0;
    var u := if c.admin then RenameAdmin(t, c.username, args) else t;
    PublishUntouched(u, c.room, Note(now, NameChange, args, "", c.username), "");
  }

  /** A rename by an admin whose name is no longer stored, to a name that is not stored either. */
  predicate RenamesUnstored(s: Server, a: Action) {
    a.Rename? && Renames(s, a.id, a.args) && Flag(s, a.id) && ClientOf(s, a.id).username !in s.admins && a.args !in s.admins
  }

  /** A plain user renames itself to a stored name whose admin is away. */
  predicate TakesAdminName(s: Server, a: Action) {
    a.Rename? && Renames(s, a.id, a.args) && !Flag(s, a.id) && a.args in s.admins
  }

  /** In any state: a rename keeps every registered admin stored exactly unless an admin whose old name is not stored
      takes a name that is not; it keeps the two in step exactly unless, besides, a plain user takes the stored name of
      an admin who is away. */
  lemma RenameAdmins(s: Server, id: ConnId, args: string, now: Moment)
    requires InSession(s, id)
    ensures AdminsStored(s) ==> (AdminsStored(RenameStep(s, id, args, now)) <==> !RenamesUnstored(s, Rename(id, args)))
    ensures AdminsExact(s) ==>
              (AdminsExact(RenameStep(s, id, args, now)) <==> !RenamesUnstored(s, Rename(id, args)) && !TakesAdminName(s, Rename(id, args)))
  {
    hide Renames, RenameStep;
    RenameFields(s, id, args, now);
    if Renames(s, id, args) {
      var t := RenameStep(s, id, args, now);
      NamingPlain(s, t, id);
      assert args in t.clients && t.clients[args] == id && Flag(t, id) == Flag(s, id);
      forall n | n in t.clients && n != args ensures n in s.clients && t.clients[n] == s.clients[n] && Flag(t, t.clients[n]) == Flag(s, s.clients[n]) {
      }
    }
  }

  lemma PromoteFields(s: Server, name: string, on: bool, issuer: string, now: Moment)
    requires name in s.clients
    ensures var t := PromoteTarget(s, name, on, issuer, now);
            var id := s.clients[name];
            if Flag(s, id) == on then t == s
            else
              && t.clients == s.clients && t.conns == s.conns[id := ClientOf(s, id).(admin := on)]
              && t.admins == if on then s.admins + {name} else s.admins - {name}
  {
  }

  lemma PromoteAdmins(s: Server, name: string, on: bool, issuer: string, now: Moment)
    requires Grounded(s) && name in s.clients
    ensures AdminsStored(s) ==> AdminsStored(PromoteTarget(s, name, on, issuer, now))
    ensures AdminsExact(s) ==> AdminsExact(PromoteTarget(s, name, on, issuer, now))
  {
    hide Grounded, PromoteTarget;
    PromoteFields(s, name, on, issuer, now);
    OfGroundedKey(s, name);
    var t, id := PromoteTarget(s, name, on, issuer, now), s.clients[name];
    if Flag(s, id) != on {
      NamingPlain(s, t, id);
      forall n | n in s.clients && n != name ensures Flag(t, s.clients[n]) == Flag(s, s.clients[n]) { OfGroundedKey(s, n); }
    }
  }

  /** Flag implies stored exactly until an admin whose name is not stored takes another such name; stored implies flag
      as well exactly until a plain user takes an absent admin's name. */
  lemma StepAdmins(s: Server, a: Action, now: Moment)
    requires Grounded(s) && Enabled(s, a, now)
    ensures AdminsStored(s) ==> (AdminsStored(Step(s, a, now)) <==> !RenamesUnstored(s, a))
    ensures AdminsExact(s) ==> (AdminsExact(Step(s, a, now)) <==> !RenamesUnstored(s, a) && !TakesAdminName(s, a))
  {
    hide Grounded, AdminsStored, AdminsExact, AcceptConnection, SubmitName, RenameStep, PromoteTarget, PossibleOrder, Renames, Flag;
    if LeavesAdminsAlone(a) {
      hide Step;
      OtherStepsFrame(s, a, now);
      FrameKeeps(s, Step(s, a, now));
    } else {
      match a
      case Connect(id, host) => ConnectAdmins(s, id, host, now);
      case EnterName(id, name) => RegisterAdmins(s, id, name);
      case Rename(id, args) => RenameAdmins(s, id, args, now);
      case OperatorPromote(args) => if args in s.clients { PromoteAdmins(s, args, true, "Server", now); }
      case OperatorDemote(args) => if args in s.clients { PromoteAdmins(s, args, false, "Server", now); }
    }
  }

  /** While both indexes are owned an admin's rename always starts from a stored name. */
  lemma StoredWhileOwned(s: Server, a: Action, now: Moment)
    requires Owned(s) && AdminsStored(s) && Enabled(s, a, now)
    ensures !RenamesUnstored(s, a)
  {
    hide Owned, Renames;
    if a.Rename? { ActiveFacts(s, a.id); }
  }

  // ---------- runs ----------

  /** No step of the run is such a rename. */
  ghost predicate NobodyRenamesUnstored(s: Server, run: Run)
    decreases |run|
  {
    run == [] || (!RenamesUnstored(s, run[0].0) && NobodyRenamesUnstored(Step(s, run[0].0, run[0].1), run[1..]))
  }

  ghost predicate NobodyTakesAdminName(s: Server, run: Run)
    decreases |run|
  {
    run == [] || (!TakesAdminName(s, run[0].0) && NobodyTakesAdminName(Step(s, run[0].0, run[0].1), run[1..]))
  }

  /** At every point of the run every registered admin is stored. */
  ghost predicate AlwaysStored(s: Server, run: Run)
    decreases |run|
  {
    AdminsStored(s) && (run == [] || AlwaysStored(Step(s, run[0].0, run[0].1), run[1..]))
  }

  /** At every point of the run the stored names of registered clients are exactly the admins'. */
  ghost predicate AlwaysExact(s: Server, run: Run)
    decreases |run|
  {
    AdminsExact(s) && (run == [] || AlwaysExact(Step(s, run[0].0, run[0].1), run[1..]))
  }

  /** Over every possible run, moderation of pending connections included: registered admins are stored throughout if and
      only if no admin without a stored name renames itself to another such name; and stored names belong to admins
      throughout as well if and only if, besides, no plain user ever takes an absent admin's name. */
  lemma {:induction false} RunAdmins(s: Server, run: Run)
    requires Grounded(s) && AdminsStored(s) && Possible(s, run)
    ensures AlwaysStored(s, run) <==> NobodyRenamesUnstored(s, run)
    ensures AdminsExact(s) ==> (AlwaysExact(s, run) <==> NobodyRenamesUnstored(s, run) && NobodyTakesAdminName(s, run))
    ensures AlwaysStored(s, run) ==> AdminsStored(After(s, run))
    ensures AlwaysExact(s, run) ==> AdminsExact(After(s, run))
    decreases |run|
  {
    hide Grounded, AdminsStored, AdminsExact, Step, Enabled, RenamesUnstored, TakesAdminName;
    if run != [] {
      var (a, now) := run[0];
      StepAdmins(s, a, now);
      StepGrounded(s, a, now);
      ExactIsStored(s);
      ExactIsStored(Step(s, a, now));
      if !RenamesUnstored(s, a) { RunAdmins(Step(s, a, now), run[1..]); }
    }
  }

  lemma ExactIsStored(s: Server)
    ensures AdminsExact(s) ==> AdminsStored(s)
  {
  }

  lemma FreshAdmins(admins: set<string>)
    ensures AdminsExact(Fresh(admins))
  {
  }

  /** From a fresh server, with no other condition. */
  lemma AdminsInReachableStates(admins: set<string>, run: Run)
    requires Possible(Fresh(admins), run)
    ensures AlwaysStored(Fresh(admins), run) <==> NobodyRenamesUnstored(Fresh(admins), run)
    ensures AlwaysExact(Fresh(admins), run) <==> NobodyRenamesUnstored(Fresh(admins), run) && NobodyTakesAdminName(Fresh(admins), run)
    ensures AlwaysStored(Fresh(admins), run) ==> AdminsStored(After(Fresh(admins), run))
  {
    hide Grounded, Possible, AlwaysStored, AlwaysExact, NobodyRenamesUnstored, NobodyTakesAdminName;
    FreshGrounded(admins);
    FreshAdmins(admins);
    RunAdmins(Fresh(admins), run);
  }

  /** A run that keeps the name indexes owned never meets the exception. */
  lemma {:induction false} GuardedRunsStore(s: Server, run: Run)
    requires Owned(s) && Grounded(s) && AdminsStored(s) && Possible(s, run) && Guarded(s, run)
    ensures NobodyRenamesUnstored(s, run)
    decreases |run|
  {
    hide Owned, Grounded, AdminsStored, Step, Enabled, Guard, RenamesUnstored;
    if run != [] {
      var (a, now) := run[0];
      StoredWhileOwned(s, a, now);
      StepOwnedExactly(s, a, now);
      StepGrounded(s, a, now);
      StepAdmins(s, a, now);
      GuardedRunsStore(Step(s, a, now), run[1..]);
    }
  }

  /** The converse really fails: one rename is enough. */
  lemma PlainUserUnderAdminName(s: Server, id: ConnId, name: string, now: Moment)
    requires InSession(s, id) && !Flag(s, id) && name != ClientOf(s, id).username
    requires Messages.ValidName(name) && name != "" && !Reserved(name) && name in s.admins && name !in s.clients
    ensures var t := Step(s, Rename(id, name), now);
            name in t.clients && t.clients[name] == id && name in t.admins && !Flag(t, id)
  {
    hide RenameStep, Messages.ValidName;
    RenameFields(s, id, name, now);
  }

  /** An admin that another's exit has unregistered keeps its flag; once its name is no longer stored, its rename
      registers an admin that is not stored. */
  lemma UnstoredAdmin(s: Server, id: ConnId, name: string, now: Moment)
    requires InSession(s, id) && RenamesUnstored(s, Rename(id, name))
    ensures var t := Step(s, Rename(id, name), now);
            name in t.clients && t.clients[name] == id && Flag(t, id) && name !in t.admins
  {
    hide RenameStep, Messages.ValidName;
    RenameFields(s, id, name, now);
  }
}
