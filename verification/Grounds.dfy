/** What every reachable state keeps, moderation of pending connections included (server/handler.go, clients.go). */
module Grounds {
  import opened Text
  import opened Messages
  import opened ServerState
  import opened Commands
  import opened Ownership
  import opened OwnershipRuns
  import opened Indexes

  predicate KeyGrounded(s: Server, name: string)
    requires name in s.clients
  {
    s.clients[name] in s.conns && ClientOf(s, s.clients[name]).username == name && !ClientOf(s, s.clients[name]).stage.Naming?
  }

  predicate ConnGrounded(c: Client) {
    && (c.stage.Naming? || Pending(c.stage) ==> c.room == "")
    && (c.stage.Active? ==> c.room != "")
    && (c.stage.Asked? || c.stage.Waiting? ==> ValidName(c.stage.room))
  }

  /** Registered connections bear their key; a connection has a room from its first join on; no room is nameless. */
  ghost predicate Grounded(s: Server) {
    && Members(s, "") == map[]
    && (forall name :: name in s.clients ==> KeyGrounded(s, name))
    && (forall id :: ConnGrounded(ClientOf(s, id)))
  }

  /** Nobody is registered, moved or renamed; handlers may end. */
  ghost predicate Lessened(s: Server, t: Server) {
    && Members(t, "").Keys <= Members(s, "").Keys
    && (forall name :: name in t.clients ==> name in s.clients && t.clients[name] == s.clients[name])
    && (forall id :: id in s.conns ==> id in t.conns)
    && (forall id :: var c, d := ClientOf(s, id), ClientOf(t, id);
                     d.username == c.username && d.room == c.room && (d.stage == c.stage || d.stage.Finished?))
  }

  lemma LessenedGrounded(s: Server, t: Server)
    requires Grounded(s) && Lessened(s, t)
    ensures Grounded(t)
  {
    hide ValidName;
    assert Members(t, "") == map[];
    forall name | name in t.clients ensures KeyGrounded(t, name) { assert KeyGrounded(s, name); }
    forall id ensures ConnGrounded(ClientOf(t, id)) { assert ConnGrounded(ClientOf(s, id)); }
  }

  lemma LessenedTrans(s: Server, t: Server, u: Server)
    requires Lessened(s, t) && Lessened(t, u)
    ensures Lessened(s, u)
  {
  }

  lemma LinksLessen(s: Server, t: Server)
    requires SameLinks(s, t)
    ensures Lessened(s, t)
  {
  }

  lemma SelfLessened(s: Server)
    ensures Lessened(s, s)
  {
  }

  /** One connection's flags or end, no room touched. */
  lemma FlagLessens(s: Server, t: Server, id: ConnId)
    requires t.clients == s.clients && t.rooms == s.rooms && t.conns == s.conns[id := ClientOf(t, id)]
    requires var c, d := ClientOf(s, id), ClientOf(t, id); d.username == c.username && d.room == c.room && (d.stage == c.stage || d.stage.Finished?)
    ensures Lessened(s, t)
  {
  }

  lemma RemovalLessens(s: Server, name: string)
    ensures Lessened(s, RemoveClient(s, name))
  {
    hide RemoveClient;
    if name in s.clients { RemoveMembers(s, name, ""); RemoveKeepsConns(s, name); } else { AbsentName(s, name); }
  }

  lemma RemoveKeepsConns(s: Server, name: string)
    ensures RemoveClient(s, name).conns == s.conns
  {
  }

  // ---------- onboarding ----------

  lemma Accepted(s: Server, id: ConnId, host: string, now: Moment)
    ensures var t := AcceptConnection(s, id, host, now);
            var d := ClientOf(t, id);
            t.clients == s.clients && t.rooms == s.rooms && t.conns == s.conns[id := d] && d.room == "" && d.username == "" && (d.stage.Naming? || d.stage.Finished?)
  {
  }

  lemma NameEntered(s: Server, id: ConnId, name: string)
    requires ClientOf(s, id).stage.Naming?
    ensures var t := SubmitName(s, id, name);
            t == s || (t.rooms == s.rooms && t.tickets == s.tickets && t.admitted == s.admitted && t.heard == s.heard
                       && name !in s.clients && t.clients == s.clients[name := id]
                       && t.conns == s.conns[id := ClientOf(t, id)] && ClientOf(t, id).stage.Choosing?
                       && ClientOf(t, id).username == name && ClientOf(t, id).room == ClientOf(s, id).room)
  {
    hide Messages.ValidName;
  }

  lemma SameRoomMembers(s: Server, t: Server)
    requires t.rooms == s.rooms
    ensures Members(t, "") == Members(s, "")
  {
  }

  lemma ConnectGrounded(s: Server, id: ConnId, host: string, now: Moment)
    requires Grounded(s) && id !in s.conns
    ensures Grounded(AcceptConnection(s, id, host, now))
  {
    hide ValidName, AcceptConnection, Members;
    var t := AcceptConnection(s, id, host, now);
    Accepted(s, id, host, now);
    SameRoomMembers(s, t);
    forall name | name in t.clients ensures KeyGrounded(t, name) { assert KeyGrounded(s, name); }
    forall x ensures ConnGrounded(ClientOf(t, x)) { assert ConnGrounded(ClientOf(s, x)); }
  }

  lemma SubmitNameGrounded(s: Server, id: ConnId, name: string)
    requires Grounded(s) && ClientOf(s, id).stage.Naming?
    ensures Grounded(SubmitName(s, id, name))
  {
    hide ValidName, Reserved, SubmitName, Members;
    var t := SubmitName(s, id, name);
    NameEntered(s, id, name);
    if t != s {
      SameRoomMembers(s, t);
      forall n | n in t.clients ensures KeyGrounded(t, n) { if n in s.clients { assert KeyGrounded(s, n); } }
      forall x ensures ConnGrounded(ClientOf(t, x)) { assert ConnGrounded(ClientOf(s, x)); }
    }
  }

  /** A connection's next stage, no room and no name touched. */
  lemma StageGrounded(s: Server, t: Server, id: ConnId)
    requires Grounded(s) && t.clients == s.clients && t.conns == s.conns[id := ClientOf(t, id)] && Members(t, "") == Members(s, "")
    requires ClientOf(t, id).username == ClientOf(s, id).username && ConnGrounded(ClientOf(t, id)) && !ClientOf(t, id).stage.Naming?
    ensures Grounded(t)
  {
    hide ValidName, ConnGrounded;
    forall name | name in t.clients ensures KeyGrounded(t, name) { assert KeyGrounded(s, name); }
    forall x ensures ConnGrounded(ClientOf(t, x)) { assert ConnGrounded(ClientOf(s, x)); }
  }

  lemma OfGrounded(s: Server, id: ConnId)
    requires Grounded(s)
    ensures ConnGrounded(ClientOf(s, id))
  {
  }

  lemma EnterRoomGrounded(s: Server, id: ConnId, room: string, now: Moment)
    requires Grounded(s) && Pending(ClientOf(s, id).stage) && ValidName(room)
    ensures Grounded(EnterRoom(s, id, room, now))
  {
    hide Grounded, EnterRoom, SameLinks, Lessened, ValidName;
    OfGrounded(s, id);
    var joined := Joined(s, id, room);
    JoinedShape(s, id, room);
    assert room != "" by { NonEmptyName(room); }
    StageGrounded(s, joined, id);
    EnterRoomLinks(s, id, room, now);
    LinksLessen(joined, EnterRoom(s, id, room, now));
    LessenedGrounded(joined, EnterRoom(s, id, room, now));
  }

  lemma NonEmptyName(room: string)
    requires ValidName(room)
    ensures room != ""
  {
  }

  lemma FinishLessens(s: Server, id: ConnId)
    ensures Lessened(s, FinishPending(s, id))
  {
    hide RemoveClient, Lessened;
    var t := RemoveClient(s, ClientOf(s, id).username);
    RemovalLessens(s, ClientOf(s, id).username);
    FlagLessens(t, FinishPending(s, id), id);
    LessenedTrans(s, t, FinishPending(s, id));
  }

  lemma GiveUpLessens(s: Server, id: ConnId)
    ensures Lessened(s, GiveUpStep(s, id))
  {
    hide FinishPending, RemoveFromQueue, Lessened, SameLinks;
    SelfLessened(s);
    var c := ClientOf(s, id);
    if c.stage.Naming? {
      FlagLessens(s, GiveUpStep(s, id), id);
    } else if c.stage.Choosing? {
      FinishLessens(s, id);
    } else if c.stage.Asked? || c.stage.Waiting? {
      var t := RemoveFromQueue(s, c.stage.room, c.stage.ticket);
      RemoveFromQueueLinks(s, c.stage.room, c.stage.ticket);
      LinksLessen(s, t);
      FinishLessens(t, id);
      LessenedTrans(s, t, FinishPending(t, id));
    }
  }

  lemma SubmitRoomGrounded(s: Server, id: ConnId, line: string, now: Moment)
    requires Grounded(s) && ClientOf(s, id).stage.Choosing?
    ensures Grounded(SubmitRoom(s, id, line, now))
  {
    hide Grounded, EnterRoom, FinishPending, ValidName, TrimSpace, HasCapacity, Lessened, Enqueue;
    var room := ChosenRoom(line);
    if ValidName(room) {
      if s.shuttingDown {
        FinishLessens(s, id);
        LessenedGrounded(s, FinishPending(s, id));
      } else if HasCapacity(s, room) {
        EnterRoomGrounded(s, id, room, now);
      } else {
        OfGrounded(s, id);
        EnqueuedOne(s, id, room);
        StageGrounded(s, SubmitRoom(s, id, line, now), id);
      }
    }
  }

  lemma EnqueuedOne(s: Server, id: ConnId, room: string)
    ensures var t := Enqueue(s, id, room); t.clients == s.clients && t.conns == s.conns && forall r :: Members(t, r) == Members(s, r)
  {
  }

  lemma AnswerGrounded(s: Server, id: ConnId, line: string)
    requires Grounded(s) && ClientOf(s, id).stage.Asked?
    ensures Grounded(AnswerStep(s, id, line))
  {
    hide Grounded, GiveUpStep, TrimSpace, Lessened, ValidName;
    OfGrounded(s, id);
    GiveUpLessens(s, id);
    LessenedGrounded(s, GiveUpStep(s, id));
    var c := ClientOf(s, id);
    var t := WithClient(s, id, c.(stage := Waiting(c.stage.room, c.stage.ticket)));
    assert Members(t, "") == Members(s, "");
    StageGrounded(s, t, id);
  }

  // ---------- sessions ----------

  lemma PublishLessens(s: Server, room: string, m: Message, exclude: string)
    ensures Lessened(s, Publish(s, room, m, exclude)) && Lessened(s, Record(s, room, m))
  {
    hide Lessened, SameLinks, Publish, Record;
    PublishLinks(s, room, m, exclude);
    RecordLinks(s, room, m);
    LinksLessen(s, Publish(s, room, m, exclude));
    LinksLessen(s, Record(s, room, m));
  }

  lemma SwitchGrounded(s: Server, id: ConnId, room: string, now: Moment)
    requires Grounded(s) && ClientOf(s, id).stage.Active? && ValidName(room)
    ensures Grounded(SwitchRoom(s, id, room, now))
  {
    hide Grounded, Publish, Admit, DeleteRoomIfEmpty, JoinRoom, SameLinks, ValidName, Lessened, Members;
    var c := ClientOf(s, id);
    var leave := Note(now, Kind.Leave, c.username, "", "switched");
    var parted := Publish(s, c.room, leave, c.username);
    PublishLessens(s, c.room, leave, c.username);
    LessenedGrounded(s, parted);
    SamePublishConns(s, c.room, leave, c.username);
    var moved := JoinRoom(parted, id, room);
    OfGrounded(parted, id);
    NonEmptyName(room);
    JoinMembers(parted, id, room, "");
    JoinFieldsOf(parted, id, room);
    MovedConns(parted, id, room);
    StageGrounded(parted, moved, id);
    var admitted := Admit(moved, c.room);
    AdmitLinks(moved, c.room);
    LinksLessen(moved, admitted);
    LessenedGrounded(moved, admitted);
    var arrived := DeleteRoomIfEmpty(admitted, c.room);
    DeleteLinks(admitted, c.room);
    LinksLessen(admitted, arrived);
    LessenedGrounded(admitted, arrived);
    var sent := SendHistory(arrived, id, room);
    HeardLinks(arrived, sent);
    LinksLessen(arrived, sent);
    LessenedGrounded(arrived, sent);
    PublishLessens(sent, room, Note(now, Kind.Join, c.username, "", ""), c.username);
    LessenedGrounded(sent, SwitchRoom(s, id, room, now));
  }

  lemma SamePublishConns(s: Server, room: string, m: Message, exclude: string)
    ensures Publish(s, room, m, exclude).conns == s.conns
  {
  }

  lemma MovedConns(s: Server, id: ConnId, room: string)
    ensures JoinRoom(s, id, room).conns == s.conns[id := ClientOf(s, id).(room := room)]
  {
  }

  lemma RenamedGrounded(s: Server, id: ConnId, name: string)
    requires Grounded(s) && ClientOf(s, id).stage.Active? && CanRekey(s, name)
    ensures Grounded(RenameClient(s, id, ClientOf(s, id).username, name).0)
  {
    hide ValidName, CanRekey, RenameClient;
    var t := RenameClient(s, id, ClientOf(s, id).username, name).0;
    RekeyMembers(s, id, name, "");
    RenamedConns(s, id, name);
    OfGrounded(s, id);
    forall n | n in t.clients ensures KeyGrounded(t, n) {
      if n != name { assert KeyGrounded(s, n); }
    }
    forall x ensures ConnGrounded(ClientOf(t, x)) { assert ConnGrounded(ClientOf(s, x)); }
  }

  lemma RenamedConns(s: Server, id: ConnId, name: string)
    requires CanRekey(s, name)
    ensures RenameClient(s, id, ClientOf(s, id).username, name).0.conns == s.conns[id := ClientOf(s, id).(username := name)]
  {
  }

  lemma RenameGrounded(s: Server, id: ConnId, args: string, now: Moment)
    requires Grounded(s) && InSession(s, id)
    ensures Grounded(RenameStep(s, id, args, now))
  {
    hide Grounded, Publish, ValidName, Reserved, SameLinks, Lessened;
    var c := ClientOf(s, id);
    if args != "" && ValidName(args) && !Reserved(args) && args != c.username && args !in s.clients {
      RenamedGrounded(s, id, args);
      var t := RenameClient(s, id, c.username, args).0;
      var u := if c.admin then RenameAdmin(t, c.username, args) else t;
      AdminLinks(t, u);
      LinksLessen(t, u);
      LessenedGrounded(t, u);
      PublishLessens(u, c.room, Note(now, NameChange, args, "", c.username), "");
      LessenedGrounded(u, RenameStep(s, id, args, now));
    }
  }

  lemma ExpelLessens(s: Server, id: ConnId, name: string, verdict: Reason, issuer: string, now: Moment)
    ensures Lessened(s, Expel(s, id, name, verdict, issuer, now))
  {
    hide Lessened, Publish, RemoveClient, Verb;
    var c := ClientOf(s, id);
    var marked := WithClient(s, id, c.(reason := verdict));
    FlagLessens(s, marked, id);
    RemovalLessens(marked, name);
    var t := RemoveClient(marked, name);
    LessenedTrans(s, marked, t);
    var m := Note(now, Moderation, name, Verb(verdict), issuer);
    PublishLessens(t, c.room, m, "");
    var u := Publish(t, c.room, m, "");
    LessenedTrans(s, t, u);
    FlagLessens(u, CloseConn(u, id), id);
    LessenedTrans(s, u, CloseConn(u, id));
  }

  lemma {:induction false} ExpelAllLessens(s: Server, ids: seq<ConnId>, issuer: string, now: Moment)
    ensures Lessened(s, ExpelAll(s, ids, issuer, now))
  {
    hide Lessened, Expel;
    if ids == [] {
      SelfLessened(s);
    } else {
      var t, id := ExpelAll(s, ids[..|ids| - 1], issuer, now), ids[|ids| - 1];
      ExpelAllLessens(s, ids[..|ids| - 1], issuer, now);
      ExpelLessens(t, id, ClientOf(t, id).username, Banned, issuer, now);
      LessenedTrans(s, t, ExpelAll(s, ids, issuer, now));
    }
  }

  lemma KickLessens(s: Server, name: string, issuer: string, now: Moment)
    requires name in s.clients
    ensures Lessened(s, KickTarget(s, name, issuer, now))
  {
    hide Lessened, Expel, Admit, SameLinks;
    var id := s.clients[name];
    var t := Expel(s, id, name, Kicked, issuer, now);
    ExpelLessens(s, id, name, Kicked, issuer, now);
    var u := AddKickCooldown(t, ClientOf(s, id).host, now.clock);
    AdminLinks(t, u);
    LinksLessen(t, u);
    LessenedTrans(s, t, u);
    AdmitLinks(u, ClientOf(s, id).room);
    LinksLessen(u, Admit(u, ClientOf(s, id).room));
    LessenedTrans(s, u, Admit(u, ClientOf(s, id).room));
  }

  lemma BanLessens(s: Server, name: string, issuer: string, order: BanOrder, now: Moment)
    requires name in s.clients
    ensures Lessened(s, BanTarget(s, name, issuer, order, now))
  {
    hide Lessened, Expel, ExpelAll, PurgeAndClose, AdmitRooms, SameLinks;
    var id := s.clients[name];
    var host := ClientOf(s, id).host;
    var out := Expel(s, id, name, Banned, issuer, now);
    ExpelLessens(s, id, name, Banned, issuer, now);
    var first := BanFirst(s, name, issuer, now);
    AdminLinks(out, first);
    LinksLessen(out, first);
    LessenedTrans(s, out, first);
    ExpelAllLessens(first, order.collateral, issuer, now);
    var t := BanEveryone(s, name, issuer, order, now);
    LessenedTrans(s, first, t);
    PurgeAndCloseLinks(t, host, order.visit);
    var u := PurgeAndClose(t, host, order.visit);
    LinksLessen(t, u);
    LessenedTrans(s, t, u);
    AdmitRoomsLinks(u, order.reopened, Expelled(s, name, order));
    var v := AdmitRooms(u, order.reopened, Expelled(s, name, order));
    LinksLessen(u, v);
    LessenedTrans(s, u, v);
  }

  lemma QueuedLessens(s: Server, host: string, visit: seq<string>, now: Moment)
    ensures Lessened(s, KickQueued(s, host, visit, now)) && Lessened(s, BanQueued(s, host, visit))
  {
    hide Lessened, Purge, PurgeAndClose, SameLinks;
    SelfLessened(s);
    var t := PurgeAndClose(s, host, visit);
    PurgeAndCloseLinks(s, host, visit);
    LinksLessen(s, t);
    AdminLinks(t, AddKickCooldown(t, host, now.clock));
    AdminLinks(t, AddBan(t, host));
    LinksLessen(t, AddKickCooldown(t, host, now.clock));
    LinksLessen(t, AddBan(t, host));
    LessenedTrans(s, t, AddKickCooldown(t, host, now.clock));
    LessenedTrans(s, t, AddBan(t, host));
  }

  lemma FlagsLessen(s: Server, name: string, on: bool, issuer: string, now: Moment)
    requires name in s.clients
    ensures Lessened(s, MuteTarget(s, name, on, issuer, now)) && Lessened(s, PromoteTarget(s, name, on, issuer, now))
  {
    hide Lessened, Record, Note;
    SelfLessened(s);
    var id := s.clients[name];
    var c := ClientOf(s, id);
    var muted := WithClient(s, id, c.(muted := on));
    var flagged := WithClient(s, id, c.(admin := on)).(admins := if on then s.admins + {name} else s.admins - {name});
    FlagLessens(s, muted, id);
    FlagLessens(s, flagged, id);
    var mute := Note(now, Moderation, name, if on then "muted" else "unmuted", issuer);
    var promote := Note(now, Moderation, name, if on then "promoted" else "demoted", issuer);
    PublishLessens(muted, c.room, mute, "");
    PublishLessens(flagged, c.room, promote, "");
    LessenedTrans(s, muted, Record(muted, c.room, mute));
    LessenedTrans(s, flagged, Record(flagged, c.room, promote));
  }

  lemma {:induction false} AnnounceLessens(s: Server, names: seq<string>, text: string, issuer: string, now: Moment)
    ensures Lessened(s, AnnounceIn(s, names, text, issuer, now))
  {
    hide Lessened, Record, Note;
    if names == [] {
      SelfLessened(s);
    } else {
      var t := AnnounceIn(s, names[..|names| - 1], text, issuer, now);
      AnnounceLessens(s, names[..|names| - 1], text, issuer, now);
      PublishLessens(t, names[|names| - 1], Note(now, Announcement, "", text, issuer), "");
      LessenedTrans(s, t, AnnounceIn(s, names, text, issuer, now));
    }
  }

  lemma SayLessens(s: Server, id: ConnId, line: string, now: Moment)
    ensures Lessened(s, SayStep(s, id, line, now))
  {
    hide Lessened, Publish, TrimSpace, ByteLen, Note;
    SelfLessened(s);
    var c := ClientOf(s, id);
    PublishLessens(s, c.room, Note(now, Chat, c.username, line, ""), c.username);
  }

  lemma CleanupLessens(s: Server, id: ConnId, now: Moment)
    ensures Lessened(s, Cleanup(s, id, now))
  {
    hide Lessened, Publish, RemoveClient, Admit, DeleteRoomIfEmpty, SameLinks, Note, Moderated;
    var c := ClientOf(s, id);
    var m := Note(now, Kind.Leave, c.username, "", if c.reason.Unset? then "voluntary" else "drop");
    var removed := RemoveClient(s, c.username);
    RemovalLessens(s, c.username);
    PublishLessens(removed, c.room, m, c.username);
    LessenedTrans(s, removed, Publish(removed, c.room, m, c.username));
    SelfLessened(s);
    var t := if Moderated(c) then s else Publish(removed, c.room, m, c.username);
    AdmitLinks(t, c.room);
    LinksLessen(t, Admit(t, c.room));
    LessenedTrans(s, t, Admit(t, c.room));
    var u := DeleteRoomIfEmpty(Admit(t, c.room), c.room);
    DeleteLinks(Admit(t, c.room), c.room);
    LinksLessen(Admit(t, c.room), u);
    LessenedTrans(s, Admit(t, c.room), u);
    FlagLessens(u, Cleanup(s, id, now), id);
    LessenedTrans(s, u, Cleanup(s, id, now));
  }

  lemma LeaveLessens(s: Server, id: ConnId, drop: bool, now: Moment)
    ensures Lessened(s, Step(s, Action.Leave(id, drop), now))
  {
    hide Lessened, Cleanup;
    var t := WithClient(s, id, SetReason(ClientOf(s, id), drop));
    FlagLessens(s, t, id);
    CleanupLessens(t, id, now);
    LessenedTrans(s, t, Cleanup(t, id, now));
  }

  // ---------- every step, every run ----------

  predicate Onboarding(a: Action) { a.Connect? || a.EnterName? || a.ChooseRoom? || a.Answer? || a.TakeSlot? || a.GiveUp? }

  lemma OnboardingGrounded(s: Server, a: Action, now: Moment)
    requires Grounded(s) && Enabled(s, a, now) && Onboarding(a)
    ensures Grounded(Step(s, a, now))
  {
    hide Grounded, Lessened, AcceptConnection, SubmitName, SubmitRoom, AnswerStep, GiveUpStep, EnterRoom, ValidName;
    match a
    case Connect(id, host) => ConnectGrounded(s, id, host, now);
    case EnterName(id, name) => SubmitNameGrounded(s, id, name);
    case ChooseRoom(id, line) => SubmitRoomGrounded(s, id, line, now);
    case Answer(id, line) => AnswerGrounded(s, id, line);
    case TakeSlot(id) => OfGrounded(s, id); EnterRoomGrounded(s, id, ClientOf(s, id).stage.room, now);
    case GiveUp(id) => GiveUpLessens(s, id); LessenedGrounded(s, GiveUpStep(s, id));
  }

  lemma OtherLessens(s: Server, a: Action, now: Moment)
    requires Enabled(s, a, now) && !Onboarding(a) && !a.Switch? && !a.Create? && !a.Rename?
    ensures Lessened(s, Step(s, a, now))
  {
    hide Lessened, SayStep, KickTarget, BanTarget, MuteTarget, PromoteTarget, AnnounceIn, Cleanup, KickQueued, BanQueued, PossibleOrder,
         Enumerates, TrimSpace, ClearHistory, SameLinks;
    SelfLessened(s);
    match a
    case Say(id, line) => SayLessens(s, id, line, now);
    case Kick(id, args) => if args in s.clients { KickLessens(s, args, ClientOf(s, id).username, now); }
    case Ban(id, args, order) => if args in s.clients { BanLessens(s, args, ClientOf(s, id).username, order, now); }
    case SetMute(id, args, on) => if args in s.clients { FlagsLessen(s, args, on, ClientOf(s, id).username, now); }
    case Announce(id, args, names) => AnnounceLessens(s, names, args, ClientOf(s, id).username, now);
    case Leave(id, drop) => LeaveLessens(s, id, drop, now);
    case OperatorKick(args, visit) =>
      if args in s.clients { KickLessens(s, args, "Server", now); } else { QueuedLessens(s, args, visit, now); }
    case OperatorBan(args, order) =>
      if args in s.clients { BanLessens(s, args, "Server", order, now); } else { QueuedLessens(s, args, order.visit, now); }
    case OperatorSetMute(args, on) => if args in s.clients { FlagsLessen(s, args, on, "Server", now); }
    case OperatorAnnounce(args, names) => AnnounceLessens(s, names, args, "Server", now);
    case OperatorPromote(args) => if args in s.clients { FlagsLessen(s, args, true, "Server", now); }
    case OperatorDemote(args) => if args in s.clients { FlagsLessen(s, args, false, "Server", now); }
    case Sever(id, drop) => FlagLessens(s, Step(s, a, now), id);
    case Midnight => ClearLinks(s); LinksLessen(s, ClearHistory(s));
    case BeginShutdown => AdminLinks(s, s.(shuttingDown := true)); LinksLessen(s, s.(shuttingDown := true));
  }

  lemma StepGrounded(s: Server, a: Action, now: Moment)
    requires Grounded(s) && Enabled(s, a, now)
    ensures Grounded(Step(s, a, now))
  {
    hide Grounded, Lessened, Enumerates, PossibleOrder;
    if Onboarding(a) {
      hide Step, Enabled;
      OnboardingGrounded(s, a, now);
    } else if a.Switch? || a.Create? {
      hide ValidName, HasCapacity, SwitchRoom;
      if ValidName(a.args) { SwitchGrounded(s, a.id, a.args, now); }
    } else if a.Rename? {
      hide RenameStep;
      RenameGrounded(s, a.id, a.args, now);
    } else {
      hide Step, Enabled;
      OtherLessens(s, a, now);
      LessenedGrounded(s, Step(s, a, now));
    }
  }

  lemma FreshGrounded(admins: set<string>)
    ensures Grounded(Fresh(admins))
  {
  }

  lemma {:induction false} RunGrounded(s: Server, run: Run)
    requires Grounded(s) && Possible(s, run)
    ensures Grounded(After(s, run))
    decreases |run|
  {
    hide Grounded, Step, Enabled;
    if run != [] {
      StepGrounded(s, run[0].0, run[0].1);
      RunGrounded(Step(s, run[0].0, run[0].1), run[1..]);
    }
  }
}
