/** The ownership invariant over whole runs, and exactly which steps break it. */
module OwnershipRuns {
  import opened Text
  import opened Messages
  import opened ServerState
  import opened Commands
  import opened Ownership

  // ---------- the exact guard ----------

  function ChosenRoom(line: string): string {
    if TrimSpace(line) == "" then DEFAULT_ROOM else TrimSpace(line)
  }

  function Actor(a: Action): ConnId {
    match a
    case ChooseRoom(id, _) => id
    case Answer(id, _) => id
    case TakeSlot(id) => id
    case GiveUp(id) => id
    case _ => 0
  }

  /** The step puts a pending connection into a room. */
  predicate Enters(s: Server, a: Action) {
    match a
    case TakeSlot(_) => true
    case ChooseRoom(_, line) => ValidName(ChosenRoom(line)) && !s.shuttingDown && HasCapacity(s, ChosenRoom(line))
    case _ => false
  }

  /** The step ends a pending connection. */
  predicate Exits(s: Server, a: Action) {
    match a
    case GiveUp(id) => Pending(ClientOf(s, id).stage)
    case Answer(_, line) => TrimSpace(line) == "no"
    case ChooseRoom(_, line) => ValidName(ChosenRoom(line)) && s.shuttingDown
    case _ => false
  }

  /** A connection kicked or banned while pending neither enters a room nor, once its name is in use again, exits. */
  predicate Guard(s: Server, a: Action) {
    var c := ClientOf(s, Actor(a));
    && (Enters(s, a) ==> !Moderated(c))
    && (Exits(s, a) ==> Moderated(c) ==> c.username !in s.clients)
  }

  // ---------- composite steps ----------

  lemma EnterRoomOwned(s: Server, id: ConnId, room: string, now: Moment)
    requires Owned(s) && Pending(ClientOf(s, id).stage) && ValidName(room)
    ensures Owned(EnterRoom(s, id, room, now)) <==> !Moderated(ClientOf(s, id))
  {
    hide Owned, EnterRoom, Joined, ValidName, SameLinks;
    JoinOwned(s, id, room);
    EnterRoomLinks(s, id, room, now);
    if Moderated(ClientOf(s, id)) {
      if Owned(EnterRoom(s, id, room, now)) {
        ModeratedMember(s, id, room, now);
        OfMember(EnterRoom(s, id, room, now), room, ClientOf(s, id).username);
        assert false;
      }
    } else {
      SameLinksOwned(Joined(s, id, room), EnterRoom(s, id, room, now));
    }
  }

  lemma ModeratedMember(s: Server, id: ConnId, room: string, now: Moment)
    requires Owned(s) && Pending(ClientOf(s, id).stage) && ValidName(room)
    ensures var t := EnterRoom(s, id, room, now);
            var name := ClientOf(s, id).username;
            && name in Members(t, room) && Members(t, room)[name] == id
            && ClientOf(t, id).reason == ClientOf(s, id).reason
  {
    hide Owned, EnterRoom, ValidName;
    PendingRoom(s, id);
    JoinedShape(s, id, room);
    EnterRoomLinks(s, id, room, now);
  }

  lemma AnyClose(s: Server, t: Server, id: ConnId)
    requires SameLinks(s, t)
    ensures SameLinks(WithClient(s, id, ClientOf(s, id).(closed := true, stage := Finished)),
                      WithClient(t, id, ClientOf(t, id).(closed := true, stage := Finished)))
  {
    var s', t' := Finish(s, id), Finish(t, id);
    assert forall r :: Members(s', r) == Members(s, r) && Members(t', r) == Members(t, r);
    assert forall x :: x != id ==> ClientOf(s', x) == ClientOf(s, x) && ClientOf(t', x) == ClientOf(t, x);
  }

  /** What cleanup and exit leave of a connection. */
  function Finish(s: Server, id: ConnId): Server {
    WithClient(s, id, ClientOf(s, id).(closed := true, stage := Finished))
  }

  lemma CleanupOwned(s: Server, id: ConnId, now: Moment)
    requires Owned(s) && ClientOf(s, id).stage.Active?
    ensures Owned(Cleanup(s, id, now))
  {
    hide Owned, SameLinks, Publish, Admit, DeleteRoomIfEmpty, RemoveClient, ValidName;
    var c := ClientOf(s, id);
    ActiveFacts(s, id);
    var base := if Moderated(c) then s else RemoveClient(s, c.username);
    var m := Note(now, Kind.Leave, c.username, "", if c.reason.Unset? then "voluntary" else "drop");
    var t := if Moderated(c) then s else Publish(base, c.room, m, c.username);
    assert SameLinks(base, t) by { SameLinksSelf(s); PublishLinks(base, c.room, m, c.username); }
    AdmitLinks(t, c.room);
    DeleteLinks(Admit(t, c.room), c.room);
    SameLinksTrans(base, t, Admit(t, c.room));
    SameLinksTrans(base, Admit(t, c.room), DeleteRoomIfEmpty(Admit(t, c.room), c.room));
    AnyClose(base, DeleteRoomIfEmpty(Admit(t, c.room), c.room), id);
    assert Owned(Finish(base, id)) by {
      hide *;
      CleanupLinks(s, id);
    }
    SameLinksOwned(Finish(base, id), Cleanup(s, id, now));
  }

  lemma CleanupLinks(s: Server, id: ConnId)
    requires Owned(s) && ClientOf(s, id).stage.Active?
    ensures Owned(Finish(if Moderated(ClientOf(s, id)) then s else RemoveClient(s, ClientOf(s, id).username), id))
  {
    hide Owned, RemoveClient, ValidName, ConnOwned;
    var c := ClientOf(s, id);
    ActiveFacts(s, id);
    if Moderated(c) {
      assert !Registered(s, id) by { if Registered(s, id) { OfKey(s, c.username); assert false; } }
      LinksOnlyOf(s, Finish(s, id), id);
    } else {
      RemoveClientShape(s, c.username);
      DefaultExists(s);
      FinishedOwned(Finish(RemoveClient(s, c.username), id), id);
      Removal(s, Finish(RemoveClient(s, c.username), id), id, c.username);
    }
  }

  lemma SubmitRoomOwned(s: Server, id: ConnId, line: string, now: Moment)
    requires Owned(s) && ClientOf(s, id).stage.Choosing?
    ensures Owned(SubmitRoom(s, id, line, now)) <==> Guard(s, ChooseRoom(id, line))
  {
    hide Owned, EnterRoom, FinishPending, ValidName, TrimSpace;
    var room := ChosenRoom(line);
    if !ValidName(room) {
    } else if s.shuttingDown {
      FinishOwned(s, id);
    } else if HasCapacity(s, room) {
      EnterRoomOwned(s, id, room, now);
    } else {
      EnqueueOwned(s, id, room);
    }
  }

  lemma EnqueueOwned(s: Server, id: ConnId, room: string)
    requires Owned(s) && ClientOf(s, id).stage.Choosing? && ValidName(room)
    ensures var t := Enqueue(s, id, room);
            Owned(WithClient(t, id, ClientOf(t, id).(stage := Asked(room, |s.tickets|))))
  {
    hide Owned, ValidName;
    var t := Enqueue(s, id, room);
    QueueLinks(s, room, Queue(s, room) + [Entry(id, |s.tickets|)], t.position, s.admitted);
    HiddenTickets(s, t, id, room);
    SameLinksOwned(s, t);
    StageOnly(t, id, Asked(room, |s.tickets|));
  }

  lemma HiddenTickets(s: Server, t: Server, id: ConnId, room: string)
    requires t == Enqueue(s, id, room)
    ensures SameLinks(s, t)
  {
    assert forall r :: Members(t, r) == Members(s, r);
  }

  /** A pending connection may move between the pending stages. */
  lemma StageOnly(s: Server, id: ConnId, stage: Stage)
    requires Owned(s) && Pending(ClientOf(s, id).stage) && Pending(stage)
    requires stage.Choosing? || ValidName(stage.room)
    ensures Owned(WithClient(s, id, ClientOf(s, id).(stage := stage)))
  {
    hide Owned, ValidName, Reserved;
    var t := WithClient(s, id, ClientOf(s, id).(stage := stage));
    OfConn(s, id);
    DefaultExists(s);
    assert forall r :: Members(t, r) == Members(s, r);
    forall n | n in t.clients ensures KeyOwned(t, n) {
      OfKey(s, n);
      if s.clients[n] != id {
        hide KeyOwned;
        KeyStays(s, t, n);
      }
    }
    forall r, n | n in Members(t, r) ensures MemberOwned(t, r, n) {
      hide MemberOwned;
      OfMember(s, r, n);
      MemberStays(s, t, r, n);
    }
    forall x | x in t.conns ensures ConnOwned(t, x) {
      if x != id {
        hide ConnOwned;
        ConnStays(s, t, x);
      }
    }
    hide KeyOwned, MemberOwned, ConnOwned;
    OwnedIf(t);
  }

  lemma GiveUpOwned(s: Server, id: ConnId)
    requires Owned(s) && (ClientOf(s, id).stage.Naming? || Pending(ClientOf(s, id).stage))
    ensures Owned(GiveUpStep(s, id)) <==>
            (Pending(ClientOf(s, id).stage) ==> Moderated(ClientOf(s, id)) ==> ClientOf(s, id).username !in s.clients)
  {
    hide Owned, FinishPending, RemoveFromQueue, SameLinks;
    var c := ClientOf(s, id);
    match c.stage
    case Naming =>
      OfConn(s, id);
      LinksOnlyOfNaming(s, id);
    case Choosing => FinishOwned(s, id);
    case Asked(room, ticket) => ExitQueueOwned(s, id, room, ticket);
    case Waiting(room, ticket) => ExitQueueOwned(s, id, room, ticket);
  }

  lemma ExitQueueOwned(s: Server, id: ConnId, room: string, ticket: nat)
    requires Owned(s) && Pending(ClientOf(s, id).stage)
    ensures Owned(FinishPending(RemoveFromQueue(s, room, ticket), id)) <==>
            (Moderated(ClientOf(s, id)) ==> ClientOf(s, id).username !in s.clients)
  {
    hide Owned, FinishPending, RemoveFromQueue, SameLinks;
    var t := RemoveFromQueue(s, room, ticket);
    RemoveFromQueueLinks(s, room, ticket);
    SameLinksOwned(s, t);
    SameQueueConns(s, room, ticket);
    FinishOwned(t, id);
  }

  lemma SameQueueConns(s: Server, room: string, ticket: nat)
    ensures RemoveFromQueue(s, room, ticket).conns == s.conns && RemoveFromQueue(s, room, ticket).clients == s.clients
  {
  }

  lemma LinksOnlyOfNaming(s: Server, id: ConnId)
    requires Owned(s) && ClientOf(s, id).stage.Naming?
    ensures Owned(Finish(s, id))
  {
    hide Owned;
    var c := ClientOf(s, id);
    if Registered(s, id) {
      OfKey(s, c.username);
      assert false;
    }
    LinksOnlyOf(s, Finish(s, id), id);
  }

  lemma TakeSlotOwned(s: Server, id: ConnId, now: Moment)
    requires Owned(s) && ClientOf(s, id).stage.Waiting?
    ensures Owned(Step(s, TakeSlot(id), now)) <==> !Moderated(ClientOf(s, id))
  {
    hide Owned, EnterRoom, ValidName;
    OfConn(s, id);
    EnterRoomOwned(s, id, ClientOf(s, id).stage.room, now);
  }

  lemma AnswerOwned(s: Server, id: ConnId, line: string)
    requires Owned(s) && ClientOf(s, id).stage.Asked?
    ensures Owned(AnswerStep(s, id, line)) <==> Guard(s, Answer(id, line))
  {
    hide Owned, GiveUpStep, TrimSpace, ValidName;
    var c := ClientOf(s, id);
    OfConn(s, id);
    StageOnly(s, id, Waiting(c.stage.room, c.stage.ticket));
    GiveUpOwned(s, id);
    YesIsNotNo();
  }

  lemma YesIsNotNo()
    ensures "yes" != "no"
  {
    assert |"yes"| != |"no"|;
  }

  lemma PublishOwned(s: Server, room: string, m: Message, exclude: string)
    requires Owned(s)
    ensures Owned(Publish(s, room, m, exclude))
  {
    hide Owned, Publish;
    PublishLinks(s, room, m, exclude);
    SameLinksOwned(s, Publish(s, room, m, exclude));
  }

  lemma InSessionRegistered(s: Server, id: ConnId)
    requires Owned(s) && InSession(s, id)
    ensures Registered(s, id) && !Moderated(ClientOf(s, id))
  {
    hide Owned, ValidName;
    ActiveFacts(s, id);
  }

  lemma SwitchRoomOwned(s: Server, id: ConnId, room: string, now: Moment)
    requires Owned(s) && InSession(s, id) && ValidName(room)
    ensures Owned(SwitchRoom(s, id, room, now))
  {
    hide Owned, Publish, Admit, DeleteRoomIfEmpty, JoinRoom, SameLinks, ValidName;
    var c := ClientOf(s, id);
    InSessionRegistered(s, id);
    var leave := Note(now, Kind.Leave, c.username, "", "switched");
    var parted := Publish(s, c.room, leave, c.username);
    PublishOwned(s, c.room, leave, c.username);
    PublishShape(s, c.room, leave, c.username);
    var moved := JoinRoom(parted, id, room);
    MoveOwned(parted, id, room);
    var admitted := Admit(moved, c.room);
    AdmitLinks(moved, c.room);
    SameLinksOwned(moved, admitted);
    var arrived := DeleteRoomIfEmpty(admitted, c.room);
    DeleteLinks(admitted, c.room);
    SameLinksOwned(admitted, arrived);
    HeardLinks(arrived, SendHistory(arrived, id, room));
    SameLinksOwned(arrived, SendHistory(arrived, id, room));
    PublishOwned(SendHistory(arrived, id, room), room, Note(now, Kind.Join, c.username, "", ""), c.username);
  }

  lemma RenameOwned(s: Server, id: ConnId, args: string, now: Moment)
    requires Owned(s) && InSession(s, id)
    ensures Owned(RenameStep(s, id, args, now))
  {
    hide Owned, Publish, ValidName, Reserved, SameLinks;
    var c := ClientOf(s, id);
    if args != "" && ValidName(args) && !Reserved(args) && args != c.username && args !in s.clients {
      InSessionRegistered(s, id);
      RenameClientOwned(s, id, args);
      var t := RenameClient(s, id, c.username, args).0;
      var u := if c.admin then RenameAdmin(t, c.username, args) else t;
      AdminLinks(t, u);
      SameLinksOwned(t, u);
      PublishOwned(u, c.room, Note(now, NameChange, args, "", c.username), "");
    }
  }

  /** Fields outside the links. */
  lemma AdminLinks(s: Server, t: Server)
    requires t == s.(admins := t.admins, kicked := t.kicked, banned := t.banned, shuttingDown := t.shuttingDown)
    ensures SameLinks(s, t)
  {
    assert forall r :: Members(t, r) == Members(s, r);
  }

  lemma FlagLinks(s: Server, id: ConnId, c: Client)
    requires SameConn(c, ClientOf(s, id))
    ensures SameLinks(s, WithClient(s, id, c))
  {
    assert forall r :: Members(WithClient(s, id, c), r) == Members(s, r);
  }

  lemma KickOwned(s: Server, name: string, issuer: string, now: Moment)
    requires Owned(s) && name in s.clients
    ensures Owned(KickTarget(s, name, issuer, now))
  {
    hide Owned, Expel, Admit, SameLinks, ValidName, Reserved;
    OfKey(s, name);
    var id := s.clients[name];
    var c := ClientOf(s, id);
    ExpelOwned(s, id, Kicked, issuer, now);
    var t := Expel(s, id, name, Kicked, issuer, now);
    var u := AddKickCooldown(t, c.host, now.clock);
    AdminLinks(t, u);
    SameLinksOwned(t, u);
    AdmitLinks(u, c.room);
    SameLinksOwned(u, Admit(u, c.room));
  }

  ghost predicate Distinct(ids: seq<ConnId>) {
    forall i, j :: 0 <= i < j < |ids| ==> ids[i] != ids[j]
  }

  lemma DistinctInit(ids: seq<ConnId>)
    requires Distinct(ids) && ids != []
    ensures Distinct(ids[..|ids| - 1]) && ids[|ids| - 1] !in ids[..|ids| - 1]
    ensures forall id :: id in ids <==> id in ids[..|ids| - 1] || id == ids[|ids| - 1]
  {
    assert ids == ids[..|ids| - 1] + [ids[|ids| - 1]];
  }

  /** Expelling registered connections one after the other removes exactly their names. */
  lemma {:induction false} ExpelAllOwned(s: Server, ids: seq<ConnId>, issuer: string, now: Moment)
    requires Owned(s) && Distinct(ids) && forall id <- ids :: id in s.conns && Registered(s, id)
    ensures var t := ExpelAll(s, ids, issuer, now);
            && Owned(t)
            && (forall name :: name in t.clients <==> name in s.clients && s.clients[name] !in ids)
            && (forall name :: name in t.clients ==> t.clients[name] == s.clients[name])
            && (forall id :: id !in ids ==> ClientOf(t, id) == ClientOf(s, id))
            && (forall id :: id in s.conns ==> id in t.conns)
            && (forall id :: ClientOf(t, id).username == ClientOf(s, id).username && ClientOf(t, id).room == ClientOf(s, id).room
                             && ClientOf(t, id).host == ClientOf(s, id).host && ClientOf(t, id).stage == ClientOf(s, id).stage)
            && (forall id <- ids :: Moderated(ClientOf(t, id)) && ClientOf(t, id).closed)
  {
    hide Owned, Expel, ValidName, Reserved;
    if ids != [] {
      var init, id := ids[..|ids| - 1], ids[|ids| - 1];
      DistinctInit(ids);
      ExpelAllOwned(s, init, issuer, now);
      var t := ExpelAll(s, init, issuer, now);
      assert id in ids;
      ExpelOwned(t, id, Banned, issuer, now);
      forall name | name in s.clients && name == ClientOf(s, id).username ensures s.clients[name] == id { }
      forall name | name in s.clients && s.clients[name] == id ensures name == ClientOf(s, id).username { OfKey(s, name); }
    }
  }

  lemma BanFirstOwned(s: Server, name: string, issuer: string, now: Moment)
    requires Owned(s) && name in s.clients
    ensures var t := BanFirst(s, name, issuer, now);
            && Owned(t)
            && t.clients == s.clients - {name}
            && t.conns == s.conns[s.clients[name] := ClientOf(s, s.clients[name]).(reason := Banned, closed := true)]
  {
    hide Owned, Expel, SameLinks, ValidName, Reserved;
    OfKey(s, name);
    var id := s.clients[name];
    ExpelOwned(s, id, Banned, issuer, now);
    var t := Expel(s, id, name, Banned, issuer, now);
    AdminLinks(t, AddBan(t, ClientOf(s, id).host));
    SameLinksOwned(t, AddBan(t, ClientOf(s, id).host));
  }

  lemma BanEveryoneOwned(s: Server, name: string, issuer: string, exclude: string, order: BanOrder, now: Moment)
    requires Owned(s) && name in s.clients && PossibleOrder(s, name, issuer, exclude, order, now)
    ensures var t := BanFirst(s, name, issuer, now);
            && Owned(t) && Distinct(order.collateral)
            && (forall id <- order.collateral :: id in t.conns && Registered(t, id))
            && Owned(BanEveryone(s, name, issuer, order, now))
  {
    hide Owned, BanFirst, ExpelAll, ValidName, Reserved;
    BanFirstOwned(s, name, issuer, now);
    var t := BanFirst(s, name, issuer, now);
    forall id | id in order.collateral ensures id in t.conns && Registered(t, id) {
      assert id in ClientsByHost(t, ClientOf(s, s.clients[name]).host, exclude);
      var n :| n in t.clients && t.clients[n] == id;
      OfKey(t, n);
    }
    ExpelAllOwned(t, order.collateral, issuer, now);
  }

  lemma PurgeAndCloseLinks(s: Server, host: string, visit: seq<string>)
    ensures SameLinks(s, PurgeAndClose(s, host, visit))
  {
    hide SameLinks, Purge, CloseAll;
    var (t, removed) := Purge(s, host, visit);
    PurgeLinks(s, host, visit);
    CloseAllLinks(t, removed);
    SameLinksTrans(s, t, CloseAll(t, removed));
  }

  lemma BanOwned(s: Server, name: string, issuer: string, exclude: string, order: BanOrder, now: Moment)
    requires Owned(s) && name in s.clients && PossibleOrder(s, name, issuer, exclude, order, now)
    ensures Owned(BanTarget(s, name, issuer, order, now))
  {
    hide Owned, BanEveryone, PurgeAndClose, AdmitRooms, SameLinks, PossibleOrder;
    BanEveryoneOwned(s, name, issuer, exclude, order, now);
    var t := BanEveryone(s, name, issuer, order, now);
    var u := PurgeAndClose(t, ClientOf(s, s.clients[name]).host, order.visit);
    PurgeAndCloseLinks(t, ClientOf(s, s.clients[name]).host, order.visit);
    SameLinksOwned(t, u);
    AdmitRoomsLinks(u, order.reopened, Expelled(s, name, order));
    SameLinksOwned(u, AdmitRooms(u, order.reopened, Expelled(s, name, order)));
  }

  lemma QueuedModerationOwned(s: Server, host: string, visit: seq<string>, now: Moment)
    requires Owned(s)
    ensures Owned(KickQueued(s, host, visit, now)) && Owned(BanQueued(s, host, visit))
  {
    hide Owned, PurgeAndClose, SameLinks, Purge;
    var t := PurgeAndClose(s, host, visit);
    PurgeAndCloseLinks(s, host, visit);
    SameLinksOwned(s, t);
    AdminLinks(t, AddKickCooldown(t, host, now.clock));
    SameLinksOwned(t, AddKickCooldown(t, host, now.clock));
    AdminLinks(t, AddBan(t, host));
    SameLinksOwned(t, AddBan(t, host));
  }

  lemma FlagOwned(s: Server, id: ConnId, c: Client, admins: set<string>, room: string, m: Message)
    requires Owned(s) && SameConn(c, ClientOf(s, id))
    ensures Owned(Record(WithClient(s, id, c).(admins := admins), room, m))
  {
    hide Owned, Record, SameLinks, SameConn;
    var t := WithClient(s, id, c);
    FlagLinks(s, id, c);
    SameLinksOwned(s, t);
    AdminLinks(t, t.(admins := admins));
    SameLinksOwned(t, t.(admins := admins));
    RecordLinks(t.(admins := admins), room, m);
    SameLinksOwned(t.(admins := admins), Record(t.(admins := admins), room, m));
  }

  lemma MutePromoteOwned(s: Server, name: string, on: bool, issuer: string, now: Moment)
    requires Owned(s) && name in s.clients
    ensures Owned(MuteTarget(s, name, on, issuer, now)) && Owned(PromoteTarget(s, name, on, issuer, now))
  {
    hide Owned, Record, Note;
    var id := s.clients[name];
    var c := ClientOf(s, id);
    FlagOwned(s, id, c.(muted := on), s.admins, c.room, Note(now, Moderation, name, if on then "muted" else "unmuted", issuer));
    FlagOwned(s, id, c.(admin := on), if on then s.admins + {name} else s.admins - {name}, c.room,
              Note(now, Moderation, name, if on then "promoted" else "demoted", issuer));
  }

  lemma {:induction false} AnnounceOwned(s: Server, names: seq<string>, text: string, issuer: string, now: Moment)
    requires Owned(s)
    ensures Owned(AnnounceIn(s, names, text, issuer, now))
  {
    hide Owned, Record, SameLinks;
    if names != [] {
      AnnounceOwned(s, names[..|names| - 1], text, issuer, now);
      var t := AnnounceIn(s, names[..|names| - 1], text, issuer, now);
      var m := Note(now, Announcement, "", text, issuer);
      RecordLinks(t, names[|names| - 1], m);
      SameLinksOwned(t, Record(t, names[|names| - 1], m));
    }
  }

  lemma LeaveOwned(s: Server, id: ConnId, drop: bool, now: Moment)
    requires Owned(s) && ClientOf(s, id).stage.Active?
    ensures Owned(Step(s, Action.Leave(id, drop), now))
  {
    hide Owned, Cleanup;
    var t := WithClient(s, id, SetReason(ClientOf(s, id), drop));
    ReasonOwned(s, id, SetReason(ClientOf(s, id), drop));
    CleanupOwned(t, id, now);
  }

  lemma ReasonOwned(s: Server, id: ConnId, c: Client)
    requires Owned(s)
    requires var d := ClientOf(s, id);
             c.username == d.username && c.room == d.room && c.stage == d.stage && (d.closed ==> c.closed)
             && (c.reason == d.reason || (!Moderated(c) && !Moderated(d)))
    ensures Owned(WithClient(s, id, c))
  {
    hide Owned, ValidName, Reserved;
    var t := WithClient(s, id, c);
    DefaultExists(s);
    assert forall r :: Members(t, r) == Members(s, r);
    forall n | n in t.clients ensures KeyOwned(t, n) {
      OfKey(s, n);
      if s.clients[n] != id {
        hide KeyOwned;
        KeyStays(s, t, n);
      }
    }
    forall r, n | n in Members(t, r) ensures MemberOwned(t, r, n) {
      hide MemberOwned;
      OfMember(s, r, n);
      MemberStays(s, t, r, n);
    }
    forall x | x in t.conns ensures ConnOwned(t, x) {
      if x == id {
        if id in s.conns { OfConn(s, id); }
      } else {
        hide ConnOwned;
        ConnStays(s, t, x);
      }
    }
    hide KeyOwned, MemberOwned, ConnOwned;
    OwnedIf(t);
  }

  lemma ClearOwned(s: Server)
    requires Owned(s)
    ensures Owned(ClearHistory(s))
  {
    hide Owned;
    var t := ClearHistory(s);
    assert forall r :: Members(t, r) == Members(s, r);
    SameLinksOwned(s, t);
  }

  // ---------- main results ----------

  /** A step keeps the ownership invariant if and only if it obeys the guard. */
  lemma StepOwnedExactly(s: Server, a: Action, now: Moment)
    requires Owned(s) && Enabled(s, a, now)
    ensures Owned(Step(s, a, now)) <==> Guard(s, a)
  {
    hide Owned, Step, Enabled, Guard;
    if OperatorAction(a) {
      OperatorStepOwned(s, a, now);
    } else {
      ConnectionStepOwned(s, a, now);
    }
  }

  /** Steps no connection's handler takes. */
  predicate OperatorAction(a: Action) {
    a.OperatorKick? || a.OperatorBan? || a.OperatorSetMute? || a.OperatorAnnounce? || a.OperatorPromote? || a.OperatorDemote?
    || a.Sever? || a.Midnight? || a.BeginShutdown?
  }

  lemma ConnectionStepOwned(s: Server, a: Action, now: Moment)
    requires Owned(s) && Enabled(s, a, now) && !OperatorAction(a)
    ensures Owned(Step(s, a, now)) <==> Guard(s, a)
  {
    hide Owned, SubmitRoom, AnswerStep, GiveUpStep, SubmitName, AcceptConnection, SayStep, SwitchRoom, RenameStep, KickTarget,
         BanTarget, MuteTarget, AnnounceIn, Cleanup, PossibleOrder, Enumerates,
         HasCapacity, ValidName, TrimSpace, EnterRoom, Moderated, Publish;
    match a
    case Connect(id, host) => ConnectOwned(s, id, host, now);
    case EnterName(id, name) => SubmitNameOwned(s, id, name);
    case ChooseRoom(id, line) => SubmitRoomOwned(s, id, line, now);
    case Answer(id, line) => AnswerOwned(s, id, line);
    case TakeSlot(id) => TakeSlotOwned(s, id, now);
    case GiveUp(id) => GiveUpOwned(s, id);
    case Say(id, line) => SayOwned(s, id, line, now);
    case Switch(id, args) => if ValidName(args) { SwitchRoomOwned(s, id, args, now); }
    case Create(id, args) => if ValidName(args) { SwitchRoomOwned(s, id, args, now); }
    case Rename(id, args) => RenameOwned(s, id, args, now);
    case Kick(id, args) => if args in s.clients { KickOwned(s, args, ClientOf(s, id).username, now); }
    case Ban(id, args, order) =>
      if args in s.clients { BanOwned(s, args, ClientOf(s, id).username, ClientOf(s, id).username, order, now); }
    case SetMute(id, args, on) => if args in s.clients { MutePromoteOwned(s, args, on, ClientOf(s, id).username, now); }
    case Announce(id, args, names) => AnnounceOwned(s, names, args, ClientOf(s, id).username, now);
    case Leave(id, drop) => LeaveOwned(s, id, drop, now);
  }

  lemma OperatorStepOwned(s: Server, a: Action, now: Moment)
    requires Owned(s) && Enabled(s, a, now) && OperatorAction(a)
    ensures Owned(Step(s, a, now)) && Guard(s, a)
  {
    hide Owned, KickTarget, BanTarget, MuteTarget, AnnounceIn, PromoteTarget, KickQueued, BanQueued, PossibleOrder, Enumerates,
         ValidName, TrimSpace, ClearHistory, Moderated;
    match a
    case OperatorKick(args, visit) =>
      if args in s.clients { KickOwned(s, args, "Server", now); }
      QueuedModerationOwned(s, args, visit, now);
    case OperatorBan(args, order) =>
      if args in s.clients { BanOwned(s, args, "Server", "", order, now); }
      QueuedModerationOwned(s, args, order.visit, now);
    case OperatorSetMute(args, on) => if args in s.clients { MutePromoteOwned(s, args, on, "Server", now); }
    case OperatorAnnounce(args, names) => AnnounceOwned(s, names, args, "Server", now);
    case OperatorPromote(args) => if args in s.clients { MutePromoteOwned(s, args, true, "Server", now); }
    case OperatorDemote(args) => if args in s.clients { MutePromoteOwned(s, args, false, "Server", now); }
    case Sever(id, drop) => SeverOwned(s, id, drop);
    case Midnight => ClearOwned(s);
    case BeginShutdown => AdminLinks(s, s.(shuttingDown := true)); SameLinksOwned(s, s.(shuttingDown := true));
  }

  lemma SeverOwned(s: Server, id: ConnId, drop: bool)
    requires Owned(s)
    ensures Owned(WithClient(s, id, SetReason(ClientOf(s, id), drop).(closed := true)))
  {
    hide Owned;
    ReasonOwned(s, id, SetReason(ClientOf(s, id), drop).(closed := true));
  }

  lemma SayOwned(s: Server, id: ConnId, line: string, now: Moment)
    requires Owned(s)
    ensures Owned(SayStep(s, id, line, now))
  {
    hide Owned, Publish, TrimSpace, ByteLen;
    PublishOwned(s, ClientOf(s, id).room, Note(now, Chat, ClientOf(s, id).username, line, ""), ClientOf(s, id).username);
  }

  ghost predicate Guarded(s: Server, run: Run)
    decreases |run|
  {
    run == [] || (Guard(s, run[0].0) && Guarded(Step(s, run[0].0, run[0].1), run[1..]))
  }

  /** Every state reached by a guarded run satisfies the invariant. */
  lemma {:induction false} RunOwned(s: Server, run: Run)
    requires Owned(s) && Possible(s, run) && Guarded(s, run)
    ensures Owned(After(s, run))
    decreases |run|
  {
    hide Owned, Enabled, Step, Guard;
    if run != [] {
      StepOwnedExactly(s, run[0].0, run[0].1);
      RunOwned(Step(s, run[0].0, run[0].1), run[1..]);
    }
  }

  lemma FreshOwned(admins: set<string>)
    ensures Owned(Fresh(admins))
  {
  }

  // ---------- a sufficient condition on whole runs ----------

  /** No pending connection has been kicked or banned. */
  ghost predicate Calm(s: Server) {
    forall id :: Pending(ClientOf(s, id).stage) ==> !Moderated(ClientOf(s, id))
  }

  predicate InRoom(s: Server, id: ConnId) { ClientOf(s, id).stage.Active? }

  /** Kicks and bans reach only connections that are in a room. */
  predicate HitsActive(s: Server, a: Action) {
    match a
    case Kick(_, args) => args in s.clients ==> InRoom(s, s.clients[args])
    case OperatorKick(args, _) => args in s.clients ==> InRoom(s, s.clients[args])
    case Ban(_, args, order) => args in s.clients ==> forall id <- Expelled(s, args, order) :: InRoom(s, id)
    case OperatorBan(args, order) => args in s.clients ==> forall id <- Expelled(s, args, order) :: InRoom(s, id)
    case _ => true
  }

  lemma CalmGuards(s: Server, a: Action, now: Moment)
    requires Owned(s) && Calm(s) && Enabled(s, a, now)
    ensures Guard(s, a)
  {
    hide Owned, PossibleOrder, Enumerates, ValidName, TrimSpace;
  }

  /** No pending connection becomes moderated. */
  ghost predicate StaysCalm(s: Server, t: Server) {
    forall id :: Pending(ClientOf(t, id).stage) && Moderated(ClientOf(t, id)) ==>
                 Pending(ClientOf(s, id).stage) && Moderated(ClientOf(s, id))
  }

  lemma LinksCalm(s: Server, t: Server)
    requires SameLinks(s, t)
    ensures StaysCalm(s, t)
  {
    assert forall id :: SameConn(ClientOf(t, id), ClientOf(s, id));
  }

  lemma CalmTrans(s: Server, t: Server, u: Server)
    requires StaysCalm(s, t) && StaysCalm(t, u)
    ensures StaysCalm(s, u)
  {
  }

  lemma OneConnCalm(s: Server, t: Server, id: ConnId)
    requires t.conns == s.conns[id := ClientOf(t, id)]
    requires Pending(ClientOf(t, id).stage) && Moderated(ClientOf(t, id)) ==>
             Pending(ClientOf(s, id).stage) && Moderated(ClientOf(s, id))
    ensures StaysCalm(s, t)
  {
    assert forall x :: x != id ==> ClientOf(t, x) == ClientOf(s, x);
  }

  lemma EnterRoomCalm(s: Server, id: ConnId, room: string, now: Moment)
    requires Owned(s) && Pending(ClientOf(s, id).stage) && ValidName(room)
    ensures StaysCalm(s, EnterRoom(s, id, room, now))
  {
    hide Owned, EnterRoom, Joined, ValidName, SameLinks, StaysCalm;
    PendingRoom(s, id);
    JoinedShape(s, id, room);
    OneConnCalm(s, Joined(s, id, room), id);
    EnterRoomLinks(s, id, room, now);
    LinksCalm(Joined(s, id, room), EnterRoom(s, id, room, now));
    CalmTrans(s, Joined(s, id, room), EnterRoom(s, id, room, now));
  }

  lemma FinishCalm(s: Server, id: ConnId)
    ensures StaysCalm(s, FinishPending(s, id))
    ensures StaysCalm(s, Finish(s, id))
  {
    hide StaysCalm;
    OneConnCalm(s, FinishPending(s, id), id);
    OneConnCalm(s, Finish(s, id), id);
  }

  lemma ExitQueueCalm(s: Server, id: ConnId, room: string, ticket: nat)
    ensures StaysCalm(s, FinishPending(RemoveFromQueue(s, room, ticket), id))
  {
    hide StaysCalm, SameLinks, FinishPending, RemoveFromQueue;
    var t := RemoveFromQueue(s, room, ticket);
    RemoveFromQueueLinks(s, room, ticket);
    LinksCalm(s, t);
    FinishCalm(t, id);
    CalmTrans(s, t, FinishPending(t, id));
  }

  lemma GiveUpCalm(s: Server, id: ConnId)
    requires ClientOf(s, id).stage.Naming? || Pending(ClientOf(s, id).stage)
    ensures StaysCalm(s, GiveUpStep(s, id))
  {
    hide StaysCalm, FinishPending, RemoveFromQueue;
    FinishCalm(s, id);
    match ClientOf(s, id).stage
    case Naming =>
    case Choosing =>
    case Asked(room, ticket) => ExitQueueCalm(s, id, room, ticket);
    case Waiting(room, ticket) => ExitQueueCalm(s, id, room, ticket);
  }

  lemma OnboardingCalm(s: Server, a: Action, now: Moment)
    requires Owned(s) && Enabled(s, a, now)
    requires a.Connect? || a.EnterName? || a.ChooseRoom? || a.Answer? || a.TakeSlot? || a.GiveUp?
    ensures StaysCalm(s, Step(s, a, now))
  {
    hide Owned, StaysCalm, EnterRoom, GiveUpStep, ValidName, TrimSpace, SubmitRoom, SubmitName, AcceptConnection;
    match a
    case Connect(id, host) => ConnectCalm(s, id, host, now);
    case EnterName(id, name) => OfConn(s, id); SubmitNameCalm(s, id, name);
    case ChooseRoom(id, line) => ChooseRoomCalm(s, id, line, now);
    case Answer(id, line) => GiveUpCalm(s, id); AnswerYesCalm(s, id);
    case TakeSlot(id) => OfConn(s, id); EnterRoomCalm(s, id, ClientOf(s, id).stage.room, now);
    case GiveUp(id) => GiveUpCalm(s, id);
  }

  lemma ConnectCalm(s: Server, id: ConnId, host: string, now: Moment)
    ensures StaysCalm(s, AcceptConnection(s, id, host, now))
  {
    hide StaysCalm;
    OneConnCalm(s, AcceptConnection(s, id, host, now), id);
  }

  lemma SubmitNameCalm(s: Server, id: ConnId, name: string)
    requires !Moderated(ClientOf(s, id))
    ensures StaysCalm(s, SubmitName(s, id, name))
  {
    hide ValidName, Reserved;
  }

  lemma AnswerYesCalm(s: Server, id: ConnId)
    requires ClientOf(s, id).stage.Asked?
    ensures var c := ClientOf(s, id); StaysCalm(s, WithClient(s, id, c.(stage := Waiting(c.stage.room, c.stage.ticket))))
    ensures StaysCalm(s, s)
  {
  }

  lemma ChooseRoomCalm(s: Server, id: ConnId, line: string, now: Moment)
    requires Owned(s) && ClientOf(s, id).stage.Choosing?
    ensures StaysCalm(s, SubmitRoom(s, id, line, now))
  {
    hide Owned, StaysCalm, EnterRoom, FinishPending, ValidName, TrimSpace, HasCapacity;
    var room := ChosenRoom(line);
    if !ValidName(room) {
      SameLinksSelf(s);
      LinksCalm(s, s);
    } else if s.shuttingDown {
      FinishCalm(s, id);
    } else if HasCapacity(s, room) {
      EnterRoomCalm(s, id, room, now);
    } else {
      OneConnCalm(s, SubmitRoom(s, id, line, now), id);
    }
  }

  lemma ExpelCalm(s: Server, name: string, issuer: string, order: BanOrder, now: Moment)
    requires Owned(s) && name in s.clients && InRoom(s, s.clients[name])
    ensures StaysCalm(s, KickTarget(s, name, issuer, now))
    ensures StaysCalm(s, BanFirst(s, name, issuer, now))
  {
    hide Owned, StaysCalm, SameLinks, Admit, Expel, ValidName, Reserved;
    var id := s.clients[name];
    var c := ClientOf(s, id);
    ExpelLinks(s, id, name, Kicked, issuer, now);
    var t := Expel(s, id, name, Kicked, issuer, now);
    OneConnCalm(s, t, id);
    var u := AddKickCooldown(t, c.host, now.clock);
    AdminLinks(t, u);
    AdmitLinks(u, c.room);
    SameLinksTrans(t, u, Admit(u, c.room));
    LinksCalm(t, Admit(u, c.room));
    CalmTrans(s, t, Admit(u, c.room));
    ExpelLinks(s, id, name, Banned, issuer, now);
    OneConnCalm(s, BanFirst(s, name, issuer, now), id);
  }

  lemma BanCalm(s: Server, name: string, issuer: string, exclude: string, order: BanOrder, now: Moment)
    requires Owned(s) && name in s.clients && PossibleOrder(s, name, issuer, exclude, order, now)
    requires forall id <- Expelled(s, name, order) :: InRoom(s, id)
    ensures StaysCalm(s, BanTarget(s, name, issuer, order, now))
  {
    hide Owned, BanFirst, ExpelAll, PurgeAndClose, AdmitRooms, SameLinks, PossibleOrder, ValidName, Reserved, BanEveryone;
    var first := BanFirst(s, name, issuer, now);
    assert s.clients[name] in Expelled(s, name, order);
    ExpelCalm(s, name, issuer, order, now);
    BanFirstOwned(s, name, issuer, now);
    BanEveryoneOwned(s, name, issuer, exclude, order, now);
    var t := BanEveryone(s, name, issuer, order, now);
    assert StaysCalm(first, t) by { ExpelAllCalm(s, name, issuer, order, now); }
    var u := PurgeAndClose(t, ClientOf(s, s.clients[name]).host, order.visit);
    PurgeAndCloseLinks(t, ClientOf(s, s.clients[name]).host, order.visit);
    AdmitRoomsLinks(u, order.reopened, Expelled(s, name, order));
    var v := AdmitRooms(u, order.reopened, Expelled(s, name, order));
    SameLinksTrans(t, u, v);
    LinksCalm(t, v);
    hide StaysCalm;
    CalmTrans(s, first, t);
    CalmTrans(s, t, v);
  }

  lemma ExpelAllCalm(s: Server, name: string, issuer: string, order: BanOrder, now: Moment)
    requires Owned(s) && name in s.clients && Owned(BanFirst(s, name, issuer, now)) && Distinct(order.collateral)
    requires var t := BanFirst(s, name, issuer, now); forall id <- order.collateral :: id in t.conns && Registered(t, id)
    requires forall id <- Expelled(s, name, order) :: InRoom(s, id)
    ensures StaysCalm(BanFirst(s, name, issuer, now), BanEveryone(s, name, issuer, order, now))
  {
    hide Owned, BanFirst, ExpelAll, ValidName, Reserved, Distinct;
    BanFirstOwned(s, name, issuer, now);
    var first := BanFirst(s, name, issuer, now);
    ExpelAllOwned(first, order.collateral, issuer, now);
    assert forall id <- order.collateral :: id in Expelled(s, name, order);
    assert forall id <- order.collateral :: ClientOf(first, id).stage == ClientOf(s, id).stage;
  }

  lemma SessionCalm(s: Server, a: Action, now: Moment)
    requires Owned(s) && Enabled(s, a, now) && HitsActive(s, a)
    requires a.Say? || a.Switch? || a.Create? || a.Rename? || a.Kick? || a.Ban? || a.SetMute? || a.Announce? || a.Leave?
    ensures StaysCalm(s, Step(s, a, now))
  {
    hide Owned, StaysCalm, SayStep, SwitchRoom, RenameStep, KickTarget, BanTarget, MuteTarget, AnnounceIn, Cleanup,
         PossibleOrder, Enumerates, HasCapacity, ValidName, TrimSpace, Expelled;
    SameLinksSelf(s);
    LinksCalm(s, s);
    match a
    case Say(id, line) => SayCalm(s, id, line, now);
    case Switch(id, args) => SwitchCalm(s, id, args, now);
    case Create(id, args) => SwitchCalm(s, id, args, now);
    case Rename(id, args) => RenameCalm(s, id, args, now);
    case Kick(id, args) => if args in s.clients { ExpelCalm(s, args, ClientOf(s, id).username, BanOrder([], [], []), now); }
    case Ban(id, args, order) =>
      if args in s.clients { BanCalm(s, args, ClientOf(s, id).username, ClientOf(s, id).username, order, now); }
    case SetMute(id, args, on) => if args in s.clients { FlagCalm(s, args, on, ClientOf(s, id).username, now); }
    case Announce(id, args, names) => AnnounceCalm(s, names, args, ClientOf(s, id).username, now);
    case Leave(id, drop) => LeaveCalm(s, id, drop, now);
  }

  lemma SayCalm(s: Server, id: ConnId, line: string, now: Moment)
    ensures StaysCalm(s, SayStep(s, id, line, now))
  {
    hide TrimSpace, ByteLen;
  }

  lemma SwitchConns(s: Server, id: ConnId, room: string, now: Moment)
    ensures SwitchRoom(s, id, room, now).conns == s.conns[id := ClientOf(s, id).(room := room)]
  {
    hide Publish, Admit, DeleteRoomIfEmpty;
    var c := ClientOf(s, id);
    var leave := Note(now, Kind.Leave, c.username, "", "switched");
    PublishShape(s, c.room, leave, c.username);
    var joined := JoinRoom(Publish(s, c.room, leave, c.username), id, room);
    assert Admit(joined, c.room).conns == joined.conns by { AdmitConns(joined, c.room); }
    assert DeleteRoomIfEmpty(Admit(joined, c.room), c.room).conns == joined.conns by { DeleteConns(Admit(joined, c.room), c.room); }
    var sent := SendHistory(DeleteRoomIfEmpty(Admit(joined, c.room), c.room), id, room);
    PublishShape(sent, room, Note(now, Kind.Join, c.username, "", ""), c.username);
  }

  lemma AdmitConns(s: Server, room: string)
    ensures Admit(s, room).conns == s.conns && Admit(s, room).clients == s.clients
  {
  }

  lemma DeleteConns(s: Server, room: string)
    ensures DeleteRoomIfEmpty(s, room).conns == s.conns && DeleteRoomIfEmpty(s, room).clients == s.clients
  {
  }

  lemma SwitchCalm(s: Server, id: ConnId, room: string, now: Moment)
    requires ClientOf(s, id).stage.Active?
    ensures StaysCalm(s, SwitchRoom(s, id, room, now))
  {
    hide SwitchRoom, StaysCalm;
    SwitchConns(s, id, room, now);
    OneConnCalm(s, SwitchRoom(s, id, room, now), id);
  }

  lemma RenameCalm(s: Server, id: ConnId, args: string, now: Moment)
    requires ClientOf(s, id).stage.Active?
    ensures StaysCalm(s, RenameStep(s, id, args, now))
  {
    hide StaysCalm, ValidName, Reserved, Publish;
    SameLinksSelf(s);
    LinksCalm(s, s);
    var c := ClientOf(s, id);
    var (t, ok) := RenameClient(s, id, c.username, args);
    if ok {
      var u := if c.admin then RenameAdmin(t, c.username, args) else t;
      PublishShape(u, c.room, Note(now, NameChange, args, "", c.username), "");
      OneConnCalm(s, Publish(u, c.room, Note(now, NameChange, args, "", c.username), ""), id);
    }
  }

  lemma FlagCalm(s: Server, name: string, on: bool, issuer: string, now: Moment)
    requires name in s.clients
    ensures StaysCalm(s, MuteTarget(s, name, on, issuer, now)) && StaysCalm(s, PromoteTarget(s, name, on, issuer, now))
  {
    hide Note;
  }

  lemma {:induction false} AnnounceCalm(s: Server, names: seq<string>, text: string, issuer: string, now: Moment)
    ensures AnnounceIn(s, names, text, issuer, now).conns == s.conns
    ensures StaysCalm(s, AnnounceIn(s, names, text, issuer, now))
  {
    hide Note;
    if names != [] {
      AnnounceCalm(s, names[..|names| - 1], text, issuer, now);
    }
  }

  lemma LeaveCalm(s: Server, id: ConnId, drop: bool, now: Moment)
    ensures StaysCalm(s, Step(s, Action.Leave(id, drop), now))
  {
    hide StaysCalm, Cleanup;
    var s' := WithClient(s, id, SetReason(ClientOf(s, id), drop));
    CleanupConns(s', id, now);
    OneConnCalm(s, Cleanup(s', id, now), id);
  }

  lemma CleanupConns(s: Server, id: ConnId, now: Moment)
    ensures Cleanup(s, id, now).conns == s.conns[id := ClientOf(s, id).(closed := true, stage := Finished)]
  {
    hide Publish, Admit, DeleteRoomIfEmpty;
    var c := ClientOf(s, id);
    var m := Note(now, Kind.Leave, c.username, "", if c.reason.Unset? then "voluntary" else "drop");
    var t := if Moderated(c) then s else Publish(RemoveClient(s, c.username), c.room, m, c.username);
    PublishShape(RemoveClient(s, c.username), c.room, m, c.username);
    assert t.conns == s.conns;
    AdmitConns(t, c.room);
    DeleteConns(Admit(t, c.room), c.room);
  }

  lemma OperatorCalm(s: Server, a: Action, now: Moment)
    requires Owned(s) && Enabled(s, a, now) && HitsActive(s, a) && OperatorAction(a)
    ensures StaysCalm(s, Step(s, a, now))
  {
    hide Owned, StaysCalm, KickTarget, BanTarget, MuteTarget, AnnounceIn, PromoteTarget, KickQueued, BanQueued,
         PossibleOrder, Enumerates, ClearHistory, Expelled;
    SameLinksSelf(s);
    LinksCalm(s, s);
    match a
    case OperatorKick(args, visit) =>
      if args in s.clients { ExpelCalm(s, args, "Server", BanOrder([], [], []), now); }
      QueuedModerationCalm(s, args, visit, now);
    case OperatorBan(args, order) =>
      if args in s.clients { BanCalm(s, args, "Server", "", order, now); }
      QueuedModerationCalm(s, args, order.visit, now);
    case OperatorSetMute(args, on) => if args in s.clients { FlagCalm(s, args, on, "Server", now); }
    case OperatorAnnounce(args, names) => AnnounceCalm(s, names, args, "Server", now);
    case OperatorPromote(args) => if args in s.clients { FlagCalm(s, args, true, "Server", now); }
    case OperatorDemote(args) => if args in s.clients { FlagCalm(s, args, false, "Server", now); }
    case Sever(id, drop) => OneConnCalm(s, Step(s, a, now), id);
    case Midnight => ClearLinks(s); LinksCalm(s, ClearHistory(s));
    case BeginShutdown => AdminLinks(s, s.(shuttingDown := true)); LinksCalm(s, s.(shuttingDown := true));
  }

  lemma ClearLinks(s: Server)
    ensures SameLinks(s, ClearHistory(s))
  {
    assert forall r :: Members(ClearHistory(s), r) == Members(s, r);
  }

  lemma QueuedModerationCalm(s: Server, host: string, visit: seq<string>, now: Moment)
    ensures StaysCalm(s, KickQueued(s, host, visit, now)) && StaysCalm(s, BanQueued(s, host, visit))
  {
    hide PurgeAndClose, Purge, SameLinks;
    SameLinksSelf(s);
    LinksCalm(s, s);
    PurgeAndCloseLinks(s, host, visit);
    LinksCalm(s, PurgeAndClose(s, host, visit));
  }

  ghost predicate AllHitActive(s: Server, run: Run)
    decreases |run|
  {
    run == [] || (HitsActive(s, run[0].0) && AllHitActive(Step(s, run[0].0, run[0].1), run[1..]))
  }

  /** Runs in which kicks and bans reach only connections that are in a room keep the invariant throughout. */
  lemma {:induction false} ActiveModerationKeepsOwned(s: Server, run: Run)
    requires Owned(s) && Calm(s) && Possible(s, run) && AllHitActive(s, run)
    ensures Owned(After(s, run)) && Calm(After(s, run))
    decreases |run|
  {
    hide Owned, Enabled, Step, HitsActive, Guard;
    if run != [] {
      var (a, now) := run[0];
      CalmGuards(s, a, now);
      StepOwnedExactly(s, a, now);
      assert StaysCalm(s, Step(s, a, now)) by {
        if OperatorAction(a) { OperatorCalm(s, a, now); }
        else if a.Connect? || a.EnterName? || a.ChooseRoom? || a.Answer? || a.TakeSlot? || a.GiveUp? { OnboardingCalm(s, a, now); }
        else { SessionCalm(s, a, now); }
      }
      ActiveModerationKeepsOwned(Step(s, a, now), run[1..]);
    }
  }

  // ---------- the guard is needed ----------

  /** A connection kicked while choosing its room keeps its name; when it leaves after the name has been taken again,
      the new owner, who was never moderated, is unregistered. */
  lemma StolenName(s: Server, a: ConnId, b: ConnId)
    requires Owned(s) && a != b
    requires ClientOf(s, a).stage.Choosing? && Moderated(ClientOf(s, a))
    requires ClientOf(s, a).username in s.clients && s.clients[ClientOf(s, a).username] == b
    ensures forall now :: Enabled(s, GiveUp(a), now)
    ensures var t := GiveUpStep(s, a);
            !Moderated(ClientOf(t, b)) && !ClientOf(t, b).stage.Finished? && !Registered(t, b) && !Owned(t)
  {
    hide Owned, ValidName, Reserved;
    OfKey(s, ClientOf(s, a).username);
    RemoveClientShape(s, ClientOf(s, a).username);
    FinishOwned(s, a);
  }

  // ---------- counting ----------

  function TotalMembers(s: Server, rooms: seq<string>): nat {
    if rooms == [] then 0 else TotalMembers(s, rooms[..|rooms| - 1]) + |Members(s, rooms[|rooms| - 1])|
  }

  function NamesIn(s: Server, rooms: seq<string>): set<string> {
    set name | name in s.clients && ClientOf(s, s.clients[name]).room in rooms
  }

  lemma {:induction false} CountIn(s: Server, rooms: seq<string>)
    requires Owned(s) && "" !in rooms
    requires forall i, j :: 0 <= i < j < |rooms| ==> rooms[i] != rooms[j]
    ensures |NamesIn(s, rooms)| == TotalMembers(s, rooms)
  {
    hide Owned, NamesIn;
    if rooms == [] {
      assert NamesIn(s, rooms) == {} by { NobodyNowhere(s); }
    } else {
      var init, room := rooms[..|rooms| - 1], rooms[|rooms| - 1];
      CountIn(s, init);
      assert rooms == init + [room];
      NamesInOneMore(s, init, room);
    }
  }

  lemma NobodyNowhere(s: Server)
    ensures NamesIn(s, []) == {}
  {
  }

  lemma NamesInOneMore(s: Server, init: seq<string>, room: string)
    requires Owned(s) && room != "" && room !in init
    ensures NamesIn(s, init + [room]) == NamesIn(s, init) + Members(s, room).Keys
    ensures NamesIn(s, init) !! Members(s, room).Keys
  {
    hide Owned;
    var here := Members(s, room).Keys;
    forall name ensures name in here <==> name in s.clients && ClientOf(s, s.clients[name]).room == room {
      if name in here { OfMember(s, room, name); }
      if name in s.clients { OfKey(s, name); }
    }
  }

  /** The registered clients that are in some room are as many as the rooms have members. */
  lemma RoomSizesAddUp(s: Server, rooms: seq<string>)
    requires Owned(s) && Enumerates(rooms, s.rooms.Keys - {""})
    ensures |set name | name in s.clients && ClientOf(s, s.clients[name]).room != ""| == TotalMembers(s, rooms)
  {
    hide Owned;
    CountIn(s, rooms);
    forall name | name in s.clients && ClientOf(s, s.clients[name]).room != ""
      ensures ClientOf(s, s.clients[name]).room in rooms
    {
      OfKey(s, name);
    }
    assert (set name | name in s.clients && ClientOf(s, s.clients[name]).room != "") == NamesIn(s, rooms);
  }
}
