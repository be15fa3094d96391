/** What the section lists of the threads look like in every reachable system state, and which fields a section touches. */
module Scripts {
  import opened Messages
  import opened ServerState
  import opened Commands
  import opened Sections
  import opened Admins
  import opened Grounds

  // ---------- well-formed section lists ----------

  /** Sections that act for the connection whose handler runs them. */
  predicate SelfWork(w: Work) {
    w.Check? || w.Line? || w.CheckSwitch? || w.CheckCreate? || w.Move? || w.Snapshot? || w.Rekey? || w.Quit?
  }

  predicate Shared(w: Work) {
    !SelfWork(w) && (w.Sweep? ==> forall p <- w.penalty :: p.Cool? || p.Forbid?) && (w.Jot? ==> !w.m.kind.Chat?)
  }

  predicate AllShared(ws: seq<Work>) { forall w <- ws :: Shared(w) }

  predicate NoMove(ws: seq<Work>) { forall w <- ws :: !w.Move? }

  /** The connection has joined a room and not yet been sent its history. */
  predicate Owes(ws: seq<Work>) {
    ws != [] && (ws[0].Snapshot? || (!ws[0].Move? && Owes(ws[1..])))
  }

  /** A list for the handler of a connection now in the given room: at most one join, followed by the history of the
      room joined; checks, renames and the end come last. */
  predicate Sound(ws: seq<Work>, id: ConnId, room: string) {
    if ws == [] then true
    else
      var w, rest := ws[0], ws[1..];
      if w.Move? then w.id == id && NoMove(rest) && Owes(rest) && Sound(rest, id, w.room)
      else if w.Snapshot? then w.id == id && w.room == room && AllShared(rest)
      else if SelfWork(w) then w.id == id && rest == []
      else Shared(w) && Sound(rest, id, room)
  }

  ghost predicate ScriptsOk(y: System) {
    && AllShared(WorkOf(y, Operator))
    && (forall id :: Sound(WorkOf(y, Handler(id)), id, ClientOf(y.server, id).room))
    && (forall id :: WorkOf(y, Handler(id)) != [] ==> id in y.server.conns)
  }

  lemma {:induction false} SharedPrefix(a: seq<Work>, b: seq<Work>, id: ConnId, room: string)
    requires AllShared(a) && Sound(b, id, room)
    ensures Sound(a + b, id, room) && Owes(a + b) == Owes(b)
  {
    if a == [] {
      assert a + b == b;
    } else {
      assert a[0] in a && forall w <- a[1..] :: w in a;
      SharedPrefix(a[1..], b, id, room);
      assert (a + b)[1..] == a[1..] + b;
    }
  }

  lemma {:induction false} SharedShuts(ids: seq<ConnId>)
    ensures AllShared(Shuts(ids))
  {
    if ids != [] { SharedShuts(ids[..|ids| - 1]); }
  }

  lemma {:induction false} SharedJots(rooms: seq<string>, m: Message)
    requires !m.kind.Chat?
    ensures AllShared(Jots(rooms, m))
  {
    if rooms != [] { SharedJots(rooms[..|rooms| - 1], m); }
  }

  lemma {:induction false} SharedSound(ws: seq<Work>, id: ConnId, room: string)
    requires AllShared(ws)
    ensures Sound(ws, id, room) && !Owes(ws)
  {
    assert ws + [] == ws;
    SharedPrefix(ws, [], id, room);
  }

  // ---------- what a section changes in the connections ----------

  lemma JoinConns(s: Server, id: ConnId, room: string)
    ensures JoinRoom(s, id, room).conns == s.conns[id := ClientOf(s, id).(room := room)]
  {
  }

  lemma RekeyConns(s: Server, id: ConnId, name: string)
    ensures var t := RenameClient(s, id, ClientOf(s, id).username, name).0;
            t.conns == if CanRekey(s, name) then s.conns[id := ClientOf(s, id).(username := name)] else s.conns
  {
  }

  lemma DequeueConns(s: Server, room: string, ticket: nat)
    ensures RemoveFromQueue(s, room, ticket).conns == s.conns
  {
  }

  lemma EnqueueConns(s: Server, id: ConnId, room: string)
    ensures Enqueue(s, id, room).conns == s.conns
  {
  }

  /** The connection a section may change. */
  predicate Touches(w: Work, id: ConnId) {
    match w
    case Line(i, _) => i == id
    case Move(i, _) => i == id
    case Rekey(i, _) => i == id
    case Mark(i, _) => i == id
    case Shut(i) => i == id
    case Collateral(ids, _, _, _) => ids != [] && ids[0] == id
    case Quit(i) => i == id
    case _ => false
  }

  function ConnsAfter(s: Server, w: Work): map<ConnId, Client> {
    match w
    case Line(id, room) => s.conns[id := ClientOf(s, id).(stage := Asked(room, |s.tickets|))]
    case Move(id, room) => s.conns[id := ClientOf(s, id).(room := room, stage := Active)]
    case Rekey(id, name) => if CanRekey(s, name) then s.conns[id := ClientOf(s, id).(username := name)] else s.conns
    case Mark(id, reason) => s.conns[id := ClientOf(s, id).(reason := reason)]
    case Shut(id) => s.conns[id := ClientOf(s, id).(closed := true)]
    case Collateral(ids, _, _, _) => if ids == [] then s.conns else s.conns[ids[0] := ClientOf(s, ids[0]).(reason := Banned)]
    case Quit(id) => s.conns[id := ClientOf(s, id).(closed := true, stage := Finished)]
    case _ => s.conns
  }

  /** A section changes at most one connection. */
  lemma EffectConns(s: Server, w: Work, choice: Choice)
    ensures Effect(s, w, choice).conns == ConnsAfter(s, w)
  {
    hide Effect, ConnsAfter;
    if w.Line? || w.Move? || w.Rekey? || w.Mark? || w.Shut? || w.Collateral? || w.Quit? {
      EffectOnConn(s, w, choice);
    } else {
      EffectElsewhere(s, w, choice);
      assert ConnsAfter(s, w) == s.conns by { NoConnAfter(s, w); }
    }
  }

  lemma NoConnAfter(s: Server, w: Work)
    requires !(w.Line? || w.Move? || w.Rekey? || w.Mark? || w.Shut? || w.Collateral? || w.Quit?)
    ensures ConnsAfter(s, w) == s.conns
  {
  }

  lemma EffectOnConn(s: Server, w: Work, choice: Choice)
    requires w.Line? || w.Move? || w.Rekey? || w.Mark? || w.Shut? || w.Collateral? || w.Quit?
    ensures Effect(s, w, choice).conns == ConnsAfter(s, w)
  {
    hide Enqueue, JoinRoom, RenameClient, CanRekey;
    if w.Line? { EnqueueConns(s, w.id, w.room); }
    else if w.Move? { JoinConns(s, w.id, w.room); }
    else if w.Rekey? { RekeyConns(s, w.id, w.name); }
  }

  lemma EffectElsewhere(s: Server, w: Work, choice: Choice)
    requires !(w.Line? || w.Move? || w.Rekey? || w.Mark? || w.Shut? || w.Collateral? || w.Quit?)
    ensures Effect(s, w, choice).conns == s.conns
  {
    hide Record, RemoveClient, Admit, DeleteRoomIfEmpty, RemoveFromQueue, Purge;
    if w.Post? || w.Jot? { PublishUntouched(s, w.room, w.m, ""); }
    if w.Unregister? { RemovedFields(s, w.name); }
    if w.Refill? { AdmitUntouched(s, w.room); }
    if w.RefillAny? { AdmitUntouched(s, choice.room); }
    if w.Tidy? { DeleteUntouched(s, w.room); }
    if w.Dequeue? { DequeueConns(s, w.room, w.ticket); }
    if w.Sweep? { PurgeUntouched(s, w.host, choice.visit); }
  }

  /** Rooms, names and stages of a connection change only by its own join, rename, enqueueing and end. */
  lemma EffectClient(s: Server, w: Work, choice: Choice, id: ConnId)
    ensures var c, d := ClientOf(s, id), ClientOf(Effect(s, w, choice), id);
            && (!Touches(w, id) ==> d == c)
            && d.room == (if w.Move? && w.id == id then w.room else c.room)
            && d.username == (if w.Rekey? && w.id == id && CanRekey(s, w.name) then w.name else c.username)
            && d.stage == (if w.Line? && w.id == id then Asked(w.room, |s.tickets|)
                           else if w.Move? && w.id == id then Active
                           else if w.Quit? && w.id == id then Finished else c.stage)
            && (id in s.conns ==> id in Effect(s, w, choice).conns)
  {
    hide Effect, CanRekey;
    EffectConns(s, w, choice);
  }

  /** Starting a command changes no room, and no name but that of the connection being registered. */
  lemma StartClient(y: System, a: Action, now: Moment, id: ConnId)
    requires CanStart(y, a)
    ensures var s := y.server;
            var c, d := ClientOf(s, id), ClientOf(StartEffect(s, a, now), id);
            && d.room == c.room
            && (!a.EnterName? ==> d.username == c.username)
            && (c.stage == d.stage || a.Connect? || a.EnterName? || (a.Answer? && a.id == id && c.stage.Asked? && d.stage == Waiting(c.stage.room, c.stage.ticket)))
            && (id in s.conns ==> id in StartEffect(s, a, now).conns)
            && (a.Connect? && a.id == id ==> id !in s.conns && (d.stage.Naming? || d.stage.Finished?))
            && (a.Connect? && a.id != id ==> d == c)
            && (a.EnterName? && a.id == id ==> d == c || d.stage.Choosing?)
            && (a.EnterName? && a.id != id ==> d == c)
  {
    hide SubmitName, AcceptConnection, AnswerStep, StartEffect;
    var s := y.server;
    if a.Connect? {
      Accepted(s, a.id, a.host, now);
      assert StartEffect(s, a, now) == AcceptConnection(s, a.id, a.host, now) by { OwnStart(s, a, now); }
    } else if a.EnterName? {
      NameEntered(s, a.id, a.name);
      assert StartEffect(s, a, now) == SubmitName(s, a.id, a.name) by { OwnStart(s, a, now); }
    } else {
      hide CanStart;
      OtherStart(s, a, now, id);
    }
  }

  lemma OwnStart(s: Server, a: Action, now: Moment)
    ensures a.Connect? ==> StartEffect(s, a, now) == AcceptConnection(s, a.id, a.host, now)
    ensures a.EnterName? ==> StartEffect(s, a, now) == SubmitName(s, a.id, a.name)
  {
  }

  /** Every connection keeps its room, name and stage. */
  ghost predicate SameFaces(s: Server, t: Server) {
    forall id :: var c, d := ClientOf(s, id), ClientOf(t, id);
      d.room == c.room && d.username == c.username && d.stage == c.stage && (id in s.conns ==> id in t.conns)
  }

  lemma OtherStart(s: Server, a: Action, now: Moment, id: ConnId)
    requires !a.Connect? && !a.EnterName?
    ensures var c, d := ClientOf(s, id), ClientOf(StartEffect(s, a, now), id);
            && d.room == c.room && d.username == c.username
            && (c.stage == d.stage || (a.Answer? && a.id == id && c.stage.Asked? && d.stage == Waiting(c.stage.room, c.stage.ticket)))
            && (id in s.conns ==> id in StartEffect(s, a, now).conns)
  {
    hide StartEffect;
    if a.Answer? { AnswerStart(s, a.id, a.line, now); } else { FlagStart(s, a, now); }
  }

  lemma NewFlags(s: Server, id: ConnId, c: Client)
    requires c.room == ClientOf(s, id).room && c.username == ClientOf(s, id).username && c.stage == ClientOf(s, id).stage
    ensures SameFaces(s, WithClient(s, id, c)) && forall admins :: SameFaces(s, WithClient(s, id, c).(admins := admins))
  {
  }

  lemma SameConnsFaces(s: Server, t: Server)
    requires t.conns == s.conns
    ensures SameFaces(s, t)
  {
  }

  lemma FlagStart(s: Server, a: Action, now: Moment)
    requires !a.Connect? && !a.EnterName? && !a.Answer?
    ensures SameFaces(s, StartEffect(s, a, now))
  {
    hide SubmitName, AcceptConnection, AnswerStep, ClearHistory, SameFaces, WithClient, ClientOf, IsAdmin;
    SameConnsFaces(s, s);
    match a
    case Leave(id, drop) => NewFlags(s, id, SetReason(ClientOf(s, id), drop));
    case SetMute(_, args, on) => if args in s.clients { NewFlags(s, s.clients[args], ClientOf(s, s.clients[args]).(muted := on)); }
    case OperatorSetMute(args, on) => if args in s.clients { NewFlags(s, s.clients[args], ClientOf(s, s.clients[args]).(muted := on)); }
    case OperatorPromote(args) => if args in s.clients { NewFlags(s, s.clients[args], ClientOf(s, s.clients[args]).(admin := true)); }
    case OperatorDemote(args) => if args in s.clients { NewFlags(s, s.clients[args], ClientOf(s, s.clients[args]).(admin := false)); }
    case Sever(id, drop) => NewFlags(s, id, SetReason(ClientOf(s, id), drop).(closed := true));
    case Midnight => ClearUntouched(s); SameConnsFaces(s, ClearHistory(s));
    case BeginShutdown => SameConnsFaces(s, s.(shuttingDown := true));
    case _ =>
  }

  lemma AnswerStart(s: Server, id: ConnId, line: string, now: Moment)
    ensures var c := ClientOf(s, id);
            var t := StartEffect(s, Answer(id, line), now);
            t == s || (c.stage.Asked? && t == WithClient(s, id, c.(stage := Waiting(c.stage.room, c.stage.ticket))))
  {
    hide Text.TrimSpace, GiveUpStep;
  }

  // ---------- the lists stay well formed ----------

  lemma FreshScripts(admins: set<string>)
    ensures ScriptsOk(FreshSystem(admins))
  {
  }

  lemma ConsShared(w: Work, rest: seq<Work>, id: ConnId, room: string)
    requires Shared(w) && Sound(rest, id, room)
    ensures Sound([w] + rest, id, room) && Owes([w] + rest) == Owes(rest) && (NoMove(rest) ==> NoMove([w] + rest))
  {
    SharedPrefix([w], rest, id, room);
  }

  lemma ConsSnapshot(rest: seq<Work>, id: ConnId, room: string)
    requires AllShared(rest)
    ensures Sound([Snapshot(id, room)] + rest, id, room) && Owes([Snapshot(id, room)] + rest) && NoMove([Snapshot(id, room)] + rest)
  {
    assert ([Snapshot(id, room)] + rest)[1..] == rest;
  }

  lemma ConsMove(rest: seq<Work>, id: ConnId, room: string, from: string)
    requires Sound(rest, id, room) && Owes(rest) && NoMove(rest)
    ensures Sound([Move(id, room)] + rest, id, from) && !Owes([Move(id, room)] + rest)
  {
    assert ([Move(id, room)] + rest)[1..] == rest;
  }

  lemma OnePost(room: string, m: Message, exclude: string)
    ensures AllShared([Post(room, m, exclude)])
  {
  }

  lemma EnteringSound(s: Server, id: ConnId, room: string, now: Moment)
    ensures Sound(Entering(s, id, room, now), id, ClientOf(s, id).room) && !Owes(Entering(s, id, room, now))
  {
    hide Sound, Owes, NoMove, Note, AllShared;
    var name := ClientOf(s, id).username;
    var post := [Post(room, Note(now, Kind.Join, name, "", ""), name)];
    OnePost(room, post[0].m, name);
    ConsSnapshot(post, id, room);
    ConsMove([Snapshot(id, room)] + post, id, room, ClientOf(s, id).room);
    assert [Move(id, room)] + ([Snapshot(id, room)] + post) == Entering(s, id, room, now);
  }

  lemma SwitchingSound(s: Server, id: ConnId, room: string, now: Moment)
    ensures Sound(Switching(s, id, room, now), id, ClientOf(s, id).room) && !Owes(Switching(s, id, room, now))
  {
    hide Sound, Owes, NoMove, Note, AllShared;
    var c := ClientOf(s, id);
    var post := [Post(room, Note(now, Kind.Join, c.username, "", ""), c.username)];
    OnePost(room, post[0].m, c.username);
    ConsSnapshot(post, id, room);
    var ws4 := [Snapshot(id, room)] + post;
    ConsShared(Tidy(c.room), ws4, id, room);
    var ws3 := [Tidy(c.room)] + ws4;
    ConsShared(Refill(c.room), ws3, id, room);
    var ws2 := [Refill(c.room)] + ws3;
    ConsMove(ws2, id, room, c.room);
    var ws1 := [Move(id, room)] + ws2;
    var leave := Post(c.room, Note(now, Kind.Leave, c.username, "", "switched"), c.username);
    ConsShared(leave, ws1, id, c.room);
    assert [leave] + ws1 == Switching(s, id, room, now);
  }

  lemma {:induction false} QuitLast(ws: seq<Work>, id: ConnId, room: string)
    requires AllShared(ws)
    ensures Sound(ws + [Quit(id)], id, room)
  {
    assert [Quit(id)][1..] == [];
    SharedPrefix(ws, [Quit(id)], id, room);
  }

  lemma GivingUpSound(s: Server, id: ConnId)
    ensures Sound(GivingUp(s, id), id, ClientOf(s, id).room)
  {
    var ws := GivingUp(s, id);
    var k := |ws| - 1;
    assert ws == ws[..k] + [Quit(id)];
    QuitLast(ws[..k], id, ClientOf(s, id).room);
  }

  lemma LeavingSound(c: Client, id: ConnId, now: Moment, room: string)
    ensures Sound(Leaving(c, id, now), id, room)
  {
    var ws := Leaving(c, id, now);
    var k := |ws| - 1;
    assert ws == ws[..k] + [Quit(id)];
    QuitLast(ws[..k], id, room);
  }

  /** Lists of shared sections only. */
  predicate StartsShared(a: Action) {
    a.Say? || a.Kick? || a.Ban? || a.SetMute? || a.Announce? || a.OperatorKick? || a.OperatorBan? || a.OperatorSetMute?
    || a.OperatorAnnounce? || a.OperatorPromote? || a.OperatorDemote? || a.Connect? || a.EnterName?
  }

  lemma NoneShared()
    ensures AllShared([])
  {
  }

  lemma SweepShared(host: string, penalty: Work)
    requires penalty.Cool? || penalty.Forbid?
    ensures AllShared([Sweep(host, [penalty])])
  {
  }

  lemma PostShared(room: string, m: Message, exclude: string)
    ensures AllShared([Post(room, m, exclude)])
  {
  }

  lemma KickingShared(s: Server, name: string, issuer: string, now: Moment)
    requires name in s.clients
    ensures AllShared(Kicking(s, name, issuer, now))
  {
  }

  lemma BanningShared(s: Server, name: string, issuer: string, exclude: string, now: Moment)
    requires name in s.clients
    ensures AllShared(Banning(s, name, issuer, exclude, now))
  {
  }

  lemma FlaggedShared(s: Server, args: string, same: bool, verb: string, issuer: string, now: Moment)
    requires args in s.clients
    ensures AllShared(Flagged(s, args, same, verb, issuer, now))
  {
  }

  lemma StartShared(s: Server, a: Action, now: Moment)
    requires StartsShared(a)
    ensures AllShared(StartWork(s, a, now))
  {
    hide Text.TrimSpace, Messages.ValidName, AllShared, Kicking, Banning, Flagged, Text.ByteLen, ClientOf, Jots, Shared;
    NoneShared();
    match a
    case Kick(id, args) => if args in s.clients { KickingShared(s, args, ClientOf(s, id).username, now); }
    case Ban(id, args, _) => if args in s.clients { BanningShared(s, args, ClientOf(s, id).username, ClientOf(s, id).username, now); }
    case OperatorKick(args, _) =>
      if args in s.clients { KickingShared(s, args, "Server", now); } else { SweepShared(args, Cool(args, now.clock)); }
    case OperatorBan(args, _) =>
      if args in s.clients { BanningShared(s, args, "Server", "", now); } else { SweepShared(args, Forbid(args)); }
    case Say(id, line) =>
      var c := ClientOf(s, id);
      PostShared(c.room, Note(now, Chat, c.username, line, ""), c.username);
    case SetMute(id, args, on) =>
      if args in s.clients {
        FlaggedShared(s, args, ClientOf(s, s.clients[args]).muted == on, if on then "muted" else "unmuted", ClientOf(s, id).username, now);
      }
    case OperatorSetMute(args, on) =>
      if args in s.clients { FlaggedShared(s, args, ClientOf(s, s.clients[args]).muted == on, if on then "muted" else "unmuted", "Server", now); }
    case OperatorPromote(args) => if args in s.clients { FlaggedShared(s, args, ClientOf(s, s.clients[args]).admin, "promoted", "Server", now); }
    case OperatorDemote(args) => if args in s.clients { FlaggedShared(s, args, !ClientOf(s, s.clients[args]).admin, "demoted", "Server", now); }
    case Announce(id, args, names) => SharedJots(names, Note(now, Announcement, "", args, ClientOf(s, id).username));
    case OperatorAnnounce(args, names) => SharedJots(names, Note(now, Announcement, "", args, "Server"));
    case _ =>
  }

  lemma StartSound(y: System, a: Action, now: Moment)
    requires CanStart(y, a) && ThreadOf(a).Handler?
    ensures var id := ThreadOf(a).id;
            Sound(StartWork(y.server, a, now), id, ClientOf(y.server, id).room)
  {
    hide Text.TrimSpace, Messages.ValidName, Sound, Owes, GivingUp, Leaving, Entering;
    var s, id := y.server, ThreadOf(a).id;
    var room := ClientOf(s, id).room;
    SharedSound([], id, room);
    forall w | SelfWork(w) && !w.Move? && !w.Snapshot? && w.id == id ensures Sound([w], id, room) { LastSound(w, id, room); }
    if StartsShared(a) {
      StartShared(s, a, now);
      SharedSound(StartWork(s, a, now), id, room);
    } else {
      match a
      case ChooseRoom(_, line) => GivingUpSound(s, id);
      case Answer(_, line) => GivingUpSound(s, id);
      case TakeSlot(_) => EnteringSound(s, id, ClientOf(s, id).stage.room, now);
      case GiveUp(_) => GivingUpSound(s, id);
      case Switch(_, args) =>
      case Create(_, args) =>
      case Rename(_, args) =>
      case Leave(_, drop) => LeavingSound(SetReason(ClientOf(s, id), drop), id, now, room);
    }
  }

  lemma LastSound(w: Work, id: ConnId, room: string)
    requires SelfWork(w) && !w.Move? && !w.Snapshot? && w.id == id
    ensures Sound([w], id, room)
  {
    assert [w][1..] == [];
  }

  lemma StartScripts(y: System, a: Action, now: Moment)
    requires ScriptsOk(y) && CanStart(y, a)
    ensures ScriptsOk(Started(y, a, now))
  {
    hide StartEffect, StartWork, Sound, AllShared, CanStart;
    var z, th := Started(y, a, now), ThreadOf(a);
    forall id ensures Sound(WorkOf(z, Handler(id)), id, ClientOf(z.server, id).room)
                      && (WorkOf(z, Handler(id)) != [] ==> id in z.server.conns)
    {
      StartClient(y, a, now, id);
      if !Ambient(a) && th == Handler(id) {
        StartSound(y, a, now);
        StartedConn(y, a, now, id);
      }
    }
    if !Ambient(a) && th == Operator { OperatorStart(y.server, a, now); }
  }

  lemma OperatorStart(s: Server, a: Action, now: Moment)
    requires !Ambient(a) && ThreadOf(a) == Operator
    ensures AllShared(StartWork(s, a, now))
  {
    StartShared(s, a, now);
  }

  /** Whoever runs a command is a known connection, or has nothing to do. */
  lemma StartedConn(y: System, a: Action, now: Moment, id: ConnId)
    requires CanStart(y, a) && ThreadOf(a) == Handler(id)
    ensures id in y.server.conns || StartWork(y.server, a, now) == []
  {
    hide Text.TrimSpace, Messages.ValidName, StartWork;
    if a.Connect? { assert StartWork(y.server, a, now) == [] by { ConnectWork(y.server, a, now); } }
  }

  lemma ConnectWork(s: Server, a: Action, now: Moment)
    requires a.Connect?
    ensures StartWork(s, a, now) == []
  {
  }

  lemma NextShared(s: Server, w: Work, choice: Choice, now: Moment)
    requires Shared(w)
    ensures AllShared(Next(s, w, choice, now))
  {
    match w
    case Sweep(host, penalty) => SharedShuts(Purge(s, host, choice.visit).1);
    case _ =>
  }

  /** The list after its first section has run is well formed for the connection's new room. */
  lemma NextSound(s: Server, ws: seq<Work>, id: ConnId, choice: Choice, now: Moment)
    requires ws != [] && Sound(ws, id, ClientOf(s, id).room)
    ensures Sound(Next(s, ws[0], choice, now) + ws[1..], id, ClientOf(Effect(s, ws[0], choice), id).room)
  {
    hide Effect, Next, AllShared, Owes, HasCapacity;
    var w, rest := ws[0], ws[1..];
    EffectClient(s, w, choice, id);
    if Shared(w) {
      NextShared(s, w, choice, now);
      SharedPrefix(Next(s, w, choice, now), rest, id, ClientOf(s, id).room);
    } else if w.Snapshot? {
      NothingNext(s, w, choice, now);
      assert [] + rest == rest;
      SharedSound(rest, id, ClientOf(s, id).room);
    } else if w.Move? || w.Quit? {
      assert Next(s, w, choice, now) == [] by { NothingNext(s, w, choice, now); }
      assert [] + rest == rest;
    } else {
      assert Next(s, w, choice, now) + [] == Next(s, w, choice, now);
      LastNext(s, w, choice, now, id);
    }
  }

  lemma NothingNext(s: Server, w: Work, choice: Choice, now: Moment)
    requires w.Move? || w.Snapshot? || w.Quit? || w.Line?
    ensures Next(s, w, choice, now) == []
  {
  }

  lemma LastNext(s: Server, w: Work, choice: Choice, now: Moment, id: ConnId)
    requires (w.Check? || w.Line? || w.CheckSwitch? || w.CheckCreate? || w.Rekey?) && w.id == id
    ensures Sound(Next(s, w, choice, now), id, ClientOf(s, id).room)
  {
    hide Entering, Switching, HasCapacity, Sound;
    var room := ClientOf(s, id).room;
    SharedSound([], id, room);
    match w
    case Check(_, r) => EnteringSound(s, id, r, now); LastSound(Line(id, r), id, room);
    case CheckSwitch(_, r) => SwitchingSound(s, id, r, now);
    case CheckCreate(_, r) => SwitchingSound(s, id, r, now);
    case Rekey(_, name) => SharedSound(Next(s, w, choice, now), id, room);
    case Line(_, _) =>
  }

  lemma ContinueScripts(y: System, th: Thread, choice: Choice, now: Moment)
    requires ScriptsOk(y) && WorkOf(y, th) != []
    ensures ScriptsOk(Continued(y, th, choice, now))
  {
    hide Effect, Next, Sound, Booked, NewlyOwn, NewlyMissed, NewlyAbsent;
    var z := Continued(y, th, choice, now);
    var ws := WorkOf(y, th);
    forall id ensures Sound(WorkOf(z, Handler(id)), id, ClientOf(z.server, id).room)
                      && (WorkOf(z, Handler(id)) != [] ==> id in z.server.conns)
    {
      EffectClient(y.server, ws[0], choice, id);
      if th == Handler(id) {
        NextSound(y.server, ws, id, choice, now);
      } else {
        ForeignMove(y, th, id);
      }
    }
    if th == Operator {
      assert ws[0] in ws && forall w <- ws[1..] :: w in ws;
      NextShared(y.server, ws[0], choice, now);
    }
  }

  /** No thread runs another connection's own sections. */
  lemma ForeignMove(y: System, th: Thread, id: ConnId)
    requires ScriptsOk(y) && WorkOf(y, th) != [] && th != Handler(id)
    ensures SelfWork(WorkOf(y, th)[0]) ==> WorkOf(y, th)[0].id != id
  {
    if th == Operator {
      assert WorkOf(y, th)[0] in WorkOf(y, th);
    } else {
      assert Sound(WorkOf(y, th), th.id, ClientOf(y.server, th.id).room);
    }
  }

  lemma TickScripts(y: System, tick: Tick)
    requires ScriptsOk(y) && Can(y, tick)
    ensures ScriptsOk(TickOf(y, tick))
  {
    hide ScriptsOk, Started, Continued, CanStart, Legal;
    match tick
    case Begin(a, now) => StartScripts(y, a, now);
    case Continue(th, choice, now) => ContinueScripts(y, th, choice, now);
  }
}
