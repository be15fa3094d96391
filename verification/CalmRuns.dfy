/** Interleavings without kicks and bans: names stay owned, every admission answers a departure, and every chat arrives
    (server/clients.go, room.go, handler.go, commands.go). */
module CalmRuns {
  import opened Messages
  import opened ServerState
  import opened Commands
  import opened Ownership
  import opened Indexes
  import opened Bans
  import opened Sections
  import opened Grounds
  import opened Scripts
  import opened Capacity
  import opened Delivery

  // ---------- section lists of a run without moderation ----------

  predicate CalmWork(w: Work) {
    && !w.Mark? && !w.Shut? && !w.Cool? && !w.Forbid? && !w.Gather? && !w.Collateral? && !w.Sweep? && !w.RefillAny?
    && (w.Check? || w.Line? || w.CheckSwitch? || w.CheckCreate? || w.Move? ==> w.room != "")
  }

  /** One departure, then its one admission. */
  predicate Before(a: Work, b: Work) {
    !(a.Refill? && (b.Refill? || b.Move? || b.Unregister?)) && !(a.Unregister? && b.Unregister?)
  }

  predicate Ordered(ws: seq<Work>) { ws == [] || ((forall v <- ws[1..] :: Before(ws[0], v)) && Ordered(ws[1..])) }

  predicate ExitWork(w: Work) { w.Dequeue? || w.Unregister? || w.Post? || w.Tell? || w.Refill? || w.Tidy? || w.Quit? }

  predicate Chatty(w: Work) { (w.Post? && w.m.kind.Chat?) || (w.Tell? && w.e.msg.kind.Chat?) }

  predicate Departs(w: Work) { w.Move? || w.Unregister? }

  predicate Departing(ws: seq<Work>) { exists w <- ws :: Departs(w) }

  predicate InRoomWork(w: Work) { w.CheckSwitch? || w.CheckCreate? || w.Rekey? || Chatty(w) }

  predicate KnownWork(w: Work) { w.Check? || w.Line? || w.Move? || w.Unregister? || InRoomWork(w) }

  /** A section suits its connection, in a list that exits or not, still departs or not, and may hold nothing else. */
  predicate Fits(w: Work, exits: bool, departing: bool, alone: bool, c: Client) {
    && CalmWork(w)
    && (exits ==> ExitWork(w) && !Chatty(w))
    && (w.Unregister? ==> w.name == c.username && exits)
    && (w.Refill? && departing ==> w.room == c.room && c.stage.Active?)
    && (Chatty(w) ==> alone && w.exclude == c.username && w.room == c.room)
    && (KnownWork(w) ==> Pending(c.stage) || c.stage.Active?)
    && (InRoomWork(w) ==> c.stage.Active?)
    && (w.Check? || w.Line? ==> Pending(c.stage))
  }

  predicate Orderly(ws: seq<Work>, id: ConnId, c: Client) {
    Ordered(ws) && forall w <- ws :: Fits(w, Quit(id) in ws, Departing(ws), |ws| == 1, c)
  }

  predicate Placed(c: Client) {
    && !Moderated(c)
    && (c.stage.Asked? || c.stage.Waiting? ==> c.stage.room != "")
    && (Pending(c.stage) || c.stage.Naming? ==> c.room == "")
    && (c.stage.Active? ==> c.room != "")
  }

  /** Registered, and not yet taken out by its own exit. */
  predicate Enrolled(y: System, id: ConnId) {
    var c, ws := ClientOf(y.server, id), WorkOf(y, Handler(id));
    (Pending(c.stage) || c.stage.Active?) && (Quit(id) in ws ==> Unregister(c.username) in ws)
  }

  predicate Rooted(s: Server, id: ConnId) {
    Registered(s, id) && (ClientOf(s, id).stage.Active? ==> InPlace(s, id))
  }

  predicate KeyEnrolled(y: System, name: string)
    requires name in y.server.clients
  {
    ClientOf(y.server, y.server.clients[name]).username == name && Enrolled(y, y.server.clients[name])
  }

  predicate MemberRooted(s: Server, room: string, name: string)
    requires name in Members(s, room)
  {
    room != "" && name in s.clients && s.clients[name] == Members(s, room)[name] && ClientOf(s, s.clients[name]).room == room
  }

  /** The departure has happened and its admission is still to come. */
  predicate OwingAt(ws: seq<Work>, room: string) { Refill(room) in ws && !Departing(ws) }

  ghost function Owing(y: System, room: string): set<ConnId> {
    set id | id in y.server.conns && OwingAt(WorkOf(y, Handler(id)), room)
  }

  ghost predicate ChatsMissed(y: System) { exists p <- y.missed :: p.1.msg.kind.Chat? }

  /** Whoever was out of its room's index at a chat's broadcast is on its way out. */
  ghost predicate AbsentGone(y: System) {
    forall p <- y.absent :: p.1.msg.kind.Chat? ==> !Enrolled(y, p.0) && ClientOf(y.server, p.0).room != ""
  }

  ghost predicate NamesOwned(y: System) {
    && (forall id :: Enrolled(y, id) ==> Rooted(y.server, id))
    && (forall name :: name in y.server.clients ==> KeyEnrolled(y, name))
    && (forall room, name :: name in Members(y.server, room) ==> MemberRooted(y.server, room, name))
  }

  ghost predicate ListsOrderly(y: System) {
    && ScriptsOk(y)
    && (forall w <- WorkOf(y, Operator) :: w.Jot?)
    && (forall id :: Orderly(WorkOf(y, Handler(id)), id, ClientOf(y.server, id)))
    && (forall id :: Placed(ClientOf(y.server, id)))
  }

  ghost predicate BooksCalm(y: System) {
    && (forall room :: |Owing(y, room)| <= Count(y.ledger.owed, room))
    && y.ledger.extra == multiset{} && !ChatsMissed(y) && AbsentGone(y)
  }

  ghost predicate CalmOk(y: System) { ListsOrderly(y) && NamesOwned(y) && BooksCalm(y) }

  /** A tick that begins no kick or ban. */
  predicate CalmTick(tick: Tick) {
    tick.Begin? ==> !tick.a.Kick? && !tick.a.Ban? && !tick.a.OperatorKick? && !tick.a.OperatorBan?
  }

  // ---------- frames ----------

  lemma EffectRegistrations(s: Server, w: Work, choice: Choice)
    requires !w.Unregister? && !w.Rekey?
    ensures Effect(s, w, choice).clients == s.clients
  {
    hide Renumber, ClosedAhead, Purge;
    if w.Sweep? { Admins.PurgeUntouched(s, w.host, choice.visit); }
  }

  lemma EffectPlaced(s: Server, w: Work, choice: Choice, id: ConnId)
    requires CalmWork(w) && Placed(ClientOf(s, id)) && (w.Line? && w.id == id ==> Pending(ClientOf(s, id).stage))
    ensures Placed(ClientOf(Effect(s, w, choice), id))
    ensures (SelfWork(w) ==> w.id != id) ==> ClientOf(Effect(s, w, choice), id) == ClientOf(s, id)
  {
    hide Effect, CanRekey;
    EffectConns(s, w, choice);
  }

  /** Fields of the acting connection after one of its own sections. */
  lemma EffectSelf(s: Server, w: Work, choice: Choice, id: ConnId)
    requires CalmWork(w)
    ensures var c, d := ClientOf(s, id), ClientOf(Effect(s, w, choice), id);
            && (!w.Line? && !w.Move? && !w.Rekey? && !w.Quit? ==> d == c)
  {
    hide Effect, CanRekey;
    EffectConns(s, w, choice);
  }

  // ---------- lists ----------

  lemma DepartingTail(ws: seq<Work>)
    requires ws != []
    ensures Departing(ws) <==> Departs(ws[0]) || Departing(ws[1..])
  {
    assert ws[0] in ws && forall v <- ws[1..] :: v in ws;
    assert forall v <- ws :: v == ws[0] || v in ws[1..];
  }

  lemma OrderlyTail(ws: seq<Work>, id: ConnId, c: Client)
    requires ws != [] && Orderly(ws, id, c) && ws[0] != Quit(id)
    ensures Orderly(ws[1..], id, c)
  {
    hide CalmWork, Departing;
    DepartingTail(ws);
    var rest := ws[1..];
    assert forall v <- rest :: v in ws;
    assert forall v <- ws :: v == ws[0] || v in rest;
    forall v | v in rest ensures Fits(v, Quit(id) in rest, Departing(rest), |rest| == 1, c) {
      assert Fits(v, Quit(id) in ws, Departing(ws), |ws| == 1, c);
    }
  }

  /** After the join nothing departs any more, so the connection may already be in its new room. */
  lemma OrderlyJoined(ws: seq<Work>, id: ConnId, c: Client, d: Client)
    requires Orderly(ws, id, c) && NoMove(ws) && Quit(id) !in ws && d.stage.Active? && d.username == c.username
    requires forall w <- ws :: !w.Check? && !w.Line? && !Chatty(w)
    ensures Orderly(ws, id, d)
  {
    hide CalmWork;
    forall v | v in ws ensures Fits(v, Quit(id) in ws, Departing(ws), |ws| == 1, d) {
      assert Fits(v, Quit(id) in ws, Departing(ws), |ws| == 1, c);
    }
  }

  /** What is left after the first section is still orderly for the connection as it is then. */
  lemma OrderlyRest(s: Server, ws: seq<Work>, choice: Choice, id: ConnId)
    requires ws != [] && Orderly(ws, id, ClientOf(s, id)) && Sound(ws, id, ClientOf(s, id).room)
    ensures Orderly(ws[1..], id, ClientOf(Effect(s, ws[0], choice), id))
  {
    hide Effect, CalmWork, CanRekey, Ordered;
    var w, rest, c := ws[0], ws[1..], ClientOf(s, id);
    var d := ClientOf(Effect(s, w, choice), id);
    HeadFits(ws, id, c);
    HeadSound(ws, id, c.room);
    EffectClient(s, w, choice, id);
    EffectSelf(s, w, choice, id);
    if rest == [] {
      NoneOrderly(id, d);
    } else {
      OrderlyTail(ws, id, c);
      if w.Move? {
        assert Quit(id) !in ws;
        NoChatsBehind(ws, id, c);
        AfterMove(rest, id, c, d);
      }
    }
  }

  lemma NoChatsBehind(ws: seq<Work>, id: ConnId, c: Client)
    requires |ws| > 1 && Orderly(ws, id, c)
    ensures forall v <- ws[1..] :: !Chatty(v)
  {
    hide CalmWork, Departing, Ordered;
    assert forall v <- ws[1..] :: v in ws;
    forall v | v in ws[1..] ensures !Chatty(v) {
      assert Fits(v, Quit(id) in ws, Departing(ws), |ws| == 1, c);
    }
  }

  lemma AfterMove(rest: seq<Work>, id: ConnId, c: Client, d: Client)
    requires Orderly(rest, id, c) && NoMove(rest) && Sound(rest, id, d.room) && Quit(id) !in rest && d.stage.Active? && d.username == c.username
    requires Owes(rest) && forall v <- rest :: !Chatty(v)
    ensures Orderly(rest, id, d)
  {
    NoChecksOwed(rest, id, d.room);
    OrderlyJoined(rest, id, c, d);
  }

  /** While a history is owed, no check follows. */
  lemma {:induction false} NoChecksOwed(ws: seq<Work>, id: ConnId, room: string)
    requires Sound(ws, id, room) && Owes(ws) && NoMove(ws)
    ensures forall w <- ws :: !w.Check? && !w.Line?
  {
    var rest := ws[1..];
    assert ws[0] in ws && forall v <- rest :: v in ws;
    assert forall v <- ws :: v == ws[0] || v in rest;
    if !ws[0].Snapshot? { NoChecksOwed(rest, id, room); }
  }

  lemma OneFits(w: Work, id: ConnId, c: Client)
    requires Fits(w, w == Quit(id), Departs(w), true, c)
    ensures Orderly([w], id, c)
  {
    assert [w][1..] == [];
    DepartingTail([w]);
  }

  lemma NoneOrderly(id: ConnId, c: Client)
    ensures Orderly([], id, c)
  {
  }

  lemma ToldOrderly(s: Server, ws: seq<Work>, id: ConnId, c: Client)
    requires ws != [] && ws[0].Post? && Orderly(ws, id, c)
    ensures Orderly([Tell(ws[0].room, EventOf(s, ws[0].room, ws[0].m), ws[0].exclude)] + ws[1..], id, c)
  {
    hide Departing, CalmWork, Ordered;
    var tell := Tell(ws[0].room, EventOf(s, ws[0].room, ws[0].m), ws[0].exclude);
    var rest := ws[1..];
    var ws' := [tell] + rest;
    assert ws'[1..] == rest;
    DepartingTail(ws);
    DepartingTail(ws');
    HeadFits(ws, id, c);
    assert forall v <- rest :: v in ws;
    assert Quit(id) in ws' <==> Quit(id) in ws;
    forall v | v in ws' ensures Fits(v, Quit(id) in ws', Departing(ws'), |ws'| == 1, c) {
      if v in rest { assert Fits(v, Quit(id) in ws, Departing(ws), |ws| == 1, c); } else { TellFits(ws[0], s, Quit(id) in ws, Departing(ws), |ws| == 1, c); }
    }
    TellOrdered(ws, tell);
  }

  lemma TellFits(w: Work, s: Server, exits: bool, departing: bool, alone: bool, c: Client)
    requires w.Post? && Fits(w, exits, departing, alone, c)
    ensures Fits(Tell(w.room, EventOf(s, w.room, w.m), w.exclude), exits, departing, alone, c)
  {
  }

  lemma TellOrdered(ws: seq<Work>, tell: Work)
    requires ws != [] && ws[0].Post? && tell.Tell? && Ordered(ws)
    ensures Ordered([tell] + ws[1..])
  {
    assert ([tell] + ws[1..])[1..] == ws[1..];
  }

  lemma {:induction false} OrderedIf(ws: seq<Work>)
    requires forall i, j :: 0 <= i < j < |ws| ==> Before(ws[i], ws[j])
    ensures Ordered(ws)
  {
    hide Before;
    if ws != [] {
      forall v | v in ws[1..] ensures Before(ws[0], v) {
        var j :| 0 <= j < |ws[1..]| && ws[1..][j] == v;
        assert ws[j + 1] == v;
      }
      OrderedIf(ws[1..]);
    }
  }

  lemma EnteringOrderly(s: Server, id: ConnId, room: string, now: Moment)
    requires room != "" && (Pending(ClientOf(s, id).stage) || ClientOf(s, id).stage.Active?)
    ensures Orderly(Entering(s, id, room, now), id, ClientOf(s, id))
  {
    OrderedIf(Entering(s, id, room, now));
    hide Ordered;
  }

  lemma OrderlyIf(ws: seq<Work>, exits: bool, departing: bool, id: ConnId, c: Client)
    requires |ws| > 1 && (exits <==> Quit(id) in ws) && (departing <==> Departing(ws))
    requires forall i :: 0 <= i < |ws| ==> Fits(ws[i], exits, departing, false, c)
    requires forall i, j :: 0 <= i < j < |ws| ==> Before(ws[i], ws[j])
    ensures Orderly(ws, id, c)
  {
    hide Fits, Ordered, Before;
    OrderedIf(ws);
  }

  lemma SwitchingOrderly(s: Server, id: ConnId, room: string, now: Moment)
    requires room != "" && ClientOf(s, id).stage.Active?
    ensures Orderly(Switching(s, id, room, now), id, ClientOf(s, id))
  {
    hide Orderly;
    var c := ClientOf(s, id);
    SwitchList(Switching(s, id, room, now), room, id, c);
  }

  lemma SwitchList(ws: seq<Work>, room: string, id: ConnId, c: Client)
    requires room != "" && c.stage.Active? && |ws| == 6
    requires ws[0].Post? && !ws[0].m.kind.Chat? && ws[1] == Move(id, room) && ws[2] == Refill(c.room) && ws[3].Tidy?
    requires ws[4].Snapshot? && ws[5].Post? && !ws[5].m.kind.Chat?
    ensures Orderly(ws, id, c)
  {
    hide Orderly, Ordered;
    assert Departs(ws[1]) && Departing(ws);
    OrderlyIf(ws, false, true, id, c);
  }

  lemma LeavingOrderly(c: Client, id: ConnId, now: Moment)
    requires !Moderated(c) && c.stage.Active?
    ensures Orderly(Leaving(c, id, now), id, c)
    ensures Unregister(c.username) in Leaving(c, id, now)
  {
    hide Orderly;
    var ws := Leaving(c, id, now);
    assert ws[0] == Unregister(c.username);
    LeaveList(ws, id, c);
  }

  lemma LeaveList(ws: seq<Work>, id: ConnId, c: Client)
    requires c.stage.Active? && |ws| == 5
    requires ws[0] == Unregister(c.username) && ws[1].Post? && !ws[1].m.kind.Chat? && ws[2] == Refill(c.room) && ws[3].Tidy? && ws[4] == Quit(id)
    ensures Orderly(ws, id, c)
  {
    hide Orderly, Ordered;
    assert Departs(ws[0]) && Departing(ws);
    assert ws[4] == Quit(id);
    OrderlyIf(ws, true, true, id, c);
  }

  lemma GivingUpOrderly(s: Server, id: ConnId)
    requires ClientOf(s, id).stage.Naming? || Pending(ClientOf(s, id).stage)
    ensures Orderly(GivingUp(s, id), id, ClientOf(s, id))
    ensures Pending(ClientOf(s, id).stage) ==> Unregister(ClientOf(s, id).username) in GivingUp(s, id)
  {
    var c := ClientOf(s, id);
    OrderedIf(GivingUp(s, id));
    hide Ordered;
    if c.stage.Asked? || c.stage.Waiting? { assert GivingUp(s, id)[1] == Unregister(c.username); }
    else if c.stage.Choosing? { assert GivingUp(s, id)[0] == Unregister(c.username); }
  }

  /** The list after its first section is orderly for the connection as the section left it. */
  lemma OrderlyNext(s: Server, ws: seq<Work>, choice: Choice, now: Moment, id: ConnId)
    requires ws != [] && Orderly(ws, id, ClientOf(s, id)) && Sound(ws, id, ClientOf(s, id).room)
    ensures Orderly(Next(s, ws[0], choice, now) + ws[1..], id, ClientOf(Effect(s, ws[0], choice), id))
  {
    hide Effect, Orderly, Sound, Entering, Switching, HasCapacity, CanRekey;
    var w, rest := ws[0], ws[1..];
    HeadFits(ws, id, ClientOf(s, id));
    HeadSound(ws, id, ClientOf(s, id).room);
    EffectSelf(s, w, choice, id);
    if w.Post? {
      ToldOrderly(s, ws, id, ClientOf(s, id));
    } else if w.Check? {
      EffectIdle(s, w, choice);
      assert Next(s, w, choice, now) + [] == Next(s, w, choice, now);
      EnteringOrderly(s, id, w.room, now);
      OneFits(Line(id, w.room), id, ClientOf(s, id));
    } else if w.CheckSwitch? || w.CheckCreate? {
      EffectIdle(s, w, choice);
      assert Next(s, w, choice, now) + [] == Next(s, w, choice, now);
      SwitchingOrderly(s, id, w.room, now);
      NoneOrderly(id, ClientOf(s, id));
    } else if w.Rekey? {
      assert Next(s, w, choice, now) + [] == Next(s, w, choice, now);
      RekeyedOrderly(s, w, choice, now, id);
    } else {
      assert Next(s, w, choice, now) == [] by { CalmNext(s, w, choice, now); }
      assert [] + rest == rest;
      OrderlyRest(s, ws, choice, id);
    }
  }

  lemma HeadFits(ws: seq<Work>, id: ConnId, c: Client)
    requires ws != [] && Orderly(ws, id, c)
    ensures Fits(ws[0], Quit(id) in ws, Departing(ws), |ws| == 1, c)
  {
    assert ws[0] in ws;
  }

  lemma HeadSound(ws: seq<Work>, id: ConnId, room: string)
    requires ws != [] && Sound(ws, id, room)
    ensures SelfWork(ws[0]) ==> ws[0].id == id && (!ws[0].Move? && !ws[0].Snapshot? ==> ws[1..] == [])
  {
  }

  lemma CalmNext(s: Server, w: Work, choice: Choice, now: Moment)
    requires CalmWork(w) && !w.Post? && !w.Check? && !w.CheckSwitch? && !w.CheckCreate? && !w.Rekey?
    ensures Next(s, w, choice, now) == []
  {
  }

  lemma EffectIdle(s: Server, w: Work, choice: Choice)
    requires w.Check? || w.CheckSwitch? || w.CheckCreate?
    ensures Effect(s, w, choice) == s
  {
  }

  lemma RekeyedOrderly(s: Server, w: Work, choice: Choice, now: Moment, id: ConnId)
    requires w.Rekey? && w.id == id && Fits(w, false, false, true, ClientOf(s, id))
    ensures Orderly(Next(s, w, choice, now), id, ClientOf(Effect(s, w, choice), id))
  {
    hide Effect, CanRekey, Ordered;
    EffectClient(s, w, choice, id);
    OrderedIf(Next(s, w, choice, now));
  }

  lemma {:induction false} JotsAreJots(rooms: seq<string>, m: Message)
    ensures forall w <- Jots(rooms, m) :: w.Jot?
  {
    if rooms != [] { JotsAreJots(rooms[..|rooms| - 1], m); }
  }

  lemma JotsOrderly(ws: seq<Work>, id: ConnId, c: Client)
    requires forall w <- ws :: w.Jot?
    ensures Orderly(ws, id, c) && Quit(id) !in ws
  {
    assert forall i :: 0 <= i < |ws| ==> ws[i] in ws;
    OrderedIf(ws);
  }

  /** A list that a handler may start with: orderly, and a registered connection that ends takes its own name out. */
  predicate GoodStart(ws: seq<Work>, id: ConnId, d: Client) {
    && Orderly(ws, id, d)
    && ((Pending(d.stage) || d.stage.Active?) && Quit(id) in ws ==> Unregister(d.username) in ws)
    && (forall w <- ws :: w.Refill? ==> Departing(ws))
  }

  lemma StartsWithJots(s: Server, a: Action, now: Moment)
    requires a.SetMute? || a.Announce? || a.OperatorSetMute? || a.OperatorAnnounce? || a.OperatorPromote? || a.OperatorDemote?
    ensures forall w <- StartWork(s, a, now) :: w.Jot?
  {
    hide Text.TrimSpace;
    if a.Announce? { JotsAreJots(a.names, Note(now, Announcement, "", a.args, ClientOf(s, a.id).username)); }
    if a.OperatorAnnounce? { JotsAreJots(a.names, Note(now, Announcement, "", a.args, "Server")); }
  }

  lemma StartOne(w: Work, id: ConnId, d: Client)
    requires Fits(w, false, Departs(w), true, d) && w != Quit(id) && !w.Refill?
    ensures GoodStart([w], id, d)
  {
    OneFits(w, id, d);
  }

  lemma StartNone(id: ConnId, d: Client)
    ensures GoodStart([], id, d)
  {
    NoneOrderly(id, d);
  }

  /** Commands begin with orderly lists. */
  lemma StartOrderly(y: System, a: Action, now: Moment)
    requires (forall id :: Placed(ClientOf(y.server, id))) && CanStart(y, a) && ThreadOf(a).Handler? && CalmTick(Begin(a, now))
    ensures var id := ThreadOf(a).id;
            GoodStart(StartWork(y.server, a, now), id, ClientOf(StartEffect(y.server, a, now), id))
  {
    hide StartEffect, GoodStart, GivingUp, Leaving, Entering, Text.TrimSpace, Messages.ValidName, Text.ByteLen, Orderly;
    var s, id := y.server, ThreadOf(a).id;
    var t := StartEffect(s, a, now);
    var d := ClientOf(t, id);
    StartNone(id, d);
    assert Placed(ClientOf(s, id));
    if a.SetMute? || a.Announce? {
      hide StartWork;
      StartsWithJots(s, a, now);
      JotsStart(StartWork(s, a, now), id, d);
    } else if a.Connect? || a.EnterName? {
    } else if a.Leave? {
      assert d == SetReason(ClientOf(s, id), a.drop) by { LeaveStart(s, a, now); }
      LeavingStart(ClientOf(s, id), a.drop, id, now);
    } else if a.ChooseRoom? || a.Answer? || a.TakeSlot? || a.GiveUp? {
      hide CanStart;
      PendingStart(y, a, now);
    } else {
      assert d == ClientOf(s, id) by { SessionStart(s, a, now); }
      SessionFits(s, a, now, id);
    }
  }

  lemma JotsStart(ws: seq<Work>, id: ConnId, d: Client)
    requires forall w <- ws :: w.Jot?
    ensures GoodStart(ws, id, d)
  {
    JotsOrderly(ws, id, d);
  }

  lemma LeaveStart(s: Server, a: Action, now: Moment)
    requires a.Leave?
    ensures ClientOf(StartEffect(s, a, now), a.id) == SetReason(ClientOf(s, a.id), a.drop)
  {
  }

  lemma LeavingStart(c: Client, drop: bool, id: ConnId, now: Moment)
    requires Placed(c) && c.stage.Active?
    ensures GoodStart(Leaving(SetReason(c, drop), id, now), id, SetReason(c, drop))
  {
    hide Leaving, Orderly;
    LeavingOrderly(SetReason(c, drop), id, now);
    assert Departs(Unregister(c.username));
  }

  lemma SessionStart(s: Server, a: Action, now: Moment)
    requires a.Say? || a.Switch? || a.Create? || a.Rename?
    ensures StartEffect(s, a, now) == s
  {
  }

  lemma SessionFits(s: Server, a: Action, now: Moment, id: ConnId)
    requires (a.Say? || a.Switch? || a.Create? || a.Rename?) && a.id == id && ClientOf(s, id).stage.Active?
    ensures GoodStart(StartWork(s, a, now), id, ClientOf(s, id))
  {
    hide GoodStart, Text.TrimSpace, Messages.ValidName, Text.ByteLen, Orderly;
    var c := ClientOf(s, id);
    StartNone(id, c);
    match a
    case Say(_, line) => StartOne(Post(c.room, Note(now, Chat, c.username, line, ""), c.username), id, c);
    case Switch(_, args) => if args != "" { StartOne(CheckSwitch(id, args), id, c); }
    case Create(_, args) => if args != "" { StartOne(CheckCreate(id, args), id, c); }
    case Rename(_, args) => StartOne(Rekey(id, args), id, c);
  }

  lemma PendingStart(y: System, a: Action, now: Moment)
    requires CanStart(y, a) && (a.ChooseRoom? || a.Answer? || a.TakeSlot? || a.GiveUp?) && Placed(ClientOf(y.server, a.id))
    ensures GoodStart(StartWork(y.server, a, now), a.id, ClientOf(StartEffect(y.server, a, now), a.id))
  {
    hide GoodStart, GivingUp, Entering, Text.TrimSpace, Messages.ValidName, Orderly, AnswerStep;
    var s, id := y.server, a.id;
    var c := ClientOf(s, id);
    StartNone(id, c);
    match a
    case ChooseRoom(_, line) =>
      var room := if Text.TrimSpace(line) == "" then DEFAULT_ROOM else Text.TrimSpace(line);
      StartOne(Check(id, room), id, c);
      GivingUpStart(s, id);
    case Answer(_, line) =>
      GivingUpStart(s, id);
      StartNone(id, ClientOf(StartEffect(s, a, now), id));
    case TakeSlot(_) => EnteringStart(s, id, c.stage.room, now);
    case GiveUp(_) => GivingUpStart(s, id);
  }

  lemma GivingUpStart(s: Server, id: ConnId)
    requires ClientOf(s, id).stage.Naming? || Pending(ClientOf(s, id).stage)
    ensures GoodStart(GivingUp(s, id), id, ClientOf(s, id))
  {
    hide Orderly;
    GivingUpOrderly(s, id);
  }

  lemma EnteringStart(s: Server, id: ConnId, room: string, now: Moment)
    requires room != "" && Pending(ClientOf(s, id).stage)
    ensures GoodStart(Entering(s, id, room, now), id, ClientOf(s, id))
  {
    hide Orderly;
    EnteringOrderly(s, id, room, now);
  }

  lemma StartPlaced(y: System, a: Action, now: Moment, id: ConnId)
    requires CanStart(y, a) && Placed(ClientOf(y.server, id))
    ensures Placed(ClientOf(StartEffect(y.server, a, now), id))
  {
    hide StartEffect, CanStart;
    StartClient(y, a, now, id);
    if a.EnterName? { NamingStart(y, a); }
    if a.Connect? && a.id == id { FreshReason(y.server, a, now); } else { StartReason(y, a, now, id); }
  }

  lemma FreshReason(s: Server, a: Action, now: Moment)
    requires a.Connect?
    ensures var d := ClientOf(StartEffect(s, a, now), a.id); d.reason.Unset? && d.room == ""
  {
  }

  lemma StartReason(y: System, a: Action, now: Moment, id: ConnId)
    requires CanStart(y, a) && !(a.Connect? && a.id == id)
    ensures Moderated(ClientOf(StartEffect(y.server, a, now), id)) == Moderated(ClientOf(y.server, id))
  {
    hide AcceptConnection, SubmitName, AnswerStep, ClearHistory, CanStart, Text.TrimSpace, IsAdmin;
    if a.Connect? { Accepted(y.server, a.id, a.host, now); }
    else if a.EnterName? { NamingStart(y, a); NameReason(y.server, a.id, a.name); NameEntered(y.server, a.id, a.name); }
    else if a.Answer? { AnswerStart(y.server, a.id, a.line, now); }
    else if a.Midnight? { Admins.ClearUntouched(y.server); }
  }

  lemma NameReason(s: Server, id: ConnId, name: string)
    requires ClientOf(s, id).stage.Naming?
    ensures ClientOf(SubmitName(s, id, name), id).reason == ClientOf(s, id).reason
  {
    hide Messages.ValidName;
  }

  // ---------- the lists of the whole system ----------

  lemma StartLists(y: System, a: Action, now: Moment)
    requires ListsOrderly(y) && CanStart(y, a) && CalmTick(Begin(a, now))
    ensures ListsOrderly(Started(y, a, now))
  {
    hide ScriptsOk, Orderly, Placed, CanStart, StartEffect, StartWork, GoodStart;
    StartScripts(y, a, now);
    var z := Started(y, a, now);
    forall id ensures Placed(ClientOf(z.server, id)) && Orderly(WorkOf(z, Handler(id)), id, ClientOf(z.server, id)) {
      StartPlaced(y, a, now, id);
      if !Ambient(a) && ThreadOf(a) == Handler(id) {
        StartOrderly(y, a, now);
        GoodOrderly(StartWork(y.server, a, now), id, ClientOf(z.server, id));
      } else {
        StartOrderlyOther(y, a, now, id);
      }
    }
    if !Ambient(a) && ThreadOf(a) == Operator { StartsWithJots(y.server, a, now); }
  }

  lemma GoodOrderly(ws: seq<Work>, id: ConnId, d: Client)
    requires GoodStart(ws, id, d)
    ensures Orderly(ws, id, d)
  {
  }

  /** A list depends on its connection only through name, room and stage. */
  lemma OrderlySame(ws: seq<Work>, id: ConnId, c: Client, d: Client)
    requires Orderly(ws, id, c) && c.username == d.username && c.room == d.room && c.stage == d.stage
    ensures Orderly(ws, id, d)
  {
    hide CalmWork, Departing, Ordered;
    forall v | v in ws ensures Fits(v, Quit(id) in ws, Departing(ws), |ws| == 1, d) {
      assert Fits(v, Quit(id) in ws, Departing(ws), |ws| == 1, c);
    }
  }

  lemma StartOrderlyOther(y: System, a: Action, now: Moment, id: ConnId)
    requires ListsOrderly(y) && CanStart(y, a) && (Ambient(a) || ThreadOf(a) != Handler(id))
    ensures Orderly(WorkOf(Started(y, a, now), Handler(id)), id, ClientOf(StartEffect(y.server, a, now), id))
  {
    hide ScriptsOk, Orderly, StartEffect, StartWork;
    StartClient(y, a, now, id);
    assert Orderly(WorkOf(y, Handler(id)), id, ClientOf(y.server, id));
    OrderlySame(WorkOf(y, Handler(id)), id, ClientOf(y.server, id), ClientOf(StartEffect(y.server, a, now), id));
  }

  lemma ContinueLists(y: System, th: Thread, choice: Choice, now: Moment)
    requires ListsOrderly(y) && WorkOf(y, th) != []
    ensures ListsOrderly(Continued(y, th, choice, now))
  {
    hide ScriptsOk, Effect, Next, Booked, NewlyOwn, NewlyMissed, NewlyAbsent, Orderly, Placed;
    ContinueScripts(y, th, choice, now);
    var z, w := Continued(y, th, choice, now), WorkOf(y, th)[0];
    forall id ensures Placed(ClientOf(z.server, id)) && Orderly(WorkOf(z, Handler(id)), id, ClientOf(z.server, id)) {
      ContinueOrderly(y, th, choice, now, id);
    }
    if th == Operator {
      assert w in WorkOf(y, th);
      assert Next(y.server, w, choice, now) == [] by { CalmNext(y.server, w, choice, now); }
    }
  }

  lemma CalmHead(y: System, th: Thread)
    requires ListsOrderly(y) && WorkOf(y, th) != []
    ensures CalmWork(WorkOf(y, th)[0])
  {
    var ws := WorkOf(y, th);
    assert ws[0] in ws;
    if th.Handler? { HeadFits(ws, th.id, ClientOf(y.server, th.id)); }
  }

  lemma SoundAt(y: System, id: ConnId)
    requires ScriptsOk(y)
    ensures Sound(WorkOf(y, Handler(id)), id, ClientOf(y.server, id).room)
  {
  }

  lemma ContinueOrderly(y: System, th: Thread, choice: Choice, now: Moment, id: ConnId)
    requires ListsOrderly(y) && WorkOf(y, th) != []
    ensures var z := Continued(y, th, choice, now);
            Placed(ClientOf(z.server, id)) && Orderly(WorkOf(z, Handler(id)), id, ClientOf(z.server, id))
  {
    hide ScriptsOk, Effect, Next, Booked, NewlyOwn, NewlyMissed, NewlyAbsent, Orderly, Placed, Sound, CalmWork;
    var ws := WorkOf(y, th);
    CalmHead(y, th);
    assert Placed(ClientOf(y.server, id));
    if th == Handler(id) {
      SoundAt(y, id);
      HeadFits(ws, id, ClientOf(y.server, id));
      OrderlyNext(y.server, ws, choice, now, id);
      EffectPlaced(y.server, ws[0], choice, id);
    } else {
      ForeignMove(y, th, id);
      LineHead(ws[0]);
      EffectPlaced(y.server, ws[0], choice, id);
    }
  }

  lemma LineHead(w: Work)
    ensures w.Line? || w.Move? ==> SelfWork(w)
  {
  }

  // ---------- names stay owned ----------

  /** The acting handler before one of its sections: what it knows about itself. */
  lemma ActorRooted(y: System, id: ConnId)
    requires ListsOrderly(y) && NamesOwned(y) && WorkOf(y, Handler(id)) != [] && KnownWork(WorkOf(y, Handler(id))[0])
    ensures Enrolled(y, id) && Rooted(y.server, id)
    ensures WorkOf(y, Handler(id))[0].Unregister? ==>
              WorkOf(y, Handler(id))[0].name == ClientOf(y.server, id).username && Unregistered(WorkOf(y, Handler(id))[1..])
              && Quit(id) in WorkOf(y, Handler(id))[1..]
  {
    hide ScriptsOk, Rooted, CalmWork;
    var ws, c := WorkOf(y, Handler(id)), ClientOf(y.server, id);
    assert Orderly(ws, id, c);
    HeadFits(ws, id, c);
    if ws[0].Unregister? {
      assert ws[0] == Unregister(c.username) && ws[0] in ws;
      assert forall v <- ws :: v == ws[0] || v in ws[1..];
    }
  }

  predicate Unregistered(ws: seq<Work>) { forall v <- ws :: !v.Unregister? }

  /** Two enrolled connections have different names. */
  lemma DifferentNames(s: Server, a: ConnId, b: ConnId)
    requires Rooted(s, a) && Rooted(s, b) && a != b
    ensures ClientOf(s, a).username != ClientOf(s, b).username
  {
  }

  /** Membership in a list without its first section. */
  lemma WithoutHead(ws: seq<Work>, v: Work)
    requires ws != [] && v != ws[0]
    ensures v in ws <==> v in ws[1..]
  {
  }

  lemma NoQuitNext(s: Server, w: Work, choice: Choice, now: Moment, id: ConnId)
    requires w.Check? || w.CheckSwitch? || w.CheckCreate? || w.Rekey?
    ensures Quit(id) !in Next(s, w, choice, now)
  {
    hide HasCapacity;
  }

  /** The handler's list after a section, as far as leaving is concerned. */
  lemma ExitAfter(s: Server, ws: seq<Work>, choice: Choice, now: Moment, id: ConnId, c: Client)
    requires ws != [] && Orderly(ws, id, c) && Sound(ws, id, c.room)
    ensures var w, after := ws[0], Next(s, ws[0], choice, now) + ws[1..];
            && (!w.Quit? ==> (Quit(id) in after <==> Quit(id) in ws))
            && (!w.Unregister? ==> Quit(id) in ws ==> (Unregister(c.username) in after <==> Unregister(c.username) in ws))
  {
    hide CalmWork, Ordered, Departing, Next;
    var w, rest := ws[0], ws[1..];
    HeadFits(ws, id, c);
    HeadSound(ws, id, c.room);
    if !w.Quit? { WithoutHead(ws, Quit(id)); }
    if !w.Unregister? { WithoutHead(ws, Unregister(c.username)); }
    if w.Check? || w.CheckSwitch? || w.CheckCreate? || w.Rekey? {
      NoQuitNext(s, w, choice, now, id);
      assert Quit(id) !in ws;
    } else if w.Post? {
      assert Next(s, w, choice, now) == [Tell(w.room, EventOf(s, w.room, w.m), w.exclude)] by { PostNext(s, w, choice, now); }
    } else {
      CalmNext(s, w, choice, now);
    }
  }

  lemma PostNext(s: Server, w: Work, choice: Choice, now: Moment)
    requires w.Post?
    ensures Next(s, w, choice, now) == [Tell(w.room, EventOf(s, w.room, w.m), w.exclude)]
  {
  }

  /** Enrolment of the acting handler after its section. */
  lemma EnrolledAfter(y: System, id: ConnId, choice: Choice, now: Moment)
    requires ListsOrderly(y) && NamesOwned(y) && WorkOf(y, Handler(id)) != []
    ensures var w := WorkOf(y, Handler(id))[0];
            Enrolled(Continued(y, Handler(id), choice, now), id) <==> Enrolled(y, id) && !w.Unregister? && !w.Quit?
  {
    hide ScriptsOk, Effect, Next, Booked, NewlyOwn, NewlyMissed, NewlyAbsent, CalmWork, Orderly, CanRekey, Rooted, Sound, NamesOwned;
    var ws, s := WorkOf(y, Handler(id)), y.server;
    var w, z := ws[0], Continued(y, Handler(id), choice, now);
    SoundAt(y, id);
    assert WorkOf(z, Handler(id)) == Next(s, w, choice, now) + ws[1..];
    assert Orderly(ws, id, ClientOf(s, id));
    HeadFits(ws, id, ClientOf(s, id));
    HeadSound(ws, id, ClientOf(s, id).room);
    EffectClient(s, w, choice, id);
    ExitAfter(s, ws, choice, now, id, ClientOf(s, id));
    if w.Unregister? {
      ActorRooted(y, id);
      CalmNext(s, w, choice, now);
      assert WorkOf(z, Handler(id)) == ws[1..];
    }
  }

  /** The section acts for the given connection, or for nobody. */
  predicate ActsFor(s: Server, w: Work, a: ConnId) {
    && CalmWork(w) && (SelfWork(w) ==> w.id == a)
    && (w.Unregister? ==> w.name == ClientOf(s, a).username)
  }

  /** The global index after a section. */
  function ClientsAfter(s: Server, w: Work): map<string, ConnId> {
    match w
    case Unregister(name) => s.clients - {name}
    case Rekey(id, name) => if CanRekey(s, name) then (s.clients - {ClientOf(s, id).username})[name := id] else s.clients
    case _ => s.clients
  }

  /** A room's index after a section. */
  function MembersAfter(s: Server, w: Work, room: string): map<string, ConnId> {
    var m := Members(s, room);
    match w
    case Move(id, to) =>
      var c := ClientOf(s, id);
      var base := if room == c.room && room != "" then m - {c.username} else m;
      if room == to then base[c.username := id] else base
    case Unregister(name) =>
      if name in s.clients && room == ClientOf(s, s.clients[name]).room && room != "" then m - {name} else m
    case Rekey(id, name) =>
      var c := ClientOf(s, id);
      if CanRekey(s, name) && room == c.room && room != "" && room in s.rooms then (m - {c.username})[name := id] else m
    case _ => m
  }

  lemma EffectIndexes(s: Server, w: Work, choice: Choice, room: string)
    ensures Effect(s, w, choice).clients == ClientsAfter(s, w)
    ensures Members(Effect(s, w, choice), room) == MembersAfter(s, w, room)
  {
    hide JoinRoom, RemoveClient, RenameClient, Members, CanRekey;
    if w.Move? {
      JoinMembers(s, w.id, w.room, room);
      JoinFieldsOf(s, w.id, w.room);
      RoomsMembers(JoinRoom(s, w.id, w.room), Effect(s, w, choice), room);
    } else if w.Unregister? {
      if w.name in s.clients { RemoveMembers(s, w.name, room); } else { AbsentName(s, w.name); }
    } else if w.Rekey? {
      if CanRekey(s, w.name) { RekeyMembers(s, w.id, w.name, room); } else { RefusedRekey(s, w, choice); }
    } else {
      hide Effect;
      EffectRegistrations(s, w, choice);
      EffectMembers(s, w, choice, room);
    }
  }

  lemma EffectOthers(s: Server, w: Work, choice: Choice, a: ConnId, x: ConnId)
    requires ActsFor(s, w, a) && x != a && Rooted(s, x) && (ChangesMembers(w) ==> Rooted(s, a))
    ensures Rooted(Effect(s, w, choice), x)
  {
    hide Effect, CalmWork, Members;
    EffectClient(s, w, choice, x);
    EffectIndexes(s, w, choice, ClientOf(s, x).room);
    if ChangesMembers(w) { DifferentNames(s, a, x); }
  }

  lemma EffectActor(s: Server, w: Work, choice: Choice, a: ConnId)
    requires ActsFor(s, w, a) && Rooted(s, a) && Placed(ClientOf(s, a)) && !w.Unregister?
    requires w.Rekey? ==> ClientOf(s, a).stage.Active?
    ensures Rooted(Effect(s, w, choice), a)
  {
    hide Effect, CalmWork;
    EffectClient(s, w, choice, a);
    EffectIndexes(s, w, choice, ClientOf(Effect(s, w, choice), a).room);
  }

  lemma OperatorJots(y: System)
    requires ListsOrderly(y) && WorkOf(y, Operator) != []
    ensures WorkOf(y, Operator)[0].Jot?
  {
    assert WorkOf(y, Operator)[0] in WorkOf(y, Operator);
  }

  /** The section at hand acts for its thread's connection, which is rooted if the indexes are about to change. */
  lemma ActorActs(y: System, th: Thread, x: ConnId)
    requires ListsOrderly(y) && NamesOwned(y) && WorkOf(y, th) != []
    ensures var w := WorkOf(y, th)[0];
            var a := if th.Handler? then th.id else x;
            ActsFor(y.server, w, a) && (ChangesMembers(w) ==> th.Handler? && Rooted(y.server, a) && Enrolled(y, a))
  {
    hide Rooted, CalmWork, NamesOwned, ScriptsOk, Enrolled;
    CalmHead(y, th);
    if th == Operator {
      OperatorJots(y);
    } else {
      SoundAt(y, th.id);
      HeadSound(WorkOf(y, th), th.id, ClientOf(y.server, th.id).room);
      if ChangesMembers(WorkOf(y, th)[0]) { ActorRooted(y, th.id); }
    }
  }

  lemma EnrolledOther(y: System, th: Thread, choice: Choice, now: Moment, x: ConnId)
    requires ListsOrderly(y) && WorkOf(y, th) != [] && th != Handler(x)
    ensures Enrolled(Continued(y, th, choice, now), x) == Enrolled(y, x)
    ensures ClientOf(Continued(y, th, choice, now).server, x) == ClientOf(y.server, x)
  {
    hide ScriptsOk, Effect, Next, Booked, NewlyOwn, NewlyMissed, NewlyAbsent, CalmWork, Orderly, Placed;
    CalmHead(y, th);
    ForeignMove(y, th, x);
    assert Placed(ClientOf(y.server, x));
    LineHead(WorkOf(y, th)[0]);
    EffectPlaced(y.server, WorkOf(y, th)[0], choice, x);
  }

  lemma ContinueRooted(y: System, th: Thread, choice: Choice, now: Moment, x: ConnId)
    requires ListsOrderly(y) && NamesOwned(y) && WorkOf(y, th) != []
    ensures var z := Continued(y, th, choice, now); Enrolled(z, x) ==> Rooted(z.server, x)
  {
    hide ScriptsOk, Effect, Next, Booked, NewlyOwn, NewlyMissed, NewlyAbsent, CalmWork, Orderly, Placed, Enrolled, Rooted;
    var w, s := WorkOf(y, th)[0], y.server;
    ActorActs(y, th, x + 1);
    assert Enrolled(y, x) ==> Rooted(s, x);
    assert Placed(ClientOf(s, x));
    if th == Handler(x) {
      EnrolledAfter(y, x, choice, now);
      if Enrolled(Continued(y, th, choice, now), x) {
        RekeyActive(y, x);
        EffectActor(s, w, choice, x);
      }
    } else {
      EnrolledOther(y, th, choice, now, x);
      if Enrolled(y, x) { EffectOthers(s, w, choice, if th.Handler? then th.id else x + 1, x); }
    }
  }

  lemma RekeyActive(y: System, x: ConnId)
    requires ListsOrderly(y) && WorkOf(y, Handler(x)) != []
    ensures WorkOf(y, Handler(x))[0].Rekey? ==> ClientOf(y.server, x).stage.Active?
  {
    HeadFits(WorkOf(y, Handler(x)), x, ClientOf(y.server, x));
  }

  lemma ContinueKey(y: System, th: Thread, choice: Choice, now: Moment, name: string)
    requires ListsOrderly(y) && NamesOwned(y) && WorkOf(y, th) != [] && name in Continued(y, th, choice, now).server.clients
    ensures KeyEnrolled(Continued(y, th, choice, now), name)
  {
    hide ScriptsOk, Effect, Next, Booked, NewlyOwn, NewlyMissed, NewlyAbsent, CalmWork, Orderly, Placed, Enrolled, Rooted, CanRekey;
    var w, s, z := WorkOf(y, th)[0], y.server, Continued(y, th, choice, now);
    var x := z.server.clients[name];
    ActorActs(y, th, x + 1);
    EffectIndexes(s, w, choice, "");
    EffectClient(s, w, choice, x);
    assert name in s.clients ==> KeyEnrolled(y, name);
    if th == Handler(x) {
      EnrolledAfter(y, x, choice, now);
      if w.Quit? { QuittersGone(y, x); }
    } else {
      EnrolledOther(y, th, choice, now, x);
    }
  }

  lemma QuittersGone(y: System, x: ConnId)
    requires ListsOrderly(y) && WorkOf(y, Handler(x)) != [] && WorkOf(y, Handler(x))[0].Quit?
    ensures !Enrolled(y, x)
  {
    SoundAt(y, x);
    HeadSound(WorkOf(y, Handler(x)), x, ClientOf(y.server, x).room);
    assert WorkOf(y, Handler(x)) == [Quit(x)];
  }

  lemma ContinueMember(y: System, th: Thread, choice: Choice, now: Moment, room: string, name: string)
    requires ListsOrderly(y) && NamesOwned(y) && WorkOf(y, th) != []
    requires name in Members(Continued(y, th, choice, now).server, room)
    ensures MemberRooted(Continued(y, th, choice, now).server, room, name)
  {
    hide ScriptsOk, Effect, Next, Booked, NewlyOwn, NewlyMissed, NewlyAbsent, CalmWork, Orderly, Placed, Enrolled, CanRekey, Members, ListsOrderly;
    var w, s, z := WorkOf(y, th)[0], y.server, Continued(y, th, choice, now);
    ActorActs(y, th, 0);
    EffectIndexes(s, w, choice, room);
    var x := Members(z.server, room)[name];
    EffectClient(s, w, choice, x);
    assert name in Members(s, room) ==> MemberRooted(s, room, name);
    assert name in s.clients ==> KeyEnrolled(y, name);
    MemberAfter(s, z.server, w, if th.Handler? then th.id else 0, room, name);
    assert ClientOf(z.server, x) == ClientOf(z.server, z.server.clients[name]);
  }

  lemma MemberAfter(s: Server, t: Server, w: Work, a: ConnId, room: string, name: string)
    requires ActsFor(s, w, a) && (ChangesMembers(w) ==> Rooted(s, a))
    requires t.clients == ClientsAfter(s, w) && Members(t, room) == MembersAfter(s, w, room) && name in Members(t, room)
    requires var x := Members(t, room)[name]; ClientOf(t, x).room == if w.Move? && w.id == x then w.room else ClientOf(s, x).room
    requires name in Members(s, room) ==> MemberRooted(s, room, name) && ClientOf(s, s.clients[name]).username == name
    ensures MemberRooted(t, room, name)
  {
    hide Members;
    if room !in s.rooms { NoRoomNoMembers(s, room); }
  }

  lemma NoRoomNoMembers(s: Server, room: string)
    requires room !in s.rooms
    ensures Members(s, room) == map[]
  {
  }

  lemma ContinueNames(y: System, th: Thread, choice: Choice, now: Moment)
    requires ListsOrderly(y) && NamesOwned(y) && WorkOf(y, th) != []
    ensures NamesOwned(Continued(y, th, choice, now))
  {
    hide ListsOrderly, Continued, Enrolled, Rooted, KeyEnrolled, MemberRooted, Members;
    var z := Continued(y, th, choice, now);
    forall x | Enrolled(z, x) ensures Rooted(z.server, x) { ContinueRooted(y, th, choice, now, x); }
    forall name | name in z.server.clients ensures KeyEnrolled(z, name) { ContinueKey(y, th, choice, now, name); }
    forall room, name | name in Members(z.server, room) ensures MemberRooted(z.server, room, name) {
      ContinueMember(y, th, choice, now, room, name);
    }
  }

  // ---------- starting a command ----------

  lemma StartClients(y: System, a: Action, now: Moment)
    requires CanStart(y, a)
    ensures var s, t := y.server, StartEffect(y.server, a, now);
            if a.EnterName? then t == s || (a.name !in s.clients && t.clients == s.clients[a.name := a.id]
                                            && ClientOf(t, a.id).username == a.name && ClientOf(t, a.id).stage.Choosing?)
            else t.clients == s.clients
  {
    hide AcceptConnection, SubmitName, AnswerStep, ClearHistory, Text.TrimSpace, IsAdmin;
    if a.EnterName? { NameEntered(y.server, a.id, a.name); }
    else {
      hide CanStart;
      if a.Connect? { AcceptedClients(y.server, a.id, a.host, now); }
      else if a.Answer? { AnswerStart(y.server, a.id, a.line, now); }
      else if a.Midnight? { Admins.ClearUntouched(y.server); }
    }
  }

  lemma AcceptedClients(s: Server, id: ConnId, host: string, now: Moment)
    ensures AcceptConnection(s, id, host, now).clients == s.clients
  {
  }

  lemma StartEnrolled(y: System, a: Action, now: Moment, x: ConnId)
    requires ListsOrderly(y) && CanStart(y, a) && CalmTick(Begin(a, now))
    ensures var z := Started(y, a, now);
            if a.EnterName? && a.id == x then Enrolled(z, x) == ClientOf(z.server, x).stage.Choosing? && !Enrolled(y, x)
            else Enrolled(z, x) == Enrolled(y, x)
  {
    hide ScriptsOk, StartEffect, StartWork, Placed, CanStart, Orderly;
    StartClient(y, a, now, x);
    if a.EnterName? { NamingStart(y, a); }
    if !Ambient(a) && ThreadOf(a) == Handler(x) {
      StartOrderly(y, a, now);
      assert WorkOf(y, Handler(x)) == [] by { IdleStart(y, a); }
    }
  }

  lemma IdleStart(y: System, a: Action)
    requires CanStart(y, a) && !Ambient(a)
    ensures WorkOf(y, ThreadOf(a)) == []
  {
  }

  lemma StartNames(y: System, a: Action, now: Moment)
    requires ListsOrderly(y) && NamesOwned(y) && CanStart(y, a) && CalmTick(Begin(a, now))
    ensures NamesOwned(Started(y, a, now))
  {
    hide ListsOrderly, StartEffect, StartWork, CanStart, Enrolled, Members;
    var z, s := Started(y, a, now), y.server;
    StartClients(y, a, now);
    StartRooms(y, a, now);
    forall x | Enrolled(z, x) ensures Rooted(z.server, x) {
      StartEnrolled(y, a, now, x);
      StartClient(y, a, now, x);
      if a.EnterName? && a.id == x { NamingStart(y, a); } else { assert Rooted(s, x); }
    }
    forall name | name in z.server.clients ensures KeyEnrolled(z, name) {
      var x := z.server.clients[name];
      StartEnrolled(y, a, now, x);
      StartClient(y, a, now, x);
      if name in s.clients { assert KeyEnrolled(y, name); }
    }
    forall room, name | name in Members(z.server, room) ensures MemberRooted(z.server, room, name) {
      assert MemberRooted(s, room, name);
      StartClient(y, a, now, Members(s, room)[name]);
    }
  }

  // ---------- the books ----------

  lemma StartBooks(y: System, a: Action, now: Moment)
    requires ListsOrderly(y) && BooksCalm(y) && CanStart(y, a) && CalmTick(Begin(a, now))
    ensures BooksCalm(Started(y, a, now))
  {
    hide StartEffect, StartWork, CanStart, OwingAt, Orderly, Placed, Enrolled, AbsentGone;
    var z := Started(y, a, now);
    StartAbsent(y, a, now);
    forall room ensures |Owing(z, room)| <= Count(z.ledger.owed, room) {
      forall x | x in Owing(z, room) ensures x in Owing(y, room) { StartOwing(y, a, now, x, room); }
      Subset(Owing(z, room), Owing(y, room));
      assert |Owing(y, room)| <= Count(y.ledger.owed, room);
    }
  }

  lemma StartAbsent(y: System, a: Action, now: Moment)
    requires ListsOrderly(y) && AbsentGone(y) && CanStart(y, a) && CalmTick(Begin(a, now))
    ensures AbsentGone(Started(y, a, now))
  {
    hide ScriptsOk, StartEffect, StartWork, CanStart, Orderly, Enrolled;
    var z := Started(y, a, now);
    if a.EnterName? { NamingStart(y, a); }
    forall p | p in z.absent && p.1.msg.kind.Chat? ensures !Enrolled(z, p.0) && ClientOf(z.server, p.0).room != "" {
      StartEnrolled(y, a, now, p.0);
      StartClient(y, a, now, p.0);
      assert Placed(ClientOf(y.server, p.0));
    }
  }

  lemma StartOwing(y: System, a: Action, now: Moment, x: ConnId, room: string)
    requires ListsOrderly(y) && CanStart(y, a) && CalmTick(Begin(a, now)) && OwingAt(WorkOf(Started(y, a, now), Handler(x)), room)
    ensures x in y.server.conns && OwingAt(WorkOf(y, Handler(x)), room)
  {
    hide StartEffect, StartWork, CanStart, Orderly, Placed, ScriptsOk;
    if !Ambient(a) && ThreadOf(a) == Handler(x) {
      StartOrderly(y, a, now);
    } else {
      HandlerConn(y, x);
    }
  }

  /** Who still owes an admission after a section. */
  lemma ContinueOwing(y: System, th: Thread, choice: Choice, now: Moment, x: ConnId, room: string)
    requires ListsOrderly(y) && NamesOwned(y) && WorkOf(y, th) != []
    requires OwingAt(WorkOf(Continued(y, th, choice, now), Handler(x)), room)
    ensures var w := WorkOf(y, th)[0];
            && x in y.server.conns
            && (OwingAt(WorkOf(y, Handler(x)), room)
                || (th == Handler(x) && Count(Vacated(y.server, w), room) == 1))
            && !(th == Handler(x) && w == Refill(room))
  {
    hide Effect, Next, Booked, NewlyOwn, NewlyMissed, NewlyAbsent, CalmWork, Orderly, Placed, Enrolled, Members, ScriptsOk, NamesOwned, Vacated;
    HandlerConn(y, x);
    var ws := WorkOf(y, th);
    if th == Handler(x) {
      var w, rest, c := ws[0], ws[1..], ClientOf(y.server, x);
      SoundAt(y, x);
      HeadFits(ws, x, c);
      HeadSound(ws, x, c.room);
      OwingNext(y.server, ws, choice, now, x, c, room);
      if Departs(w) {
        ActorRooted(y, x);
        assert Placed(c);
        DepartureVacates(y.server, ws, x, room);
      }
    }
  }

  lemma OwingNext(s: Server, ws: seq<Work>, choice: Choice, now: Moment, id: ConnId, c: Client, room: string)
    requires ws != [] && Orderly(ws, id, c) && Sound(ws, id, c.room)
    requires OwingAt(Next(s, ws[0], choice, now) + ws[1..], room)
    ensures Refill(room) in ws[1..] && ws[0] != Refill(room)
    ensures !Departs(ws[0]) ==> OwingAt(ws, room)
  {
    hide CalmWork, Fits, Next, Sound;
    var w, rest := ws[0], ws[1..];
    var after := Next(s, w, choice, now) + rest;
    HeadSound(ws, id, c.room);
    HeadCalm(ws, id, c);
    NextOwing(s, w, choice, now);
    assert forall v :: v in rest ==> v in after;
    assert forall v :: v in Next(s, w, choice, now) ==> v in after;
    DepartingTail(ws);
    assert Departing(rest) ==> Departing(after);
    HeadFits(ws, id, c);
    if Refill(room) in rest && ws[0].Refill? { assert Before(ws[0], Refill(room)); }
  }

  lemma HeadCalm(ws: seq<Work>, id: ConnId, c: Client)
    requires ws != [] && Orderly(ws, id, c)
    ensures CalmWork(ws[0])
  {
    HeadFits(ws, id, c);
  }

  /** Lists put in front hold an admission only behind a departure. */
  lemma NextOwing(s: Server, w: Work, choice: Choice, now: Moment)
    requires CalmWork(w)
    ensures forall v <- Next(s, w, choice, now) :: v.Refill? ==> Departing(Next(s, w, choice, now))
  {
    hide HasCapacity;
    if w.CheckSwitch? || w.CheckCreate? { assert Departs(Switching(s, w.id, w.room, now)[1]); }
  }

  lemma DepartureVacates(s: Server, ws: seq<Work>, id: ConnId, room: string)
    requires ws != [] && Orderly(ws, id, ClientOf(s, id)) && Departs(ws[0]) && Refill(room) in ws[1..]
    requires Rooted(s, id) && Placed(ClientOf(s, id)) && (ws[0].Move? ==> ws[0].id == id) && (ws[0].Unregister? ==> ws[0].name == ClientOf(s, id).username)
    ensures Count(Vacated(s, ws[0]), room) == 1
  {
    hide CalmWork, Ordered, Members;
    DepartingTail(ws);
    assert Refill(room) in ws;
    assert Fits(Refill(room), Quit(id) in ws, Departing(ws), |ws| == 1, ClientOf(s, id));
  }

  lemma RefillOwing(y: System, th: Thread, room: string)
    requires ListsOrderly(y) && WorkOf(y, th) != [] && WorkOf(y, th)[0] == Refill(room)
    ensures th.Handler? && th.id in Owing(y, room)
  {
    hide Orderly, Placed, CalmWork;
    var ws := WorkOf(y, th);
    assert ws[0] in ws;
    if th.Handler? {
      HandlerConn(y, th.id);
      assert Orderly(ws, th.id, ClientOf(y.server, th.id));
      RefillFirst(ws, th.id, ClientOf(y.server, th.id));
    }
  }

  lemma RefillFirst(ws: seq<Work>, id: ConnId, c: Client)
    requires ws != [] && ws[0].Refill? && Orderly(ws, id, c)
    ensures !Departing(ws)
  {
    DepartingTail(ws);
  }

  lemma OwingCount(y: System, th: Thread, choice: Choice, now: Moment, room: string)
    requires ListsOrderly(y) && NamesOwned(y) && WorkOf(y, th) != []
    ensures var w := WorkOf(y, th)[0];
            |Owing(Continued(y, th, choice, now), room)| + (if w == Refill(room) then 1 else 0)
            <= |Owing(y, room)| + Count(Vacated(y.server, w), room)
  {
    hide ListsOrderly, NamesOwned, Continued, OwingAt, Vacated;
    var z, w := Continued(y, th, choice, now), WorkOf(y, th)[0];
    forall x | x in Owing(z, room)
      ensures x in Owing(y, room) || (th == Handler(x) && Count(Vacated(y.server, w), room) == 1)
      ensures !(th == Handler(x) && w == Refill(room))
    {
      ContinueOwing(y, th, choice, now, x, room);
    }
    if w == Refill(room) {
      RefillOwing(y, th, room);
      assert Vacated(y.server, w) == multiset{} by { RefillVacates(y.server, room); }
      assert Owing(z, room) <= Owing(y, room) - {th.id};
      Subset(Owing(z, room), Owing(y, room) - {th.id});
    } else if Count(Vacated(y.server, w), room) == 0 || !th.Handler? {
      Subset(Owing(z, room), Owing(y, room));
    } else {
      Subset(Owing(z, room), Owing(y, room) + {th.id});
    }
  }

  lemma RefillVacates(s: Server, room: string)
    ensures Vacated(s, Refill(room)) == multiset{}
  {
  }

  lemma CalmAdmits(w: Work, choice: Choice)
    requires CalmWork(w)
    ensures AdmitsIn(w, choice) == if w.Refill? then multiset{w.room} else multiset{}
  {
  }

  lemma ContinueOwed(y: System, th: Thread, choice: Choice, now: Moment, room: string)
    requires ListsOrderly(y) && NamesOwned(y) && BooksCalm(y) && WorkOf(y, th) != []
    ensures var z := Continued(y, th, choice, now); |Owing(z, room)| <= Count(z.ledger.owed, room)
  {
    hide ListsOrderly, NamesOwned, Owing, Vacated, Effect, Next, Overlapping, Unanswered, Reenters, CalmWork, AdmitsIn;
    var w := WorkOf(y, th)[0];
    OwingCount(y, th, choice, now, room);
    CalmHead(y, th);
    CalmAdmits(w, choice);
    assert |Owing(y, room)| <= Count(y.ledger.owed, room);
  }

  lemma ContinueExtra(y: System, th: Thread, choice: Choice)
    requires ListsOrderly(y) && NamesOwned(y) && BooksCalm(y) && WorkOf(y, th) != []
    ensures Booked(y, WorkOf(y, th)[0], choice).extra == multiset{}
  {
    hide ListsOrderly, NamesOwned, Effect, CalmWork, Overlapping, Members, Vacated, Owing;
    var w := WorkOf(y, th)[0];
    CalmHead(y, th);
    CalmAdmits(w, choice);
    if w.Refill? {
      RefillOwing(y, th, w.room);
      assert |Owing(y, w.room)| <= Count(y.ledger.owed, w.room);
      assert Owing(y, w.room) != {};
      assert w.room in multiset{w.room} * y.ledger.owed;
    } else if w.Rekey? {
      RekeyInPlace(y, th);
    }
  }

  lemma RekeyInPlace(y: System, th: Thread)
    requires ListsOrderly(y) && NamesOwned(y) && WorkOf(y, th) != [] && WorkOf(y, th)[0].Rekey?
    ensures InPlace(y.server, WorkOf(y, th)[0].id)
  {
    hide CalmWork, Members, ScriptsOk;
    if th == Operator { OperatorJots(y); }
    ActorActs(y, th, 0);
    RekeyActive(y, th.id);
  }

  /** A chat skips only its writer. */
  lemma ContinueMissed(y: System, th: Thread, choice: Choice, now: Moment)
    requires ListsOrderly(y) && NamesOwned(y) && BooksCalm(y) && WorkOf(y, th) != []
    ensures !ChatsMissed(Continued(y, th, choice, now))
  {
    hide ListsOrderly, NamesOwned, Effect, Next, CalmWork, Booked, NewlyAbsent, Members;
    var w := WorkOf(y, th)[0];
    if w.Tell? && w.e.msg.kind.Chat? { WriterExcluded(y, th); }
  }

  lemma WriterExcluded(y: System, th: Thread)
    requires ListsOrderly(y) && NamesOwned(y) && WorkOf(y, th) != [] && Chatty(WorkOf(y, th)[0])
    ensures var w := WorkOf(y, th)[0];
            w.exclude in Members(y.server, w.room) ==> th == Handler(Members(y.server, w.room)[w.exclude])
  {
    hide CalmWork, Members, ScriptsOk;
    var w := WorkOf(y, th)[0];
    if th == Operator { OperatorJots(y); }
    ActorRooted(y, th.id);
    assert Orderly(WorkOf(y, th), th.id, ClientOf(y.server, th.id));
    HeadFits(WorkOf(y, th), th.id, ClientOf(y.server, th.id));
    if w.exclude in Members(y.server, w.room) { assert MemberRooted(y.server, w.room, w.exclude); }
  }

  /** At a chat's broadcast every connection still enrolled in the room is in its index. */
  lemma ContinueAbsent(y: System, th: Thread, choice: Choice, now: Moment)
    requires ListsOrderly(y) && NamesOwned(y) && AbsentGone(y) && WorkOf(y, th) != []
    ensures AbsentGone(Continued(y, th, choice, now))
  {
    hide ListsOrderly, NamesOwned, Enrolled, Effect, Next, Booked, NewlyOwn, NewlyMissed;
    var z, w := Continued(y, th, choice, now), WorkOf(y, th)[0];
    forall p | p in z.absent && p.1.msg.kind.Chat? ensures !Enrolled(z, p.0) && ClientOf(z.server, p.0).room != "" {
      if p !in y.absent { NewlyAbsentGone(y, th, p.0, p.1); }
      StaysGone(y, th, choice, now, p.0);
    }
  }

  lemma NewlyAbsentGone(y: System, th: Thread, id: ConnId, e: Event)
    requires ListsOrderly(y) && NamesOwned(y) && WorkOf(y, th) != []
    requires (id, e) in NewlyAbsent(y.server, th, WorkOf(y, th)[0]) && e.msg.kind.Chat?
    ensures !Enrolled(y, id) && ClientOf(y.server, id).room != ""
  {
    hide CalmWork, ScriptsOk, Enrolled, Members;
    if th == Operator { OperatorJots(y); }
    var ws := WorkOf(y, th);
    assert Orderly(ws, th.id, ClientOf(y.server, th.id));
    HeadFits(ws, th.id, ClientOf(y.server, th.id));
    assert Placed(ClientOf(y.server, th.id)) && Placed(ClientOf(y.server, id));
    if Enrolled(y, id) {
      assert Rooted(y.server, id);
      EnrolledActive(y, id);
    }
  }

  lemma EnrolledActive(y: System, id: ConnId)
    requires Enrolled(y, id)
    ensures Pending(ClientOf(y.server, id).stage) || ClientOf(y.server, id).stage.Active?
  {
  }

  /** Who has left the index on its own stays out. */
  lemma StaysGone(y: System, th: Thread, choice: Choice, now: Moment, id: ConnId)
    requires ListsOrderly(y) && NamesOwned(y) && WorkOf(y, th) != [] && !Enrolled(y, id) && ClientOf(y.server, id).room != ""
    ensures var z := Continued(y, th, choice, now); !Enrolled(z, id) && ClientOf(z.server, id).room != ""
  {
    hide ListsOrderly, NamesOwned, Enrolled, Effect, Next, Booked, NewlyOwn, NewlyMissed, NewlyAbsent, CalmWork;
    if th == Handler(id) {
      EnrolledAfter(y, id, choice, now);
      CalmHead(y, th);
      EffectClient(y.server, WorkOf(y, th)[0], choice, id);
      if WorkOf(y, th)[0].Move? { CalmRoom(WorkOf(y, th)[0]); }
    } else {
      EnrolledOther(y, th, choice, now, id);
    }
  }

  lemma CalmRoom(w: Work)
    requires CalmWork(w) && w.Move?
    ensures w.room != ""
  {
  }

  lemma ContinueBooks(y: System, th: Thread, choice: Choice, now: Moment)
    requires ListsOrderly(y) && NamesOwned(y) && BooksCalm(y) && WorkOf(y, th) != []
    ensures BooksCalm(Continued(y, th, choice, now))
  {
    hide ListsOrderly, NamesOwned, Effect, Next, CalmWork, Booked, Owing, ChatsMissed, AbsentGone;
    var z, w := Continued(y, th, choice, now), WorkOf(y, th)[0];
    forall room ensures |Owing(z, room)| <= Count(z.ledger.owed, room) { ContinueOwed(y, th, choice, now, room); }
    ContinueExtra(y, th, choice);
    ContinueMissed(y, th, choice, now);
    ContinueAbsent(y, th, choice, now);
  }

  // ---------- whole runs ----------

  lemma TickCalm(y: System, tick: Tick)
    requires CalmOk(y) && Can(y, tick) && CalmTick(tick)
    ensures CalmOk(TickOf(y, tick))
  {
    hide ListsOrderly, NamesOwned, BooksCalm, Started, Continued, CanStart, Legal;
    match tick
    case Begin(a, now) =>
      StartLists(y, a, now);
      StartNames(y, a, now);
      StartBooks(y, a, now);
    case Continue(th, choice, now) =>
      ContinueLists(y, th, choice, now);
      ContinueNames(y, th, choice, now);
      ContinueBooks(y, th, choice, now);
  }

  ghost predicate CalmTrace(trace: Trace) { forall tick <- trace :: CalmTick(tick) }

  lemma {:induction false} CalmHolds(y: System, trace: Trace)
    requires CalmOk(y) && Feasible(y, trace) && CalmTrace(trace)
    ensures CalmOk(AfterTrace(y, trace))
    decreases |trace|
  {
    hide CalmOk, Can, TickOf, CalmTick;
    if trace != [] {
      assert trace[0] in trace && forall tick <- trace[1..] :: tick in trace;
      TickCalm(y, trace[0]);
      CalmHolds(TickOf(y, trace[0]), trace[1..]);
    }
  }

  lemma FreshCalm(admins: set<string>)
    ensures CalmOk(FreshSystem(admins))
  {
    var y := FreshSystem(admins);
    FreshScripts(admins);
    forall room ensures |Owing(y, room)| <= Count(y.ledger.owed, room) { assert Owing(y, room) == {}; }
  }

  /** Without kicks and bans a room exceeds ten members only by places that were handed out at the same time. */
  lemma CalmRoomSize(admins: set<string>, trace: Trace, room: string)
    requires Feasible(FreshSystem(admins), trace) && CalmTrace(trace)
    ensures var y := AfterTrace(FreshSystem(admins), trace);
            |Members(y.server, room)| <= MAX_ACTIVE + Count(y.ledger.overlap, room)
  {
    hide Feasible, FreshSystem, ListsOrderly, NamesOwned;
    FreshCalm(admins);
    CalmHolds(FreshSystem(admins), trace);
    assert BooksCalm(AfterTrace(FreshSystem(admins), trace));
    RoomSizeBound(admins, trace, room);
  }

  /** Without kicks and bans every member with its history has been sent every other's chat that is in the room's
      history and whose broadcast is done. */
  lemma CalmChatsArrive(admins: set<string>, trace: Trace, id: ConnId, room: string, e: Event)
    requires Feasible(FreshSystem(admins), trace) && CalmTrace(trace)
    requires var y := AfterTrace(FreshSystem(admins), trace);
             Attached(y, id, room) && InPlace(y.server, id) && e in History(y.server, room) && e.msg.kind.Chat? && !TellPending(y, room, e)
    ensures (id, e) in AfterTrace(FreshSystem(admins), trace).server.heard || Wrote(FreshSystem(admins), trace, id, e)
  {
    hide Feasible, FreshSystem, ListsOrderly, TellPending, InPlace, Attached, Wrote, LeftOut, Enrolled;
    FreshCalm(admins);
    CalmHolds(FreshSystem(admins), trace);
    var y := AfterTrace(FreshSystem(admins), trace);
    assert BooksCalm(y) && NamesOwned(y);
    NoChatIsLost(admins, trace, id, room, e);
    MissedChat(y, id, e);
    PlacedEnrolled(y, id);
    FreshOwn(admins);
    ObservedInTrace(FreshSystem(admins), trace, id, e);
  }

  lemma FreshOwn(admins: set<string>)
    ensures FreshSystem(admins).own == {}
  {
  }

  lemma PlacedEnrolled(y: System, id: ConnId)
    requires NamesOwned(y) && InPlace(y.server, id)
    ensures Enrolled(y, id)
  {
    hide Enrolled, Members;
    var c := ClientOf(y.server, id);
    assert MemberRooted(y.server, c.room, c.username);
    assert KeyEnrolled(y, c.username);
  }

  lemma MissedChat(y: System, id: ConnId, e: Event)
    ensures (id, e) in y.missed && e.msg.kind.Chat? ==> ChatsMissed(y)
  {
  }
}
