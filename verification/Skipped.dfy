/** Both ways to miss a chat do occur: bearing the writer's name at its broadcast, and being out of the room's index at
    its broadcast and then put back by a rename (server/commands.go, room.go, clients.go). */
module Skipped {
  import opened Text
  import opened Messages
  import opened ServerState
  import opened Commands
  import opened Ownership
  import OwnershipRuns
  import opened Replay
  import opened Indexes
  import opened Sections
  import opened Scripts
  import opened Capacity
  import opened Delivery
  import opened Atomic
  import opened Lift
  import opened Halls
  import opened Stamps
  import opened Overfull

  /** A member with its history in hand that has neither been sent nor written a chat of its room, although the chat is in
      the history and its broadcast is over. */
  ghost predicate Misses(y: System, id: ConnId, room: string, e: Event) {
    && Attached(y, id, room) && InPlace(y.server, id)
    && e in History(y.server, room) && e.msg.kind.Chat? && !TellPending(y, room, e)
    && (id, e) !in y.server.heard && (id, e) !in y.own
  }

  // ---------- two guests, one kicked ----------

  function Kicked0(s: Server): Server
    requires Name(0) in s.clients
  {
    KickTarget(s, Name(0), "Server", NOW)
  }

  /** Guests 0 and 1 sit in the default room, nobody waits. */
  ghost predicate Pair(s: Server) {
    && s.clients == Names(2) && s.rooms.Keys == {DEFAULT_ROOM} && Members(s, DEFAULT_ROOM) == Names(2) && Queue(s, DEFAULT_ROOM) == []
    && 0 in s.conns && 1 in s.conns && ClientOf(s, 0) == Guest(0, true) && ClientOf(s, 1) == Guest(1, true)
  }

  lemma PairNames()
    ensures Name(0) in Names(2) && Names(2)[Name(0)] == 0 && Name(1) in Names(2) && Names(2)[Name(1)] == 1 && Name(2) !in Names(2)
    ensures Names(2) - {Name(0)} == map[Name(1) := 1]
    ensures Name(0) != Name(1) && Name(0) != Name(2) && Name(1) != Name(2)
  {
    NamesOf(2);
    hide Names;
    assert |Name(0)| == 1 && |Name(1)| == 2 && |Name(2)| == 3;
    forall n | n in Names(2) ensures n == Name(0) || n == Name(1) { assert n == Name(Names(2)[n]); }
  }

  lemma HallPair(s: Server)
    requires Hall(s, 2, 2)
    ensures Pair(s)
  {
  }

  /** The state after guest 0 has been kicked. */
  lemma AfterKick(s: Server)
    requires Pair(s)
    ensures Name(0) in s.clients
    ensures var k := Kicked0(s);
            && k.conns == s.conns[0 := Guest(0, true).(reason := Kicked, closed := true)]
            && k.clients == map[Name(1) := 1] && k.rooms.Keys == {DEFAULT_ROOM} && Members(k, DEFAULT_ROOM) == map[Name(1) := 1]
            && k.stamps == s.stamps + 1
            && (forall e <- History(s, DEFAULT_ROOM) :: e in History(k, DEFAULT_ROOM))
            && (forall p <- k.heard :: p in s.heard || p.1.stamp == s.stamps)
  {
    hide Expel, Admit, SameLinks, Members, History, Name, Names;
    PairNames();
    var name := Name(0);
    var out := Expel(s, 0, name, Kicked, "Server", NOW);
    ExpelRooms(s, 0, name, Kicked, "Server", NOW);
    ExpelLinks(s, 0, name, Kicked, "Server", NOW);
    LinkedClients(ExpelledLinks(s, 0, name, Kicked), out);
    assert out.clients == s.clients - {name} by { hide *; ExpelledClients(s, name); }
    ExpelHeard(s, 0, name);
    var cooled := AddKickCooldown(out, ClientOf(s, 0).host, NOW.clock);
    SameRoomMap(out, cooled);
    AdmitRoomsSame(cooled, DEFAULT_ROOM);
    OwnershipRuns.AdmitConns(cooled, DEFAULT_ROOM);
    AdmitHeard(cooled, DEFAULT_ROOM);
  }

  lemma ExpelledClients(s: Server, name: string)
    requires name in s.clients
    ensures ExpelledLinks(s, s.clients[name], name, Kicked).clients == s.clients - {name}
  {
  }

  lemma ExpelHeard(s: Server, id: ConnId, name: string)
    ensures var t := Expel(s, id, name, Kicked, "Server", NOW);
            t.stamps == s.stamps + 1 && forall p <- t.heard :: p in s.heard || p.1.stamp == s.stamps
  {
  }

  lemma AdmitHeard(s: Server, room: string)
    ensures Admit(s, room).heard == s.heard && Admit(s, room).stamps == s.stamps
  {
  }

  lemma KickStarts(y: System)
    requires WorkOf(y, Operator) == [] && Name(0) in y.server.clients && y.server.rooms.Keys == {DEFAULT_ROOM}
    ensures Enabled(y.server, KICK0.0, NOW) && ThreadOf(KICK0.0) == Operator && !Ambient(KICK0.0)
    ensures Step(y.server, KICK0.0, NOW) == Kicked0(y.server)
  {
    hide KickTarget;
    KickStep(y.server);
  }

  function Hello(name: string): Message { Note(NOW, Chat, name, "hi", "") }

  lemma HelloIsSaid(s: Server, id: ConnId)
    requires InSession(s, id) && !ClientOf(s, id).muted
    ensures Enabled(s, Say(id, "hi"), NOW)
    ensures var c := ClientOf(s, id); Step(s, Say(id, "hi"), NOW) == Publish(s, c.room, Hello(c.username), c.username)
    ensures StartWork(s, Say(id, "hi"), NOW) == [Post(ClientOf(s, id).room, Hello(ClientOf(s, id).username), ClientOf(s, id).username)]
    ensures StartEffect(s, Say(id, "hi"), NOW) == s
  {
    hide Publish, TrimSpace, ByteLen;
    ShortHello();
  }

  lemma ShortHello()
    ensures TrimSpace("hi") != "" && ByteLen("hi") <= 2048
  {
    hide TrimSpace;
    NothingToTrim("hi");
    assert "hi"[1..] == "i" && "i"[1..] == "";
    assert ByteLen("i") == CharBytes('i') + ByteLen("");
  }

  // ---------- put back by a rename ----------

  /** Guest 0 has begun a rename; it is kicked; guest 1's chat is recorded and broadcast; the rename goes on. */
  lemma RenamedBack(y: System, s: Server) returns (z: System, e: Event)
    requires y.server == s && Pair(s) && Idle(y) && Stamped(y)
    ensures Reaches(y, z, ANY_WAY) && Misses(z, 0, DEFAULT_ROOM, e) && DEFAULT_ROOM in z.ledger.extra
  {
    hide Reaches, Stamped, Members, History, Name, Names, Kicked0, Publish, CanStart, StartEffect, StartWork, KickTarget, Hello, Pair, Step, Enabled;
    PairNames();
    AfterKick(s);
    PairFields(s);
    RenameStarts(y);
    var y1 := BeginTick(y, Rename(0, Name(2)), NOW, ANY_WAY);
    KickStarts(y1);
    var y2 := LoneCommand(y1, KICK0.0, NOW, ANY_WAY);
    var k := Kicked0(s);
    HelloIsSaid(k, 1);
    var y3 := LoneCommand(y2, Say(1, "hi"), NOW, ANY_WAY);
    z := GoTick(y3, Handler(0), NOW, ANY_WAY);
    ReachesTrans(y, y1, y2, ANY_WAY);
    ReachesTrans(y, y2, y3, ANY_WAY);
    ReachesTrans(y, y3, z, ANY_WAY);
    e := EventOf(k, DEFAULT_ROOM, Hello(Name(1)));
    SaidAlone(k, e);
    assert e.msg.kind.Chat? by { ChatHello(k, Name(1)); }
    NotSentYet(y, s, k, e);
    BackInPlace(y3, z, k, e);
  }

  lemma PairFields(s: Server)
    requires Pair(s)
    ensures s.clients == Names(2) && s.rooms.Keys == {DEFAULT_ROOM} && Members(s, DEFAULT_ROOM) == Names(2)
    ensures 0 in s.conns && 1 in s.conns && ClientOf(s, 0) == Guest(0, true) && ClientOf(s, 1) == Guest(1, true)
  {
  }

  lemma ChatHello(k: Server, name: string)
    ensures EventOf(k, DEFAULT_ROOM, Hello(name)).msg.kind.Chat?
  {
  }

  lemma RenameStarts(y: System)
    requires WorkOf(y, Handler(0)) == [] && ClientOf(y.server, 0) == Guest(0, true)
    ensures CanStart(y, Rename(0, Name(2))) && StartEffect(y.server, Rename(0, Name(2)), NOW) == y.server
    ensures StartWork(y.server, Rename(0, Name(2)), NOW) == [Rekey(0, Name(2))]
  {
    hide ValidName, Enumerates, Reserved;
    NameIsValid(2);
    assert |Name(2)| == 3 && |Name(0)| == 1;
  }

  /** With the writer alone in the room's index nobody is sent the chat. */
  lemma SaidAlone(k: Server, e: Event)
    requires Members(k, DEFAULT_ROOM) == map[Name(1) := 1] && e == EventOf(k, DEFAULT_ROOM, Hello(Name(1)))
    ensures var p := Publish(k, DEFAULT_ROOM, Hello(Name(1)), Name(1));
            && p.heard == k.heard && p.conns == k.conns && p.clients == k.clients && p.rooms.Keys == k.rooms.Keys + {DEFAULT_ROOM}
            && e in History(p, DEFAULT_ROOM) && Members(p, DEFAULT_ROOM) == map[Name(1) := 1]
  {
    hide Name, Hello;
    PublishRooms(k, DEFAULT_ROOM, Hello(Name(1)), Name(1));
  }

  lemma NotSentYet(y: System, s: Server, k: Server, e: Event)
    requires y.server == s && Stamped(y) && k.stamps == s.stamps + 1 && e.stamp == k.stamps
    requires forall p <- k.heard :: p in s.heard || p.1.stamp == s.stamps
    ensures (0, e) !in k.heard && (0, e) !in y.own
  {
    forall p | p in s.heard || p in y.own ensures p.1.stamp < s.stamps { assert Old(s, p.1); }
  }

  /** The rename puts guest 0 back under its new name. */
  lemma BackInPlace(y: System, z: System, k: Server, e: Event)
    requires y.server == Publish(k, DEFAULT_ROOM, Hello(Name(1)), Name(1)) && WorkOf(y, Handler(0)) == [Rekey(0, Name(2))]
    requires z == Continued(y, Handler(0), ANY, NOW)
    requires forall th :: th != Handler(0) ==> WorkOf(y, th) == []
    requires var p := y.server;
             && p.conns == k.conns && 0 in k.conns && ClientOf(k, 0) == Guest(0, true).(reason := Kicked, closed := true)
             && p.clients == map[Name(1) := 1] && p.rooms.Keys == {DEFAULT_ROOM} && Members(p, DEFAULT_ROOM) == map[Name(1) := 1]
             && e in History(p, DEFAULT_ROOM) && e.msg.kind.Chat? && (0, e) !in p.heard && (0, e) !in y.own
    ensures Misses(z, 0, DEFAULT_ROOM, e) && DEFAULT_ROOM in z.ledger.extra
  {
    hide Name, Publish, Hello;
    var p := y.server;
    assert |Name(2)| == 3 && |Name(1)| == 2 && |Name(0)| == 1;
    NameIsValid(2);
    RekeyMembers(p, 0, Name(2), DEFAULT_ROOM);
    EffectClient(p, Rekey(0, Name(2)), ANY, 0);
    RenameHistories(p, 0, Name(0), Name(2));
    var after := Next(p, Rekey(0, Name(2)), ANY, NOW);
    RekeyNext(p, 0, Name(2));
    assert [Rekey(0, Name(2))][1..] == [] && after + [] == after;
    assert WorkOf(z, Handler(0)) == after;
    hide Next;
    OwesNothing(after);
    forall th | th != Handler(0) ensures WorkOf(z, th) == [] { assert WorkOf(z, th) == WorkOf(y, th); }
    NothingToTell(z, Handler(0), DEFAULT_ROOM, e);
  }

  /** Where every list but one is empty, only that one could still hold the broadcast. */
  lemma NothingToTell(y: System, mine: Thread, room: string, e: Event)
    requires forall th :: th != mine ==> WorkOf(y, th) == []
    requires forall w <- WorkOf(y, mine) :: !w.Tell?
    ensures !TellPending(y, room, e)
  {
    hide WorkOf;
    forall th, w | w in WorkOf(y, th) ensures !TellOf(w, room, e) {
      assert th == mine;
    }
  }

  lemma RekeyNext(s: Server, id: ConnId, name: string)
    ensures forall w <- Next(s, Rekey(id, name), ANY, NOW) :: w.AdminRekey? || w.Post?
  {
  }

  lemma {:induction false} OwesNothing(ws: seq<Work>)
    requires forall w <- ws :: !w.Snapshot?
    ensures !Owes(ws)
  {
    if ws != [] {
      assert ws[0] in ws && forall w <- ws[1..] :: w in ws;
      OwesNothing(ws[1..]);
    }
  }

  /** From a fresh server: a member that a kick took out while it was renaming itself is back, counted as one beyond the
      departures, and lacks a chat of its room for good. */
  lemma RevivedMemberMissesChat()
    ensures exists trace, e :: Feasible(FreshSystem({}), trace) && Misses(AfterTrace(FreshSystem({}), trace), 0, DEFAULT_ROOM, e)
                               && LeftOut(FreshSystem({}), trace, 0, e)
                               && DEFAULT_ROOM in AfterTrace(FreshSystem({}), trace).ledger.extra
  {
    hide Feasible, AfterTrace, Reaches, FreshSystem, Possible, After, Hall, Misses, Stamped, Owned, LeftOut, Pair;
    forall s | Hall(s, 2, 2) ensures Possible(s, []) && After(s, []) == s && After(s, []).admitted == [] { NothingMore(s); assert Hall(s, 2, 2); HallFields(s, 2, 2); }
    var y, s := OpenHall(2, 2, []);
    NothingMore(s);
    HallPair(s);
    ReachesStamped({}, y, Mode(true, true));
    ReachesWeaker(FreshSystem({}), y, ANY_WAY);
    var z, e := RenamedBack(y, s);
    ReachesTrans(FreshSystem({}), y, z, ANY_WAY);
    var trace := TraceOf(FreshSystem({}), z, ANY_WAY);
    MissedIsLeftOut(trace, 0, e);
  }

  /** Whoever misses a chat was left out at its broadcast. */
  lemma MissedIsLeftOut(trace: Trace, id: ConnId, e: Event)
    requires Feasible(FreshSystem({}), trace) && Misses(AfterTrace(FreshSystem({}), trace), id, DEFAULT_ROOM, e)
    ensures LeftOut(FreshSystem({}), trace, id, e)
  {
    hide Feasible, AfterTrace, LeftOut, Wrote, TellPending, Attached;
    NoChatIsLost({}, trace, id, DEFAULT_ROOM, e);
    FreshMissed({});
    ObservedInTrace(FreshSystem({}), trace, id, e);
  }

  lemma FreshMissed(admins: set<string>)
    ensures FreshSystem(admins).missed == {} && FreshSystem(admins).absent == {}
  {
  }

  // ---------- bearing the writer's name ----------

  /** Guest 0's chat is recorded, its broadcast still to come, and guest 0 is kicked. */
  lemma KickedInChat(y: System, s: Server) returns (z: System, k: Server, e: Event)
    requires y.server == s && Pair(s) && Idle(y) && Stamped(y)
    ensures Reaches(y, z, ANY_WAY) && z.server == k && e.msg.kind.Chat? && e.stamp < k.stamps
    ensures OthersKept(y, z, Handler(0)) && WorkOf(z, Handler(0)) == [Tell(DEFAULT_ROOM, e, Name(0))]
    ensures 1 in k.conns && ClientOf(k, 1) == Guest(1, true)
    ensures k.clients == map[Name(1) := 1] && k.rooms.Keys == {DEFAULT_ROOM} && Members(k, DEFAULT_ROOM) == map[Name(1) := 1]
    ensures e in History(k, DEFAULT_ROOM) && (1, e) !in k.heard && (1, e) !in z.own
  {
    hide Reaches, Stamped, Members, History, Name, Names, Kicked0, Publish, Record, CanStart, StartEffect, StartWork, KickTarget, Hello, Pair, Step, Enabled;
    PairNames();
    PairFields(s);
    HelloIsSaid(s, 0);
    HelloStarts(y);
    e := EventOf(s, DEFAULT_ROOM, Hello(Name(0)));
    var y1 := BeginTick(y, Say(0, "hi"), NOW, ANY_WAY);
    var y2 := GoTick(y1, Handler(0), NOW, ANY_WAY);
    assert [Post(DEFAULT_ROOM, Hello(Name(0)), Name(0))][1..] == [];
    var r := Record(s, DEFAULT_ROOM, Hello(Name(0)));
    RecordedPair(s, Hello(Name(0)));
    AfterKick(r);
    PairFields(r);
    KickStarts(y2);
    z := LoneCommand(y2, KICK0.0, NOW, ANY_WAY);
    k := Kicked0(r);
    ReachesTrans(y, y1, y2, ANY_WAY);
    ReachesTrans(y, y2, z, ANY_WAY);
    assert e.msg.kind.Chat? by { ChatHello(s, Name(0)); }
    OlderThan(y, s, e);
  }

  /** Guest 0's chat is recorded; it is kicked; guest 1 takes its name; the broadcast goes on. */
  lemma NameTakenOver(y: System, s: Server) returns (z: System, e: Event)
    requires y.server == s && Pair(s) && Idle(y) && Stamped(y)
    ensures Reaches(y, z, ANY_WAY) && Misses(z, 1, DEFAULT_ROOM, e)
  {
    hide Reaches, Stamped, Members, History, Name, Names, Pair, Step, Enabled, Misses, Effect, Next, ClientOf;
    var x, k, e0 := KickedInChat(y, s);
    e := e0;
    TakesName0(k, e);
    var x2 := LoneCommand(x, Rename(1, Name(0)), NOW, ANY_WAY);
    z := GoTick(x2, Handler(0), NOW, ANY_WAY);
    ReachesTrans(y, x, x2, ANY_WAY);
    ReachesTrans(y, x2, z, ANY_WAY);
    ToldUnderName(x2, z, e);
  }

  lemma HelloStarts(y: System)
    requires WorkOf(y, Handler(0)) == [] && InSession(y.server, 0)
    ensures CanStart(y, Say(0, "hi"))
  {
    hide Enumerates;
  }

  lemma RecordedPair(s: Server, m: Message)
    requires Pair(s)
    ensures var r := Record(s, DEFAULT_ROOM, m);
            && Pair(r) && r.stamps == s.stamps + 1 && r.heard == s.heard && r.conns == s.conns
            && EventOf(s, DEFAULT_ROOM, m) in History(r, DEFAULT_ROOM)
  {
    hide Name, Names;
  }

  lemma OlderThan(y: System, s: Server, e: Event)
    requires y.server == s && Stamped(y) && e.stamp == s.stamps
    ensures (forall p <- s.heard :: p.1 != e) && (forall p <- y.own :: p.1 != e)
  {
    forall p | p in s.heard || p in y.own ensures p.1.stamp < s.stamps { assert Old(s, p.1); }
  }

  /** Guest 1 takes the name the kick has set free. */
  lemma TakesName0(k: Server, e: Event)
    requires 1 in k.conns && ClientOf(k, 1) == Guest(1, true)
    requires k.clients == map[Name(1) := 1] && k.rooms.Keys == {DEFAULT_ROOM} && Members(k, DEFAULT_ROOM) == map[Name(1) := 1]
    requires e in History(k, DEFAULT_ROOM)
    ensures Enabled(k, Rename(1, Name(0)), NOW)
    ensures var q := Step(k, Rename(1, Name(0)), NOW);
            && ClientOf(q, 1).username == Name(0) && ClientOf(q, 1).room == DEFAULT_ROOM
            && Members(q, DEFAULT_ROOM) == map[Name(0) := 1] && e in History(q, DEFAULT_ROOM)
            && (forall p <- q.heard :: p in k.heard || p.1.stamp == k.stamps)
  {
    hide Name, Publish, RenameClient, Members, History, ValidName, Reserved;
    NameIsValid(0);
    assert |Name(0)| == 1 && |Name(1)| == 2;
    RekeyMembers(k, 1, Name(0), DEFAULT_ROOM);
    RenameHistories(k, 1, Name(1), Name(0));
    RenameOk(k, 1, Name(1), Name(0));
    RenamedClient(k, 1, Name(0));
    var t := RenameClient(k, 1, Name(1), Name(0)).0;
    var m := Note(NOW, NameChange, Name(0), "", Name(1));
    PublishRooms(t, DEFAULT_ROOM, m, "");
    PublishHeard(t, DEFAULT_ROOM, m, "");
  }

  lemma RenamedClient(s: Server, id: ConnId, name: string)
    requires CanRekey(s, name)
    ensures var t := RenameClient(s, id, ClientOf(s, id).username, name).0;
            t.conns == s.conns[id := ClientOf(s, id).(username := name)] && t.heard == s.heard && t.stamps == s.stamps
  {
  }

  lemma PublishHeard(s: Server, room: string, m: Message, exclude: string)
    ensures var t := Publish(s, room, m, exclude); t.conns == s.conns && forall p <- t.heard :: p in s.heard || p.1.stamp == s.stamps
  {
  }

  /** The broadcast excludes the name its writer had. */
  lemma ToldUnderName(y: System, z: System, e: Event)
    requires WorkOf(y, Handler(0)) == [Tell(DEFAULT_ROOM, e, Name(0))] && z == Continued(y, Handler(0), ANY, NOW)
    requires forall th :: th != Handler(0) ==> WorkOf(y, th) == []
    requires var q := y.server;
             && ClientOf(q, 1).username == Name(0) && ClientOf(q, 1).room == DEFAULT_ROOM && Members(q, DEFAULT_ROOM) == map[Name(0) := 1]
             && e in History(q, DEFAULT_ROOM) && e.msg.kind.Chat? && (1, e) !in q.heard && (1, e) !in y.own
    ensures Misses(z, 1, DEFAULT_ROOM, e)
  {
    hide Name;
    assert [Tell(DEFAULT_ROOM, e, Name(0))][1..] == [];
    assert WorkOf(z, Handler(0)) == [];
    forall th | th != Handler(0) ensures WorkOf(z, th) == [] { assert WorkOf(z, th) == WorkOf(y, th); }
    NothingToTell(z, Handler(0), DEFAULT_ROOM, e);
  }

  /** From a fresh server: a member that takes the writer's name between the record and the broadcast lacks the chat. */
  lemma NamesakeMissesChat()
    ensures exists trace, e :: Feasible(FreshSystem({}), trace) && Misses(AfterTrace(FreshSystem({}), trace), 1, DEFAULT_ROOM, e)
                               && LeftOut(FreshSystem({}), trace, 1, e)
  {
    hide Feasible, AfterTrace, Reaches, FreshSystem, Possible, After, Hall, Misses, Stamped, Owned, LeftOut, Pair;
    forall s | Hall(s, 2, 2) ensures Possible(s, []) && After(s, []) == s && After(s, []).admitted == [] { NothingMore(s); assert Hall(s, 2, 2); HallFields(s, 2, 2); }
    var y, s := OpenHall(2, 2, []);
    NothingMore(s);
    HallPair(s);
    ReachesStamped({}, y, Mode(true, true));
    ReachesWeaker(FreshSystem({}), y, ANY_WAY);
    var z, e := NameTakenOver(y, s);
    ReachesTrans(FreshSystem({}), y, z, ANY_WAY);
    var trace := TraceOf(FreshSystem({}), z, ANY_WAY);
    MissedIsLeftOut(trace, 1, e);
  }
}
