/** Ten members is not an invariant of a room: two ways past it (server/handler.go, commands.go). */
module Overfull {
  import opened Messages
  import opened ServerState
  import opened Commands
  import opened Ownership
  import opened Queues
  import opened QueueRuns
  import opened Bans
  import opened Sections
  import opened Capacity
  import opened CalmRuns
  import OwnershipRuns
  import Indexes
  import Scripts
  import opened Text
  import opened Lift
  import opened Halls
  import opened Atomic

  /** Two newcomers that enter a room with one free place. */
  lemma TwoJoins(s: Server, a: ConnId, b: ConnId, room: string)
    requires a != b && room != "" && |Members(s, room)| == MAX_ACTIVE - 1
    requires ClientOf(s, a).room == "" && ClientOf(s, b).room == "" && ClientOf(s, a).username != ClientOf(s, b).username
    requires ClientOf(s, a).username !in Members(s, room) && ClientOf(s, b).username !in Members(s, room)
    ensures |Members(Effect(Effect(s, Move(a, room), ANY), Move(b, room), ANY), room)| == MAX_ACTIVE + 1
  {
    hide Effect, Members;
    var t := Effect(s, Move(a, room), ANY);
    EffectIndexes(s, Move(a, room), ANY, room);
    EffectIndexes(t, Move(b, room), ANY, room);
    Scripts.EffectClient(s, Move(a, room), ANY, b);
    AddOne(Members(s, room), ClientOf(s, a).username, a);
    AddOne(Members(t, room), ClientOf(s, b).username, b);
  }

  /** A guest without a seat chooses the default room. */
  lemma ChoosesDefault(y: System, id: ConnId, mode: Mode) returns (z: System)
    requires ClientOf(y.server, id).stage.Choosing? && !y.server.shuttingDown && WorkOf(y, Handler(id)) == []
    ensures Reaches(y, z, mode) && OthersKept(y, z, Handler(id)) && z.server == y.server && WorkOf(z, Handler(id)) == [Check(id, DEFAULT_ROOM)]
    ensures z.ledger == y.ledger
  {
    hide Reaches, CanStart, StartEffect, StartWork;
    ChooseStarts(y, id);
    z := BeginTick(y, ChooseRoom(id, ""), NOW, mode);
  }

  lemma ChooseStarts(y: System, id: ConnId)
    requires ClientOf(y.server, id).stage.Choosing? && !y.server.shuttingDown && WorkOf(y, Handler(id)) == []
    ensures CanStart(y, ChooseRoom(id, "")) && CalmTick(Begin(ChooseRoom(id, ""), NOW))
    ensures StartEffect(y.server, ChooseRoom(id, ""), NOW) == y.server
    ensures StartWork(y.server, ChooseRoom(id, ""), NOW) == [Check(id, DEFAULT_ROOM)]
  {
    hide StartWork, StartEffect;
    hide Enumerates, InSession;
    ChooseWork(y.server, id);
  }

  lemma ChooseWork(s: Server, id: ConnId)
    requires !s.shuttingDown
    ensures StartEffect(s, ChooseRoom(id, ""), NOW) == s
    ensures StartWork(s, ChooseRoom(id, ""), NOW) == [Check(id, DEFAULT_ROOM)]
  {
    hide ValidName, GivingUp, TrimSpace;
    assert TrimSpace("") == "" by { NothingTrimmed(); }
    DefaultIsValid();
  }

  lemma NothingTrimmed()
    ensures TrimSpace("") == ""
  {
  }

  /** The check passes. */
  lemma Passes(y: System, id: ConnId, mode: Mode) returns (z: System)
    requires WorkOf(y, Handler(id)) == [Check(id, DEFAULT_ROOM)] && HasCapacity(y.server, DEFAULT_ROOM)
    requires mode.apart ==> Grants(y, DEFAULT_ROOM) == {}
    ensures Reaches(y, z, mode) && OthersKept(y, z, Handler(id)) && z.server == y.server
    ensures WorkOf(z, Handler(id)) == Entering(y.server, id, DEFAULT_ROOM, NOW)
  {
    hide Reaches, HasCapacity, Entering;
    z := GoTick(y, Handler(id), NOW, mode);
    assert Entering(y.server, id, DEFAULT_ROOM, NOW) + [] == Entering(y.server, id, DEFAULT_ROOM, NOW);
    assert [Check(id, DEFAULT_ROOM)][1..] == [];
  }

  lemma EnteringHead(s: Server, id: ConnId, room: string, now: Moment)
    ensures Entering(s, id, room, now) != [] && Entering(s, id, room, now)[0] == Move(id, room)
  {
  }

  /** The join. */
  lemma Joins(y: System, id: ConnId, mode: Mode) returns (z: System)
    requires WorkOf(y, Handler(id)) != [] && WorkOf(y, Handler(id))[0] == Move(id, DEFAULT_ROOM)
    ensures Reaches(y, z, mode) && OthersKept(y, z, Handler(id)) && z.server == Effect(y.server, Move(id, DEFAULT_ROOM), ANY)
  {
    hide Reaches, Effect, ApartNow;
    NoGrant(y, Handler(id));
    z := GoTick(y, Handler(id), NOW, mode);
  }

  /** A hall inside the interleaved system, reached without kicks and with places handed out one at a time. */
  lemma OpenHall(n: nat, k: nat, more: Run) returns (y: System, s: Server)
    requires n <= k <= 32 && n <= MAX_ACTIVE && Gentle(more)
    requires forall s :: Hall(s, n, k) ==> Possible(s, more) && After(s, more).admitted == []
    ensures Hall(s, n, k) && Owned(s) && Possible(s, more) && y.server == After(s, more)
    ensures Reaches(FreshSystem({}), y, Mode(true, true)) && Idle(y) && Scripts.ScriptsOk(y)
  {
    hide Possible, After, Hall, Reaches, Owned;
    var run := HallRun(n, k);
    s := After(Fresh({}), run);
    HallOwned(run);
    RunConcat(Fresh({}), run, more);
    Scripts.FreshScripts({});
    assert Gentle(run + more);
    y := GentleCommands(FreshSystem({}), run + more);
    ReachesScripts(FreshSystem({}), y, Mode(true, true));
  }

  /** Both checks pass before either join. */
  lemma BothPass(y: System, a: ConnId, b: ConnId, mode: Mode) returns (z: System)
    requires a != b && Idle(y) && !y.server.shuttingDown && HasCapacity(y.server, DEFAULT_ROOM) && !mode.apart
    requires ClientOf(y.server, a).stage.Choosing? && ClientOf(y.server, b).stage.Choosing?
    ensures Reaches(y, z, mode) && z.server == y.server
    ensures WorkOf(z, Handler(a)) == Entering(y.server, a, DEFAULT_ROOM, NOW) && WorkOf(z, Handler(b)) == Entering(y.server, b, DEFAULT_ROOM, NOW)
  {
    hide Reaches, Entering, HasCapacity;
    var y1 := ChoosesDefault(y, a, mode);
    var y2 := ChoosesDefault(y1, b, mode);
    ReachesTrans(y, y1, y2, mode);
    var y3 := Passes(y2, a, mode);
    ReachesTrans(y, y2, y3, mode);
    z := Passes(y3, b, mode);
    ReachesTrans(y, y3, z, mode);
  }

  lemma BothJoin(y: System, a: ConnId, b: ConnId, mode: Mode) returns (z: System)
    requires a != b && WorkOf(y, Handler(a)) == Entering(y.server, a, DEFAULT_ROOM, NOW)
    requires WorkOf(y, Handler(b)) == Entering(y.server, b, DEFAULT_ROOM, NOW)
    ensures Reaches(y, z, mode) && z.server == Effect(Effect(y.server, Move(a, DEFAULT_ROOM), ANY), Move(b, DEFAULT_ROOM), ANY)
  {
    hide Reaches, Entering, Effect;
    EnteringHead(y.server, a, DEFAULT_ROOM, NOW);
    EnteringHead(y.server, b, DEFAULT_ROOM, NOW);
    var y1 := Joins(y, a, mode);
    z := Joins(y1, b, mode);
    ReachesTrans(y, y1, z, mode);
  }

  /** Two newcomers whose checks both see the last free place both take it: eleven members, without any kick or ban. */
  lemma OverlappingChecksOverfill()
    ensures exists trace :: Feasible(FreshSystem({}), trace) && CalmTrace(trace)
                            && |Members(AfterTrace(FreshSystem({}), trace).server, DEFAULT_ROOM)| == MAX_ACTIVE + 1
  {
    hide Feasible, AfterTrace, CalmTrace, Reaches, FreshSystem, Effect, Members, Entering, Possible, After;
    var mode := Mode(true, false);
    forall s | Hall(s, 9, 11) ensures Possible(s, []) && After(s, []) == s && After(s, []).admitted == [] { NothingMore(s); }
    var y, s := OpenHall(9, 11, []);
    NothingMore(s);
    ReachesWeaker(FreshSystem({}), y, mode);
    assert ClientOf(s, 9) == Guest(9, false) && ClientOf(s, 10) == Guest(10, false);
    NamesOf(9);
    assert |Members(s, DEFAULT_ROOM)| == 9;
    var y4 := BothPass(y, 9, 10, mode);
    var y6 := BothJoin(y4, 9, 10, mode);
    TwoJoins(s, 9, 10, DEFAULT_ROOM);
    ReachesTrans(y, y4, y6, mode);
    ReachesTrans(FreshSystem({}), y, y6, mode);
    var trace := TraceOf(FreshSystem({}), y6, mode);
    assert CalmTrace(trace);
  }

  lemma NothingMore(s: Server)
    ensures Possible(s, []) && After(s, []) == s
  {
  }

  /** A kick followed by the end of the kicked connection's handler admits two waiting connections for one departure. */
  lemma KickAdmitsTwice(s: Server, name: string, issuer: string, now: Moment)
    requires Owned(s) && !s.shuttingDown && name in s.clients && ClientOf(s, s.clients[name]).stage.Active?
    requires NotQueued(s, s.clients[name])
    requires |LiveTickets(s, Queue(s, ClientOf(s, s.clients[name]).room))| >= 2
    ensures var id := s.clients[name];
            var room := ClientOf(s, id).room;
            var u := Cleanup(KickTarget(s, name, issuer, now), id, now);
            && u.admitted == s.admitted + LiveTickets(s, Queue(s, room))[..2]
            && |Members(u, room)| == |Members(s, room)| - 1
  {
    hide Owned, Expel, LiveTickets, Admit, DeleteRoomIfEmpty, ValidName, Members, Cleanup, Queue;
    var id := s.clients[name];
    var room := ClientOf(s, id).room;
    OfKey(s, name);
    KeyRegistered(s, name);
    var cooled := AddKickCooldown(Expel(s, id, name, Kicked, issuer, now), ClientOf(s, id).host, now.clock);
    var t := KickTarget(s, name, issuer, now);
    KickedOut(s, id, name, issuer, now);
    TwoAdmissions(cooled, room);
    OwnershipRuns.AdmitConns(cooled, room);
    SameConns(cooled, t);
    CleanedUp(t, id, now);
    RemoveOne(Members(s, room), name);
  }

  lemma TwoAdmissions(s: Server, room: string)
    requires !s.shuttingDown && |LiveTickets(s, Queue(s, room))| >= 2
    ensures var v := DeleteRoomIfEmpty(Admit(Admit(s, room), room), room);
            v.admitted == s.admitted + LiveTickets(s, Queue(s, room))[..2] && Members(v, room) == Members(s, room)
  {
    hide Admit, DeleteRoomIfEmpty, LiveTickets, Members, SameLinks;
    AdmitTimesEffect(s, room, 2);
    AdmitTimesLinks(s, room, 2);
    assert AdmitTimes(s, room, 2) == Admit(Admit(s, room), room) by { assert AdmitTimes(s, room, 1) == Admit(s, room); }
    var t := AdmitTimes(s, room, 2);
    LinkMembers(s, t);
    DeleteLinks(t, room);
    LinkMembers(t, DeleteRoomIfEmpty(t, room));
    DeleteAdmitted(t, room);
  }

  lemma DeleteAdmitted(s: Server, room: string)
    ensures DeleteRoomIfEmpty(s, room).admitted == s.admitted
  {
  }

  lemma CleanedUp(t: Server, id: ConnId, now: Moment)
    requires Moderated(ClientOf(t, id))
    ensures var u, v := Cleanup(t, id, now), DeleteRoomIfEmpty(Admit(t, ClientOf(t, id).room), ClientOf(t, id).room);
            u.admitted == v.admitted && forall room :: Members(u, room) == Members(v, room)
  {
    hide Admit, DeleteRoomIfEmpty;
  }

  /** The state once the target is out, before anybody is admitted. */
  lemma KickedOut(s: Server, id: ConnId, name: string, issuer: string, now: Moment)
    requires Owned(s) && id in s.conns && Registered(s, id) && name == ClientOf(s, id).username && NotQueued(s, id)
    ensures var room := ClientOf(s, id).room;
            var t := AddKickCooldown(Expel(s, id, name, Kicked, issuer, now), ClientOf(s, id).host, now.clock);
            && t.admitted == s.admitted && t.shuttingDown == s.shuttingDown
            && LiveTickets(t, Queue(t, room)) == LiveTickets(s, Queue(s, room))
            && Members(t, room) == Members(s, room) - {name}
            && ClientOf(t, id).room == room && ClientOf(t, id).reason.Kicked?
  {
    hide Owned, Expel, SameLinks, LiveTickets, Members;
    var t := Expel(s, id, name, Kicked, issuer, now);
    ExpelData(s, id, name, Kicked, issuer, now);
    ExpelledShape(s, id, Kicked);
    ExpelLinks(s, id, name, Kicked, issuer, now);
    LinkMembers(ExpelledLinks(s, id, name, Kicked), t);
    KickKeepsShutdown(s, id, name, issuer, now);
    var room := ClientOf(s, id).room;
    var u := AddKickCooldown(t, ClientOf(s, id).host, now.clock);
    RoomsMembers(t, u, room);
    assert Queue(u, room) == Queue(s, room);
    SameLive(s, u, Queue(s, room));
  }

  lemma KickKeepsShutdown(s: Server, id: ConnId, name: string, issuer: string, now: Moment)
    ensures Expel(s, id, name, Kicked, issuer, now).shuttingDown == s.shuttingDown
  {
  }

  // ---------- waiting guests ----------

  /** A guest that finds the room full takes a place in the queue. */
  function Queued(s: Server, id: ConnId): Server {
    var t := Enqueue(s, id, DEFAULT_ROOM);
    WithClient(t, id, ClientOf(t, id).(stage := Asked(DEFAULT_ROOM, |s.tickets|)))
  }

  lemma QueueStep(s: Server, id: ConnId)
    requires ClientOf(s, id).stage.Choosing? && !s.shuttingDown && !HasCapacity(s, DEFAULT_ROOM)
    ensures Enabled(s, ChooseRoom(id, ""), NOW) && Step(s, ChooseRoom(id, ""), NOW) == Queued(s, id)
  {
    hide EnterRoom, ValidName, HasCapacity, TrimSpace, Enqueue;
    NothingTrimmed();
    DefaultIsValid();
  }

  lemma QueuedFields(s: Server, id: ConnId)
    requires DEFAULT_ROOM in s.rooms
    ensures var t := Queued(s, id);
            && t.conns == s.conns[id := ClientOf(s, id).(stage := Asked(DEFAULT_ROOM, |s.tickets|))]
            && t.clients == s.clients && t.rooms.Keys == s.rooms.Keys
            && Members(t, DEFAULT_ROOM) == Members(s, DEFAULT_ROOM)
            && Queue(t, DEFAULT_ROOM) == Queue(s, DEFAULT_ROOM) + [Entry(id, |s.tickets|)]
            && t.tickets == s.tickets + [Ticket(DEFAULT_ROOM, id)] && t.admitted == s.admitted && t.shuttingDown == s.shuttingDown
  {
  }

  const WAIT10: (Action, Moment) := (ChooseRoom(10, ""), NOW)
  const WAIT11: (Action, Moment) := (ChooseRoom(11, ""), NOW)

  /** Ten guests sit, two wait. */
  lemma FullHouse(s: Server)
    requires Hall(s, 10, 12)
    ensures !HasCapacity(s, DEFAULT_ROOM) && ClientOf(s, 10) == Guest(10, false) && ClientOf(s, 11) == Guest(11, false) && ClientOf(s, 0) == Guest(0, true)
    ensures |Members(s, DEFAULT_ROOM)| == 10 && Name(0) in s.clients && s.clients[Name(0)] == 0
  {
    hide Name, Names;
    NamesOf(10);
    NamesOf(12);
  }

  lemma TwoWait(s: Server)
    requires Hall(s, 10, 12)
    ensures Possible(s, [WAIT10, WAIT11]) && After(s, [WAIT10, WAIT11]) == Queued(Queued(s, 10), 11)
    ensures After(s, [WAIT10, WAIT11]).admitted == []
  {
    hide Hall, Queued, Enabled, Step, Members, HasCapacity, Name;
    FullHouse(s);
    HallFields(s, 10, 12);
    QueueStep(s, 10);
    var t := Queued(s, 10);
    QueuedFields(s, 10);
    SameCapacity(s, t);
    QueueStep(t, 11);
    QueuedFields(t, 11);
    OneStep(s, ChooseRoom(10, ""), NOW);
    OneStep(t, ChooseRoom(11, ""), NOW);
    RunConcat(s, [WAIT10], [WAIT11]);
    assert [WAIT10] + [WAIT11] == [WAIT10, WAIT11];
  }

  lemma HallFields(s: Server, n: nat, k: nat)
    requires Hall(s, n, k)
    ensures !s.shuttingDown && s.rooms.Keys == {DEFAULT_ROOM} && DEFAULT_ROOM in s.rooms && s.tickets == [] && s.admitted == [] && Queue(s, DEFAULT_ROOM) == []
    ensures forall i: nat :: i < k ==> i in s.conns && ClientOf(s, i) == Guest(i, i < n)
  {
  }

  lemma SameCapacity(s: Server, t: Server)
    requires Members(t, DEFAULT_ROOM) == Members(s, DEFAULT_ROOM)
    ensures HasCapacity(t, DEFAULT_ROOM) == HasCapacity(s, DEFAULT_ROOM)
  {
  }

  const KICK0: (Action, Moment) := (OperatorKick(Name(0), [DEFAULT_ROOM]), NOW)
  const LEAVE0: (Action, Moment) := (Action.Leave(0, false), NOW)

  /** The kick, then the end of the kicked handler, once two guests wait for a seat. */
  lemma KickWhileTwoWait(s: Server, u: Server)
    requires Hall(s, 10, 12) && u == Queued(Queued(s, 10), 11) && Owned(u)
    ensures Possible(u, [KICK0, LEAVE0])
    ensures After(u, [KICK0, LEAVE0]).admitted == [0, 1] && |Members(After(u, [KICK0, LEAVE0]), DEFAULT_ROOM)| == 9
  {
    hide Hall, Owned, Queued, Enabled, Step, Members, HasCapacity, Name, KickTarget, Cleanup, LiveTickets;
    FullHouse(s);
    HallFields(s, 10, 12);
    QueuedFields(s, 10);
    QueuedFields(Queued(s, 10), 11);
    assert NotQueued(u, 0) by { OnlyDefaultQueues(u); }
    assert LiveTickets(u, Queue(u, DEFAULT_ROOM)) == [0, 1] by { TwoLive(u, 10, 11, 0, 1); }
    KickAdmitsTwice(u, Name(0), "Server", NOW);
    var t := KickTarget(u, Name(0), "Server", NOW);
    KickStep(u);
    KickedConn(u, Name(0));
    LeaveStep(t);
    OneStep(u, KICK0.0, NOW);
    OneStep(t, LEAVE0.0, NOW);
    RunConcat(u, [KICK0], [LEAVE0]);
    assert [KICK0] + [LEAVE0] == [KICK0, LEAVE0];
  }

  lemma OnlyDefaultQueues(u: Server)
    requires u.rooms.Keys == {DEFAULT_ROOM} && Queue(u, DEFAULT_ROOM) == [Entry(10, 0), Entry(11, 1)]
    ensures NotQueued(u, 0)
  {
  }

  lemma TwoLive(u: Server, a: ConnId, b: ConnId, i: nat, j: nat)
    requires Queue(u, DEFAULT_ROOM) == [Entry(a, i), Entry(b, j)] && !ClientOf(u, a).closed && !ClientOf(u, b).closed
    ensures LiveTickets(u, Queue(u, DEFAULT_ROOM)) == [i, j]
  {
    var queue := Queue(u, DEFAULT_ROOM);
    assert queue[1..] == [Entry(b, j)] && queue[1..][1..] == [];
    assert LiveTickets(u, queue[1..]) == [j];
  }

  lemma KickStep(u: Server)
    requires Name(0) in u.clients && u.rooms.Keys == {DEFAULT_ROOM}
    ensures Enabled(u, KICK0.0, NOW) && Step(u, KICK0.0, NOW) == KickTarget(u, Name(0), "Server", NOW)
  {
    hide KickTarget;
    assert |Name(0)| == 1;
  }

  lemma KickedConn(u: Server, name: string)
    requires name in u.clients && u.clients[name] in u.conns
    ensures var id, t := u.clients[name], KickTarget(u, name, "Server", NOW);
            id in t.conns && ClientOf(t, id) == ClientOf(u, id).(reason := Kicked, closed := true)
  {
    hide Expel, Admit;
    var id := u.clients[name];
    ExpelLinks(u, id, name, Kicked, "Server", NOW);
    var t := AddKickCooldown(Expel(u, id, name, Kicked, "Server", NOW), ClientOf(u, id).host, NOW.clock);
    OwnershipRuns.AdmitConns(t, ClientOf(u, id).room);
  }

  lemma LeaveStep(t: Server)
    requires 0 in t.conns && ClientOf(t, 0).stage.Active?
    ensures Enabled(t, LEAVE0.0, NOW) && Step(t, LEAVE0.0, NOW) == Cleanup(t, 0, NOW)
  {
    hide Cleanup;
    assert t.conns[0 := t.conns[0]] == t.conns;
    assert WithClient(t, 0, SetReason(ClientOf(t, 0), false)) == t;
  }

  /** It can happen: a kick in a full room lets both waiting guests in. */
  lemma TwoAdmittedForOneKick()
    ensures exists run :: Possible(Fresh({}), run + [KICK0, LEAVE0])
                          && After(Fresh({}), run).admitted == [] && |Members(After(Fresh({}), run), DEFAULT_ROOM)| == 10
                          && After(Fresh({}), run + [KICK0, LEAVE0]).admitted == [0, 1]
                          && |Members(After(Fresh({}), run + [KICK0, LEAVE0]), DEFAULT_ROOM)| == 9
  {
    hide Possible, After, Hall, Owned, Queued, Members, Name;
    var begin := HallRun(10, 12);
    var s := After(Fresh({}), begin);
    var run := begin + [WAIT10, WAIT11];
    TwoWait(s);
    RunConcat(Fresh({}), begin, [WAIT10, WAIT11]);
    var u := After(Fresh({}), run);
    assert Gentle(run);
    HallOwned(run);
    KickWhileTwoWait(s, u);
    RunConcat(Fresh({}), run, [KICK0, LEAVE0]);
    FullHouse(s);
    HallFields(s, 10, 12);
    QueuedFields(s, 10);
    QueuedFields(Queued(s, 10), 11);
  }

  // ---------- a departure that has not been answered yet ----------

  /** What a departing guest still has to do once it is out of the indexes. */
  function Farewell(name: string): Message { Note(NOW, Kind.Leave, name, "", "voluntary") }

  function Parting(name: string): seq<Work> {
    [Post(DEFAULT_ROOM, Farewell(name), name), Refill(DEFAULT_ROOM), Tidy(DEFAULT_ROOM), Quit(0)]
  }

  /** Guest 0 ends its session and is taken out of the indexes. */
  lemma Departs0(y: System) returns (z: System)
    requires Idle(y) && 0 in y.server.conns && ClientOf(y.server, 0) == Guest(0, true)
    ensures Reaches(y, z, Mode(true, true)) && OthersKept(y, z, Handler(0))
    ensures z.server == RemoveClient(y.server, Name(0)) && WorkOf(z, Handler(0)) == Parting(Name(0))
  {
    hide Reaches, RemoveClient, Name, CanStart, StartEffect, StartWork;
    LeaveStarts(y);
    var y1 := BeginTick(y, Action.Leave(0, false), NOW, Mode(true, true));
    z := GoTick(y1, Handler(0), NOW, Mode(true, true));
    assert [] + Parting(Name(0)) == Parting(Name(0));
    ReachesTrans(y, y1, z, Mode(true, true));
  }

  lemma LeaveStarts(y: System)
    requires Idle(y) && 0 in y.server.conns && ClientOf(y.server, 0) == Guest(0, true)
    ensures CanStart(y, Action.Leave(0, false)) && CalmTick(Begin(Action.Leave(0, false), NOW))
    ensures StartEffect(y.server, Action.Leave(0, false), NOW) == y.server
    ensures StartWork(y.server, Action.Leave(0, false), NOW) == [Unregister(Name(0))] + Parting(Name(0))
  {
    hide Name, Enumerates;
    assert y.server.conns[0 := y.server.conns[0]] == y.server.conns;
  }

  /** Recording an event and broadcasting it, with nobody in between. */
  lemma PostsAlone(y: System, th: Thread, room: string, m: Message, exclude: string, rest: seq<Work>, mode: Mode) returns (z: System)
    requires WorkOf(y, th) == [Post(room, m, exclude)] + rest
    ensures Reaches(y, z, mode) && OthersKept(y, z, th) && z.server == Publish(y.server, room, m, exclude) && WorkOf(z, th) == rest
  {
    hide Reaches, Record, BroadcastRoom, ApartNow;
    NoGrant(y, th);
    var y1 := GoTick(y, th, NOW, mode);
    var tell := Tell(room, EventOf(y.server, room, m), exclude);
    assert ([Post(room, m, exclude)] + rest)[1..] == rest;
    assert WorkOf(y1, th) == [tell] + rest;
    NoGrant(y1, th);
    z := GoTick(y1, th, NOW, mode);
    assert ([tell] + rest)[1..] == rest && [] + rest == rest;
    ReachesTrans(y, y1, z, mode);
  }

  lemma RefillsAlone(y: System, th: Thread, room: string, rest: seq<Work>, mode: Mode) returns (z: System)
    requires WorkOf(y, th) == [Refill(room)] + rest
    ensures Reaches(y, z, mode) && OthersKept(y, z, th) && z.server == Admit(y.server, room) && WorkOf(z, th) == rest
  {
    hide Reaches, Admit, ApartNow;
    NoGrant(y, th);
    z := GoTick(y, th, NOW, mode);
    assert ([Refill(room)] + rest)[1..] == rest && [] + rest == rest;
  }

  /** The rest of the departure up to the admission it makes. */
  lemma Refills0(y: System, mode: Mode) returns (z: System)
    requires WorkOf(y, Handler(0)) == Parting(Name(0))
    ensures Reaches(y, z, mode) && OthersKept(y, z, Handler(0))
    ensures z.server == Admit(Publish(y.server, DEFAULT_ROOM, Farewell(Name(0)), Name(0)), DEFAULT_ROOM)
  {
    hide Reaches, Publish, Admit, Name, Farewell;
    var tail := [Tidy(DEFAULT_ROOM), Quit(0)];
    assert Parting(Name(0)) == [Post(DEFAULT_ROOM, Farewell(Name(0)), Name(0))] + ([Refill(DEFAULT_ROOM)] + tail);
    var y1 := PostsAlone(y, Handler(0), DEFAULT_ROOM, Farewell(Name(0)), Name(0), [Refill(DEFAULT_ROOM)] + tail, mode);
    z := RefillsAlone(y1, Handler(0), DEFAULT_ROOM, tail, mode);
    ReachesTrans(y, y1, z, mode);
  }

  /** Only a check hands out a place. */
  lemma NoGrant(y: System, th: Thread)
    requires WorkOf(y, th) != [] && !WorkOf(y, th)[0].Check? && !WorkOf(y, th)[0].CheckSwitch? && !WorkOf(y, th)[0].CheckCreate?
    ensures forall choice, now :: ApartNow(y, Continue(th, choice, now))
  {
  }

  /** Nobody holds a place while a newcomer is at its check and guest 0 is on its way out. */
  lemma NobodyHolds(y: System)
    requires y.server.admitted == [] && WorkOf(y, Handler(0)) == Parting(Name(0)) && WorkOf(y, Handler(11)) == [Check(11, DEFAULT_ROOM)]
    requires forall th :: th != Handler(0) && th != Handler(11) ==> WorkOf(y, th) == []
    ensures Grants(y, DEFAULT_ROOM) == {}
  {
    hide Name, Note;
    forall id ensures !Granted(y, id, DEFAULT_ROOM) { }
  }

  /** The waiting guest says yes and takes the place it has been admitted to. */
  lemma TakesPlace(y: System, id: ConnId, ticket: nat) returns (z: System)
    requires WorkOf(y, Handler(id)) == [] && id in y.server.conns
    requires ClientOf(y.server, id).stage == Asked(DEFAULT_ROOM, ticket) && ticket in y.server.admitted
    ensures Reaches(y, z, Mode(true, true)) && OthersKept(y, z, Handler(id))
    ensures z.server == WithClient(y.server, id, ClientOf(y.server, id).(stage := Waiting(DEFAULT_ROOM, ticket)))
    ensures WorkOf(z, Handler(id)) == Entering(z.server, id, DEFAULT_ROOM, NOW)
  {
    hide Reaches, Entering, CanStart, StartEffect, StartWork;
    YesStarts(y, id, ticket);
    var y1 := BeginTick(y, Answer(id, "yes"), NOW, Mode(true, true));
    SlotStarts(y1, id, ticket);
    z := BeginTick(y1, TakeSlot(id), NOW, Mode(true, true));
    ReachesTrans(y, y1, z, Mode(true, true));
  }

  lemma YesStarts(y: System, id: ConnId, ticket: nat)
    requires WorkOf(y, Handler(id)) == [] && ClientOf(y.server, id).stage == Asked(DEFAULT_ROOM, ticket)
    ensures CanStart(y, Answer(id, "yes")) && CalmTick(Begin(Answer(id, "yes"), NOW))
    ensures StartEffect(y.server, Answer(id, "yes"), NOW)
         == WithClient(y.server, id, ClientOf(y.server, id).(stage := Waiting(DEFAULT_ROOM, ticket)))
    ensures StartWork(y.server, Answer(id, "yes"), NOW) == []
  {
    hide StartEffect, StartWork, Enumerates;
    YesTrimmed();
    YesEffect(y.server, id, ticket);
    YesWork(y.server, id);
  }

  lemma YesEffect(s: Server, id: ConnId, ticket: nat)
    requires ClientOf(s, id).stage == Asked(DEFAULT_ROOM, ticket)
    ensures StartEffect(s, Answer(id, "yes"), NOW) == WithClient(s, id, ClientOf(s, id).(stage := Waiting(DEFAULT_ROOM, ticket)))
  {
    hide TrimSpace, GiveUpStep;
    YesTrimmed();
  }

  lemma YesWork(s: Server, id: ConnId)
    ensures StartWork(s, Answer(id, "yes"), NOW) == []
  {
    hide TrimSpace, GivingUp;
    YesTrimmed();
    assert |"yes"| != |"no"|;
  }

  lemma YesTrimmed()
    ensures TrimSpace("yes") == "yes"
  {
    hide TrimSpace;
    NothingToTrim("yes");
  }

  lemma SlotStarts(y: System, id: ConnId, ticket: nat)
    requires WorkOf(y, Handler(id)) == [] && ClientOf(y.server, id).stage == Waiting(DEFAULT_ROOM, ticket) && ticket in y.server.admitted
    ensures CanStart(y, TakeSlot(id)) && CalmTick(Begin(TakeSlot(id), NOW))
    ensures StartEffect(y.server, TakeSlot(id), NOW) == y.server
    ensures StartWork(y.server, TakeSlot(id), NOW) == Entering(y.server, id, DEFAULT_ROOM, NOW)
  {
    hide Entering, Enumerates;
  }

  /** The server between the departure and the two joins. */
  lemma SeatRefilled(s: Server, q: Server)
    requires Hall(s, 10, 12) && q == Queued(s, 10)
    ensures var r := RemoveClient(q, Name(0));
            var t := Admit(Publish(r, DEFAULT_ROOM, Farewell(Name(0)), Name(0)), DEFAULT_ROOM);
            && r.conns == q.conns && r.admitted == [] && !r.shuttingDown && |Members(r, DEFAULT_ROOM)| == 9
            && t.conns == q.conns && t.admitted == [0] && Members(t, DEFAULT_ROOM) == Names(10) - {Name(0)}
  {
    hide Hall, Queued, Members, Name, Names, RemoveClient, Admit, Publish, SameLinks, LiveTickets, Note, Parting;
    FullHouse(s);
    HallFields(s, 10, 12);
    HallNames(s);
    QueuedFields(s, 10);
    Indexes.RemoveMembers(q, Name(0), DEFAULT_ROOM);
    RemovedRest(q, Name(0));
    NamesOf(10);
    RemoveOne(Names(10), Name(0));
    var r := RemoveClient(q, Name(0));
    var m := Farewell(Name(0));
    var p := Publish(r, DEFAULT_ROOM, m, Name(0));
    PublishData(r, DEFAULT_ROOM, m, Name(0));
    PublishLinks(r, DEFAULT_ROOM, m, Name(0));
    LinkMembers(r, p);
    PublishRest(r, DEFAULT_ROOM, m, Name(0));
    OneLive(p, 10, 0);
    AdmitEffect(p, DEFAULT_ROOM);
    AdmitLinks(p, DEFAULT_ROOM);
    LinkMembers(p, Admit(p, DEFAULT_ROOM));
    assert [] + [0][..1] == [0];
  }

  lemma HallNames(s: Server)
    requires Hall(s, 10, 12)
    ensures s.clients == Names(12) && Members(s, DEFAULT_ROOM) == Names(10)
  {
  }

  lemma RemovedRest(s: Server, name: string)
    ensures var t := RemoveClient(s, name);
            t.conns == s.conns && t.admitted == s.admitted && t.shuttingDown == s.shuttingDown && t.rooms.Keys == s.rooms.Keys
            && Queue(t, DEFAULT_ROOM) == Queue(s, DEFAULT_ROOM)
  {
  }

  lemma PublishRest(s: Server, room: string, m: Message, exclude: string)
    ensures Publish(s, room, m, exclude).shuttingDown == s.shuttingDown && Publish(s, room, m, exclude).conns == s.conns
  {
  }

  lemma OneLive(u: Server, a: ConnId, i: nat)
    requires Queue(u, DEFAULT_ROOM) == [Entry(a, i)] && !ClientOf(u, a).closed
    ensures LiveTickets(u, Queue(u, DEFAULT_ROOM)) == [i]
  {
    assert Queue(u, DEFAULT_ROOM)[1..] == [];
  }

  lemma OneWaits(s: Server)
    requires Hall(s, 10, 12)
    ensures Possible(s, [WAIT10]) && After(s, [WAIT10]) == Queued(s, 10) && After(s, [WAIT10]).admitted == []
  {
    hide Hall, Queued, Enabled, Step, Members, HasCapacity, Name;
    FullHouse(s);
    HallFields(s, 10, 12);
    QueueStep(s, 10);
    QueuedFields(s, 10);
    OneStep(s, ChooseRoom(10, ""), NOW);
  }

  /** A member departs; before its admission call a newcomer's check passes, no other place being out; the admission
      then lets a waiting guest in as well: eleven members, without kicks, with places handed out one at a time. So the
      bound needs the departures that are still unanswered. */
  lemma UnansweredDepartureOverfills()
    ensures exists trace :: Feasible(FreshSystem({}), trace) && CalmTrace(trace) && Apart(FreshSystem({}), trace)
                            && |Members(AfterTrace(FreshSystem({}), trace).server, DEFAULT_ROOM)| == MAX_ACTIVE + 1
  {
    hide Feasible, AfterTrace, CalmTrace, Apart, Reaches, FreshSystem, Members, Possible, After, Hall, Queued, Name, Entering, Effect;
    var mode := Mode(true, true);
    forall s | Hall(s, 10, 12) ensures Possible(s, [WAIT10]) && After(s, [WAIT10]).admitted == [] { OneWaits(s); }
    var y, s := OpenHall(10, 12, [WAIT10]);
    OneWaits(s);
    var z := UnansweredPlaces(s, y);
    ReachesTrans(FreshSystem({}), y, z, mode);
    var trace := TraceOf(FreshSystem({}), z, mode);
  }

  lemma UnansweredPlaces(s: Server, y: System) returns (z: System)
    requires Hall(s, 10, 12) && y.server == Queued(s, 10) && Idle(y)
    ensures Reaches(y, z, Mode(true, true)) && |Members(z.server, DEFAULT_ROOM)| == MAX_ACTIVE + 1
  {
    hide Reaches, Members, Hall, Queued, Name, Names, Entering, Effect, RemoveClient, Admit, Publish, Parting;
    var mode := Mode(true, true);
    FullHouse(s);
    HallFields(s, 10, 12);
    QueuedFields(s, 10);
    SeatRefilled(s, y.server);
    var y2 := Departs0(y);
    var y3 := ChoosesDefault(y2, 11, mode);
    NobodyHolds(y3);
    var y4 := Passes(y3, 11, mode);
    var y7 := Refills0(y4, mode);
    var y9 := TakesPlace(y7, 10, 0);
    EnteringHead(y3.server, 11, DEFAULT_ROOM, NOW);
    EnteringHead(y9.server, 10, DEFAULT_ROOM, NOW);
    var y10 := Joins(y9, 11, mode);
    z := Joins(y10, 10, mode);
    NineNames(y7.server, y9.server);
    TwoJoins(y9.server, 11, 10, DEFAULT_ROOM);
    ReachesTrans(y, y2, y3, mode);
    ReachesTrans(y, y3, y4, mode);
    ReachesTrans(y, y4, y7, mode);
    ReachesTrans(y, y7, y9, mode);
    ReachesTrans(y, y9, y10, mode);
    ReachesTrans(y, y10, z, mode);
  }

  lemma NineNames(s: Server, t: Server)
    requires Members(s, DEFAULT_ROOM) == Names(10) - {Name(0)} && t.rooms == s.rooms
    ensures |Members(t, DEFAULT_ROOM)| == 9 && Name(10) !in Members(t, DEFAULT_ROOM) && Name(11) !in Members(t, DEFAULT_ROOM)
    ensures Name(10) != Name(11)
  {
    hide Names;
    NamesOf(10);
    RemoveOne(Names(10), Name(0));
    assert |Name(10)| != |Name(11)|;
  }
}
