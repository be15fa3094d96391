/** The exceptions of the name results do occur: a name changes hands while its old owner is still choosing a room, an
    admin that this has unregistered loses its stored name, and a plain user takes the stored name of an admin who is away
    (server/handler.go, commands.go, admins.go). */
module ChangedHands {
  import opened Text
  import opened Messages
  import opened ServerState
  import opened Commands
  import opened Ownership
  import opened OwnershipRuns
  import opened Grounds
  import opened Replay
  import opened Admins
  import opened Halls
  import opened Sections
  import opened Atomic
  import Lift
  import Overfull

  /** Everything the name results promise. */
  ghost predicate Sound(s: Server) { Owned(s) && Grounded(s) && Replays(s, map[]) }

  lemma SoundStep(s: Server, a: Action, now: Moment)
    requires Sound(s) && Enabled(s, a, now) && Guard(s, a) && !Exits(s, a) && !a.Midnight?
    ensures Sound(Step(s, a, now))
  {
    hide Owned, Grounded, Replays, Enabled, Step, Guard, Exits, Unrecorded;
    StepOwnedExactly(s, a, now);
    StepGrounded(s, a, now);
    UnrecordedWhileOwned(s, a, now);
    StepReplaysExactly(s, a, now, map[]);
    assert NextBase(map[], s, a, Step(s, a, now)) == map[];
  }

  lemma HallSound(run: Run)
    requires Lift.Gentle(run) && Possible(Fresh({}), run)
    ensures Sound(After(Fresh({}), run))
  {
    hide Owned, Grounded, Replays, Possible, AllHitActive, Calm;
    HallOwned(run);
    FreshOwned({});
    FreshGrounded({});
    FreshReplays({});
    NobodyPends();
    GentleHitsActive(Fresh({}), run);
    ActiveModerationIsRecorded(Fresh({}), run);
    RunGrounded(Fresh({}), run);
    RunReplaysExactly(Fresh({}), run, map[]);
    BaseStaysEmpty(Fresh({}), run);
  }

  lemma NobodyPends()
    ensures Calm(Fresh({}))
  {
  }

  // ---------- a registration taken away ----------

  const CONNECT1: Action := Connect(1, Name(1))
  const NAME1: Action := EnterName(1, Name(0))
  const SEAT1: Action := ChooseRoom(1, "")

  function Outcast(admin: bool): Client { Guest(0, false).(reason := Kicked, closed := true, admin := admin) }

  function Heir(admin: bool): Client { Client(Name(1), Name(0), DEFAULT_ROOM, admin, false, false, Unset, Active) }

  function Stored(admin: bool): set<string> { if admin then {Name(0)} else {} }

  /** Guest 0, alone on the server, is choosing a room. */
  predicate Alone(s: Server, admin: bool) {
    && s.conns == map[0 := Guest(0, false).(admin := admin)] && s.clients == map[Name(0) := 0]
    && s.rooms.Keys == {DEFAULT_ROOM} && Members(s, DEFAULT_ROOM) == map[]
    && s.kicked == map[] && s.banned == {} && !s.shuttingDown && s.admins == Stored(admin)
  }

  lemma HallAlone(s: Server)
    requires Hall(s, 0, 1)
    ensures Alone(s, false)
  {
    hide Name;
    assert Names(1) == map[Name(0) := 0] by { assert Names(0) == map[]; }
    assert ClientOf(s, 0) == Guest(0, false);
  }

  /** Guest 0 is kicked while it chooses a room. */
  lemma KickedWhileChoosing(s: Server, admin: bool)
    requires Alone(s, admin)
    ensures Name(0) in s.clients
    ensures OutcastOnly(KickTarget(s, Name(0), "Server", NOW), admin)
  {
    hide Name;
  }

  predicate OutcastOnly(k: Server, admin: bool) {
    && k.conns == map[0 := Outcast(admin)] && k.clients == map[] && DEFAULT_ROOM in k.rooms && Members(k, DEFAULT_ROOM) == map[]
    && k.kicked.Keys == {Name(0)} && k.banned == {} && !k.shuttingDown && k.admins == Stored(admin)
  }

  /** The outcast is still choosing a room, and its heir has taken its name and a seat. */
  predicate HeirSeated(v: Server, admin: bool) {
    && v.conns == map[0 := Outcast(admin), 1 := Heir(admin)] && v.clients == map[Name(0) := 1]
    && Members(v, DEFAULT_ROOM) == map[Name(0) := 1] && v.kicked.Keys == {Name(0)} && v.banned == {} && !v.shuttingDown && v.admins == Stored(admin)
  }

  lemma HeirComes(k: Server, admin: bool)
    requires OutcastOnly(k, admin)
    ensures Enabled(k, CONNECT1, NOW)
    ensures var t := Step(k, CONNECT1, NOW); Enabled(t, NAME1, NOW)
    ensures var u := Step(Step(k, CONNECT1, NOW), NAME1, NOW);
            Enabled(u, SEAT1, NOW) && ClientOf(u, 1) == Heir(admin).(room := "", stage := Choosing) && !u.shuttingDown
    ensures HeirSeated(Step(Step(Step(k, CONNECT1, NOW), NAME1, NOW), SEAT1, NOW), admin)
  {
    hide Name, ValidName, Enabled, Step, EnterRoom;
    assert |Name(0)| == 1 && |Name(1)| == 2;
    NameIsValid(0);
    Connected(k, 1, Name(1), NOW);
    var t := Step(k, CONNECT1, NOW);
    NameTaken(t, 1, Name(0), NOW);
    var u := Step(t, NAME1, NOW);
    SeatStep(u, 1);
    Seated(u, 1);
  }

  /** A connection is kicked while it chooses a room, and another takes its name and a seat. */
  lemma HeirRun() returns (run: Run)
    ensures Possible(Fresh({}), run) && Sound(After(Fresh({}), run)) && HeirSeated(After(Fresh({}), run), false)
  {
    hide Possible, After, Hall, Sound, Enabled, Step, KickTarget, Guard, Exits, OutcastOnly, HeirSeated, Alone;
    var f := Fresh({});
    run := HallRun(0, 1);
    var s := After(f, run);
    HallSound(run);
    HallAlone(s);
    KickedWhileChoosing(s, false);
    assert s.rooms.Keys == {DEFAULT_ROOM} by { AloneRooms(s, false); }
    Overfull.KickStep(s);
    SoundAlong(s, Overfull.KICK0.0);
    Extend(f, run, Overfull.KICK0.0, NOW);
    run := run + [(Overfull.KICK0.0, NOW)];
    var k := After(f, run);
    HeirComes(k, false);
    SoundAlong(k, CONNECT1);
    Extend(f, run, CONNECT1, NOW);
    run := run + [(CONNECT1, NOW)];
    SoundAlong(After(f, run), NAME1);
    Extend(f, run, NAME1, NOW);
    run := run + [(NAME1, NOW)];
    SeatIsGuarded(After(f, run));
    SoundStep(After(f, run), SEAT1, NOW);
    Extend(f, run, SEAT1, NOW);
    run := run + [(SEAT1, NOW)];
  }

  /** From a fresh server: a connection is kicked while it chooses a room, another takes its name and a seat, and
      everything is in order; then the first one leaves, and the second, never moderated and still in its session, is
      unregistered, the indexes disagree, and the history no longer gives the members. */
  lemma NameChangesHands()
    ensures exists run ::
              && Possible(Fresh({}), run + [(GiveUp(0), NOW)]) && Sound(After(Fresh({}), run))
              && var t := After(Fresh({}), run + [(GiveUp(0), NOW)]);
                 InSession(t, 1) && !Moderated(ClientOf(t, 1)) && !Registered(t, 1) && !Owned(t) && !Replays(t, map[])
  {
    hide Possible, After, Sound, Owned, Enabled, Step, Replays;
    var run := HeirRun();
    Inherited(After(Fresh({}), run));
    Extend(Fresh({}), run, GiveUp(0), NOW);
  }

  /** That exit is a departure which no admission call answers: when all sections have run it is still open. */
  lemma DepartureStaysOpen()
    ensures exists trace ::
              Feasible(FreshSystem({}), trace)
              && var y := AfterTrace(FreshSystem({}), trace); Lift.Idle(y) && DEFAULT_ROOM in y.ledger.owed
  {
    hide Possible, After, Sound, Feasible, AfterTrace, Lift.Reaches, HeirSeated;
    var run := HeirRun();
    var y := Lift.RunIsATrace(FreshSystem({}), run, false);
    var z := OutcastGoes(y);
    Lift.ReachesTrans(FreshSystem({}), y, z, Lift.ANY_WAY);
    var trace := Lift.TraceOf(FreshSystem({}), z, Lift.ANY_WAY);
  }

  lemma OutcastGoes(y: System) returns (z: System)
    requires Lift.Idle(y) && HeirSeated(y.server, false)
    ensures Lift.Reaches(y, z, Lift.ANY_WAY) && Lift.Idle(z) && DEFAULT_ROOM in z.ledger.owed
  {
    hide Lift.Reaches, CanStart, StartEffect, StartWork, Effect, Booked, HeirSeated;
    OutcastWork(y);
    var y1 := Lift.BeginTick(y, GiveUp(0), NOW, Lift.ANY_WAY);
    var y2 := Lift.GoTick(y1, Handler(0), NOW, Lift.ANY_WAY);
    assert [Unregister(Name(0)), Quit(0)][1..] == [Quit(0)] && [Quit(0)][1..] == [];
    OutcastBooked(y1);
    assert [] + [Quit(0)] == [Quit(0)];
    z := Lift.GoTick(y2, Handler(0), NOW, Lift.ANY_WAY);
    QuitBooked(y2);
    Lift.ReachesTrans(y, y1, y2, Lift.ANY_WAY);
    Lift.ReachesTrans(y, y2, z, Lift.ANY_WAY);
  }

  lemma OutcastWork(y: System)
    requires Lift.Idle(y) && HeirSeated(y.server, false)
    ensures CanStart(y, GiveUp(0)) && StartEffect(y.server, GiveUp(0), NOW) == y.server
    ensures StartWork(y.server, GiveUp(0), NOW) == [Unregister(Name(0)), Quit(0)]
  {
    hide Name;
  }

  lemma OutcastBooked(y: System)
    requires HeirSeated(y.server, false)
    ensures DEFAULT_ROOM in Booked(y, Unregister(Name(0)), ANY).owed
  {
    hide Name;
    assert Vacated(y.server, Unregister(Name(0))) == multiset{DEFAULT_ROOM};
  }

  lemma QuitBooked(y: System)
    ensures Booked(y, Quit(0), ANY).owed == y.ledger.owed
  {
    hide Effect;
  }

  lemma SoundAlong(s: Server, a: Action)
    requires Sound(s) && Enabled(s, a, NOW) && (a.OperatorKick? || a.Connect? || a.EnterName?)
    ensures Sound(Step(s, a, NOW))
  {
    hide Sound, Enabled, Step;
    SoundStep(s, a, NOW);
  }

  lemma SeatIsGuarded(s: Server)
    requires ClientOf(s, 1) == Heir(false).(room := "", stage := Choosing) && !s.shuttingDown
    ensures Guard(s, SEAT1) && !Exits(s, SEAT1)
  {
    hide ValidName, HasCapacity;
  }

  /** The exit of the outcast hits the heir. */
  lemma Inherited(s: Server)
    requires Sound(s) && s.conns == map[0 := Outcast(false), 1 := Heir(false)] && s.clients == map[Name(0) := 1]
    ensures Enabled(s, GiveUp(0), NOW)
    ensures var t := Step(s, GiveUp(0), NOW);
            InSession(t, 1) && !Moderated(ClientOf(t, 1)) && !Registered(t, 1) && !Owned(t) && !Replays(t, map[])
  {
    hide Owned, Grounded, Replays, GiveUpStep, Name;
    StolenName(s, 0, 1);
    UnrecordedWhileOwned(s, GiveUp(0), NOW);
    StepReplaysExactly(s, GiveUp(0), NOW, map[]);
    assert NextBase(map[], s, GiveUp(0), Step(s, GiveUp(0), NOW)) == map[];
    HeirUntouched(s);
  }

  lemma HeirUntouched(s: Server)
    requires s.conns == map[0 := Outcast(false), 1 := Heir(false)]
    ensures ClientOf(GiveUpStep(s, 0), 1) == Heir(false)
  {
    hide Name;
  }

  // ---------- an admin that is not stored ----------

  const CONNECT2: Action := Connect(2, Name(2))
  const NAME2: Action := EnterName(2, Name(0))
  const DEMOTE: Action := OperatorDemote(Name(0))
  const AWAY1: Action := Rename(1, Name(1))

  ghost predicate InStep(s: Server) { Grounded(s) && AdminsExact(s) }

  lemma StaysInStep(s: Server, a: Action)
    requires InStep(s) && Enabled(s, a, NOW) && !a.Rename?
    ensures InStep(Step(s, a, NOW))
  {
    hide Grounded, AdminsStored, AdminsExact, Enabled, Step;
    StepGrounded(s, a, NOW);
    StepAdmins(s, a, NOW);
  }

  lemma FreshInStep()
    ensures InStep(Fresh(Stored(true)))
  {
    FreshGrounded(Stored(true));
    FreshAdmins(Stored(true));
  }

  /** The stored admin arrives. */
  lemma AdminArrives(f: Server)
    requires f == Fresh(Stored(true))
    ensures Enabled(f, Connect(0, Name(0)), NOW)
    ensures var t := Step(f, Connect(0, Name(0)), NOW);
            Enabled(t, EnterName(0, Name(0)), NOW) && Alone(Step(t, EnterName(0, Name(0)), NOW), true)
  {
    hide Name, ValidName, Enabled, Step;
    NameIsValid(0);
    Connected(f, 0, Name(0), NOW);
    NameTaken(Step(f, Connect(0, Name(0)), NOW), 0, Name(0), NOW);
  }

  /** The outcast has left and taken its heir's registration along. */
  predicate HeirUnregistered(s: Server) {
    && s.conns == map[0 := Outcast(true).(stage := Finished), 1 := Heir(true)] && s.clients == map[]
    && s.kicked.Keys == {Name(0)} && s.banned == {} && !s.shuttingDown && s.admins == Stored(true)
  }

  lemma OutcastLeaves(s: Server)
    requires HeirSeated(s, true)
    ensures Enabled(s, GiveUp(0), NOW) && HeirUnregistered(Step(s, GiveUp(0), NOW))
  {
    hide Name, RemoveClient;
    RemovedFields(s, Name(0));
    OutcastRemoved(s);
  }

  lemma OutcastRemoved(s: Server)
    ensures var t := RemoveClient(s, Name(0)); t.kicked == s.kicked && t.banned == s.banned && t.shuttingDown == s.shuttingDown
  {
    hide Name;
  }

  /** A third guest takes the name, is an admin by it, and is demoted. */
  lemma NameIsDemoted(s: Server)
    requires HeirUnregistered(s)
    ensures Enabled(s, CONNECT2, NOW)
    ensures var t := Step(s, CONNECT2, NOW); Enabled(t, NAME2, NOW)
    ensures var u := Step(Step(s, CONNECT2, NOW), NAME2, NOW);
            var v := Step(u, DEMOTE, NOW);
            && Enabled(u, DEMOTE, NOW) && Enabled(v, AWAY1, NOW) && RenamesUnstored(v, AWAY1)
  {
    hide Name, ValidName, Enabled, Step, PromoteTarget;
    assert |Name(0)| == 1 && |Name(1)| == 2 && |Name(2)| == 3;
    NameIsValid(0);
    NameIsValid(1);
    Connected(s, 2, Name(2), NOW);
    var t := Step(s, CONNECT2, NOW);
    NameTaken(t, 2, Name(0), NOW);
    var u := Step(t, NAME2, NOW);
    DemoteStep(u, Name(0));
    PromoteFields(u, Name(0), false, "Server", NOW);
    var v := Step(u, DEMOTE, NOW);
    assert ClientOf(v, 1) == Heir(true);
    AwayEnabled(v);
  }

  lemma DemoteStep(s: Server, name: string)
    requires name in s.clients && name != ""
    ensures Enabled(s, OperatorDemote(name), NOW)
    ensures Step(s, OperatorDemote(name), NOW) == PromoteTarget(s, name, false, "Server", NOW)
  {
    hide PromoteTarget;
  }

  lemma AwayEnabled(s: Server)
    requires ClientOf(s, 1) == Heir(true)
    ensures Enabled(s, AWAY1, NOW)
  {
    hide Name;
  }

  /** From a fresh server with one stored admin: the admin is kicked while it chooses a room; its name is taken by another
      connection, which is an admin by it; the exit of the first unregisters the second; a third takes the name and is
      demoted; the second then renames itself. Up to there flags and stored names agree; after it an admin is registered
      whose name is not stored. */
  lemma UnstoredAdminIsRegistered()
    ensures exists run ::
              && Possible(Fresh(Stored(true)), run + [(AWAY1, NOW)]) && AdminsExact(After(Fresh(Stored(true)), run))
              && var t := After(Fresh(Stored(true)), run + [(AWAY1, NOW)]);
                 Name(1) in t.clients && Flag(t, t.clients[Name(1)]) && Name(1) !in t.admins && !AdminsStored(t)
  {
    hide Possible, After, InStep, Enabled, Step, KickTarget, Alone, OutcastOnly, HeirSeated, HeirUnregistered, RenamesUnstored, AdminsStored, AdminsExact;
    var f := Fresh(Stored(true));
    FreshInStep();
    NoStepsFrom(f);
    AdminArrives(f);
    var run := OneMore(f, [], Connect(0, Name(0)));
    run := OneMore(f, run, EnterName(0, Name(0)));
    var s := After(f, run);
    KickedWhileChoosing(s, true);
    AloneRooms(s, true);
    Overfull.KickStep(s);
    run := OneMore(f, run, Overfull.KICK0.0);
    HeirComes(After(f, run), true);
    run := OneMore(f, run, CONNECT1);
    run := OneMore(f, run, NAME1);
    run := OneMore(f, run, SEAT1);
    OutcastLeaves(After(f, run));
    run := OneMore(f, run, GiveUp(0));
    NameIsDemoted(After(f, run));
    run := OneMore(f, run, CONNECT2);
    run := OneMore(f, run, NAME2);
    run := OneMore(f, run, DEMOTE);
    RenamedAway(After(f, run));
    Extend(f, run, AWAY1, NOW);
    assert Possible(f, run + [(AWAY1, NOW)]);
  }

  lemma OneMore(f: Server, run: Run, a: Action) returns (more: Run)
    requires Possible(f, run) && Enabled(After(f, run), a, NOW) && InStep(After(f, run)) && !a.Rename?
    ensures Possible(f, more) && After(f, more) == Step(After(f, run), a, NOW) && InStep(After(f, more))
  {
    hide Possible, After, InStep, Enabled, Step;
    StaysInStep(After(f, run), a);
    Extend(f, run, a, NOW);
    more := run + [(a, NOW)];
  }

  lemma AloneRooms(s: Server, admin: bool)
    requires Alone(s, admin)
    ensures s.rooms.Keys == {DEFAULT_ROOM}
  {
  }

  lemma RenamedAway(s: Server)
    requires InStep(s) && Enabled(s, AWAY1, NOW) && RenamesUnstored(s, AWAY1)
    ensures var t := Step(s, AWAY1, NOW);
            AdminsExact(s) && Name(1) in t.clients && Flag(t, t.clients[Name(1)]) && Name(1) !in t.admins && !AdminsStored(t)
  {
    hide Grounded, AdminsStored, AdminsExact, Step, Renames;
    ExactIsStored(s);
    StepAdmins(s, AWAY1, NOW);
    UnstoredAdmin(s, 1, Name(1), NOW);
  }

  // ---------- an absent admin's name ----------

  const STORED: string := Name(2)
  const TAKE0: Action := Rename(0, STORED)

  ghost predicate InOrder(s: Server) { Owned(s) && Grounded(s) && AdminsExact(s) }

  lemma OrderStep(s: Server, a: Action)
    requires InOrder(s) && Enabled(s, a, NOW) && Guard(s, a) && !TakesAdminName(s, a)
    ensures InOrder(Step(s, a, NOW))
  {
    hide Owned, Grounded, AdminsStored, AdminsExact, Enabled, Step, Guard, TakesAdminName, RenamesUnstored;
    ExactIsStored(s);
    StepOwnedExactly(s, a, NOW);
    StepGrounded(s, a, NOW);
    StoredWhileOwned(s, a, NOW);
    StepAdmins(s, a, NOW);
  }

  /** The guest's way to its seat. */
  lemma SeatedGuest(f: Server)
    requires f == Fresh({STORED})
    ensures Enabled(f, Connect(0, Name(0)), NOW)
    ensures var t := Step(f, Connect(0, Name(0)), NOW); Enabled(t, EnterName(0, Name(0)), NOW)
    ensures var u := Step(Step(f, Connect(0, Name(0)), NOW), EnterName(0, Name(0)), NOW);
            Enabled(u, ChooseRoom(0, ""), NOW) && ClientOf(u, 0) == Guest(0, false)
    ensures var v := Step(Step(Step(f, Connect(0, Name(0)), NOW), EnterName(0, Name(0)), NOW), ChooseRoom(0, ""), NOW);
            v.conns == map[0 := Guest(0, true)] && v.clients == map[Name(0) := 0] && v.admins == {STORED}
  {
    hide Name, ValidName, Enabled, Step, EnterRoom;
    assert |Name(0)| == 1 && |Name(2)| == 3;
    NameIsValid(0);
    Connected(f, 0, Name(0), NOW);
    var t := Step(f, Connect(0, Name(0)), NOW);
    NameTaken(t, 0, Name(0), NOW);
    var u := Step(t, EnterName(0, Name(0)), NOW);
    SeatStep(u, 0);
    Seated(u, 0);
  }

  /** From a fresh server with one stored admin: a plain user connects, takes a seat and renames itself to the stored
      name, which is then registered and stored while its bearer is no admin. */
  lemma PlainUserBearsAdminName()
    ensures exists run ::
              && Possible(Fresh({STORED}), run + [(TAKE0, NOW)]) && InOrder(After(Fresh({STORED}), run))
              && var t := After(Fresh({STORED}), run + [(TAKE0, NOW)]);
                 Owned(t) && STORED in t.clients && STORED in t.admins && !Flag(t, t.clients[STORED]) && AdminsStored(t) && !AdminsExact(t)
  {
    hide Possible, After, InOrder, Owned, Enabled, Step, Guard, AdminsStored, AdminsExact, TakesAdminName;
    var f := Fresh({STORED});
    SeatedGuest(f);
    FreshInOrder();
    var run: Run := [];
    NoStepsFrom(f);
    Onboards(f, Connect(0, Name(0)));
    Extend(f, run, Connect(0, Name(0)), NOW);
    run := run + [(Connect(0, Name(0)), NOW)];
    Onboards(After(f, run), EnterName(0, Name(0)));
    Extend(f, run, EnterName(0, Name(0)), NOW);
    run := run + [(EnterName(0, Name(0)), NOW)];
    Onboards(After(f, run), ChooseRoom(0, ""));
    Extend(f, run, ChooseRoom(0, ""), NOW);
    run := run + [(ChooseRoom(0, ""), NOW)];
    TakesStored(After(f, run));
    Extend(f, run, TAKE0, NOW);
  }

  lemma FreshInOrder()
    ensures InOrder(Fresh({STORED}))
  {
    FreshOwned({STORED});
    FreshGrounded({STORED});
    FreshAdmins({STORED});
  }

  lemma NoStepsFrom(s: Server)
    ensures Possible(s, []) && After(s, []) == s
  {
  }

  lemma Onboards(s: Server, a: Action)
    requires InOrder(s) && Enabled(s, a, NOW)
    requires a.Connect? || a.EnterName? || (a.ChooseRoom? && !Moderated(ClientOf(s, a.id)))
    ensures InOrder(Step(s, a, NOW))
  {
    hide InOrder, Enabled, Step, ValidName, HasCapacity, TrimSpace;
    OrderStep(s, a);
  }

  lemma TakesStored(s: Server)
    requires InOrder(s) && s.conns == map[0 := Guest(0, true)] && s.clients == map[Name(0) := 0] && s.admins == {STORED}
    ensures Enabled(s, TAKE0, NOW)
    ensures var t := Step(s, TAKE0, NOW);
            Owned(t) && STORED in t.clients && STORED in t.admins && !Flag(t, t.clients[STORED]) && AdminsStored(t) && !AdminsExact(t)
  {
    hide Owned, Grounded, AdminsStored, Name, ValidName, RenameStep;
    NameIsValid(2);
    assert |Name(0)| == 1 && |Name(2)| == 3;
    StepOwnedExactly(s, TAKE0, NOW);
    StepAdmins(s, TAKE0, NOW);
    PlainUserUnderAdminName(s, 0, STORED, NOW);
  }
}
