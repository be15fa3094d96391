/** Reachable servers with any number of guests: some in the default room, the others still choosing. */
module Halls {
  import opened Text
  import opened Messages
  import opened ServerState
  import opened Commands
  import opened OwnershipRuns
  import opened Indexes
  import opened Lift
  import opened Ownership

  const NOW := Moment(Time(2024, 1, 1, 0, 0, 0, 0), 0)

  /** Guests have names of different lengths, and hosts of their own. */
  function Name(i: nat): (s: string)
    ensures |s| == i + 1
  {
    seq(i + 1, _ => 'a')
  }

  function Guest(i: nat, inside: bool): Client {
    Client(Name(i), Name(i), if inside then DEFAULT_ROOM else "", false, false, false, Unset, if inside then Active else Choosing)
  }

  function Names(k: nat): map<string, ConnId> { if k == 0 then map[] else Names(k - 1)[Name(k - 1) := k - 1] }

  lemma {:induction false} NamesOf(k: nat)
    ensures |Names(k)| == k
    ensures forall i: nat :: Name(i) in Names(k) <==> i < k
    ensures forall i: nat :: i < k ==> Names(k)[Name(i)] == i
    ensures forall name :: name in Names(k) ==> name == Name(Names(k)[name]) && Names(k)[name] < k
  {
    if k > 0 {
      NamesOf(k - 1);
      assert forall i: nat, j: nat :: Name(i) == Name(j) ==> |Name(i)| == |Name(j)|;
    }
  }

  lemma NameIsValid(i: nat)
    requires i < 32
    ensures ValidName(Name(i)) && !Reserved(Name(i)) && Name(i) != ""
  {
    assert Name(i)[0] == 'a';
  }

  /** Guests 0 to n - 1 are in the default room, guests n to k - 1 are choosing; nobody waits. */
  ghost predicate Hall(s: Server, n: nat, k: nat) {
    && n <= k
    && s.clients == Names(k)
    && (forall id: ConnId :: id in s.conns <==> id < k)
    && (forall i: nat :: i < k ==> ClientOf(s, i) == Guest(i, i < n))
    && s.rooms.Keys == {DEFAULT_ROOM} && Members(s, DEFAULT_ROOM) == Names(n) && Queue(s, DEFAULT_ROOM) == []
    && s.admitted == [] && s.tickets == [] && s.kicked == map[] && s.banned == {} && !s.shuttingDown && s.admins == {}
  }

  lemma FreshHall()
    ensures Hall(Fresh({}), 0, 0)
  {
  }

  lemma {:induction false} RunConcat(s: Server, a: Run, b: Run)
    requires Possible(s, a) && Possible(After(s, a), b)
    ensures Possible(s, a + b) && After(s, a + b) == After(After(s, a), b)
    decreases |a|
  {
    hide Enabled, Step;
    if a == [] {
      assert a + b == b;
    } else {
      RunConcat(Step(s, a[0].0, a[0].1), a[1..], b);
      assert (a + b)[1..] == a[1..] + b;
    }
  }

  lemma OneStep(s: Server, a: Action, now: Moment)
    requires Enabled(s, a, now)
    ensures Possible(s, [(a, now)]) && After(s, [(a, now)]) == Step(s, a, now)
  {
    hide Enabled, Step;
    var run := [(a, now)];
    assert run[0] == (a, now) && run[1..] == [];
    assert Possible(Step(s, a, now), []) && After(Step(s, a, now), []) == Step(s, a, now);
  }

  /** One more step of a run. */
  lemma Extend(s: Server, run: Run, a: Action, now: Moment)
    requires Possible(s, run) && Enabled(After(s, run), a, now)
    ensures Possible(s, run + [(a, now)]) && After(s, run + [(a, now)]) == Step(After(s, run), a, now)
  {
    hide Enabled, Step;
    OneStep(After(s, run), a, now);
    RunConcat(s, run, [(a, now)]);
  }

  /** The next guest connects and picks a name. */
  lemma NextGuest(s: Server, n: nat, k: nat)
    requires Hall(s, n, k) && k < 32
    ensures Enabled(s, Connect(k, Name(k)), NOW)
    ensures var t := Step(s, Connect(k, Name(k)), NOW);
            Enabled(t, EnterName(k, Name(k)), NOW) && Hall(Step(t, EnterName(k, Name(k)), NOW), n, k + 1)
  {
    hide ValidName, Reserved, Name, Names, Enabled, Step;
    NamesOf(k);
    NameIsValid(k);
    Connected(s, k, Name(k), NOW);
    var t := Step(s, Connect(k, Name(k)), NOW);
    NameTaken(t, k, Name(k), NOW);
    NextNames(k);
    var u := Step(t, EnterName(k, Name(k)), NOW);
    forall i: nat | i < k + 1 ensures ClientOf(u, i) == Guest(i, i < n) {
      if i < k { assert ClientOf(s, i) == Guest(i, i < n); }
    }
  }

  lemma Connected(s: Server, id: ConnId, host: string, now: Moment)
    requires id !in s.conns && host !in s.banned && host !in s.kicked && !s.shuttingDown
    ensures Enabled(s, Connect(id, host), now)
    ensures Step(s, Connect(id, host), now) == s.(conns := s.conns[id := Client(host, "", "", false, false, false, Unset, Naming)])
  {
  }

  lemma NameTaken(s: Server, id: ConnId, name: string, now: Moment)
    requires ClientOf(s, id).stage.Naming? && ValidName(name) && !Reserved(name) && name !in s.clients
    ensures Enabled(s, EnterName(id, name), now)
    ensures Step(s, EnterName(id, name), now)
         == s.(conns := s.conns[id := ClientOf(s, id).(username := name, stage := Choosing, admin := ClientOf(s, id).admin || name in s.admins)],
               clients := s.clients[name := id])
  {
    hide ValidName;
  }

  lemma NextNames(k: nat)
    ensures Names(k + 1) == Names(k)[Name(k) := k]
  {
  }

  /** The next guest takes a seat. */
  lemma NextSeat(s: Server, n: nat, k: nat)
    requires Hall(s, n, k) && n < k && n < MAX_ACTIVE
    ensures Enabled(s, ChooseRoom(n, ""), NOW) && Hall(Step(s, ChooseRoom(n, ""), NOW), n + 1, k)
  {
    hide Name, Names, EnterRoom, Step, Enabled;
    NamesOf(n);
    NextNames(n);
    assert ClientOf(s, n) == Guest(n, false);
    SeatStep(s, n);
    Seated(s, n);
    var t := EnterRoom(s, n, DEFAULT_ROOM, NOW);
    forall i: nat | i < k ensures ClientOf(t, i) == Guest(i, i < n + 1) { assert ClientOf(s, i) == Guest(i, i < n); }
  }

  lemma SeatStep(s: Server, id: ConnId)
    requires ClientOf(s, id).stage.Choosing? && !s.shuttingDown && HasCapacity(s, DEFAULT_ROOM)
    ensures Enabled(s, ChooseRoom(id, ""), NOW) && Step(s, ChooseRoom(id, ""), NOW) == EnterRoom(s, id, DEFAULT_ROOM, NOW)
  {
    hide EnterRoom, ValidName, HasCapacity;
    assert TrimSpace("") == "";
    DefaultIsValid();
  }

  lemma DefaultIsValid()
    ensures ValidName(DEFAULT_ROOM)
  {
  }

  lemma Seated(s: Server, id: ConnId)
    requires ClientOf(s, id).room == "" && DEFAULT_ROOM in s.rooms
    ensures var c, t := ClientOf(s, id), EnterRoom(s, id, DEFAULT_ROOM, NOW);
            && t.conns == s.conns[id := c.(room := DEFAULT_ROOM, stage := Active)]
            && t.clients == s.clients && t.rooms.Keys == s.rooms.Keys
            && Members(t, DEFAULT_ROOM) == Members(s, DEFAULT_ROOM)[c.username := id]
            && Queue(t, DEFAULT_ROOM) == Queue(s, DEFAULT_ROOM)
            && t.admitted == s.admitted && t.tickets == s.tickets && t.kicked == s.kicked && t.banned == s.banned
            && t.shuttingDown == s.shuttingDown && t.admins == s.admins
  {
  }

  /** Any hall can be reached by connecting, naming and choosing alone. */
  lemma {:induction false} HallRun(n: nat, k: nat) returns (run: Run)
    requires n <= k <= 32 && n <= MAX_ACTIVE
    ensures Gentle(run) && Possible(Fresh({}), run) && Hall(After(Fresh({}), run), n, k)
    decreases n, k
  {
    hide Hall, Enabled, Step, Possible, After;
    if k == 0 {
      run := [];
      FreshHall();
      assert Possible(Fresh({}), []) && After(Fresh({}), []) == Fresh({}) by { NoSteps(); }
    } else if n == 0 {
      run := HallRun(0, k - 1);
      var s := After(Fresh({}), run);
      NextGuest(s, 0, k - 1);
      Extend(Fresh({}), run, Connect(k - 1, Name(k - 1)), NOW);
      run := run + [(Connect(k - 1, Name(k - 1)), NOW)];
      Extend(Fresh({}), run, EnterName(k - 1, Name(k - 1)), NOW);
      run := run + [(EnterName(k - 1, Name(k - 1)), NOW)];
    } else {
      run := HallRun(n - 1, k);
      NextSeat(After(Fresh({}), run), n - 1, k);
      Extend(Fresh({}), run, ChooseRoom(n - 1, ""), NOW);
      run := run + [(ChooseRoom(n - 1, ""), NOW)];
    }
  }

  lemma NoSteps()
    ensures Possible(Fresh({}), []) && After(Fresh({}), []) == Fresh({})
  {
  }

  lemma {:induction false} GentleHitsActive(s: Server, run: Run)
    requires Gentle(run)
    ensures AllHitActive(s, run)
    decreases |run|
  {
    hide Step;
    if run != [] {
      assert run[0] in run && forall step <- run[1..] :: step in run;
      GentleHitsActive(Step(s, run[0].0, run[0].1), run[1..]);
    }
  }

  /** Halls are owned. */
  lemma HallOwned(run: Run)
    requires Gentle(run) && Possible(Fresh({}), run)
    ensures Owned(After(Fresh({}), run))
  {
    hide Owned, Possible, AllHitActive;
    FreshOwned({});
    GentleHitsActive(Fresh({}), run);
    ActiveModerationKeepsOwned(Fresh({}), run);
  }
}
