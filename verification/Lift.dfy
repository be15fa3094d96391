/** Whole commands inside the interleaved system: a thread whose sections nobody interrupts carries out its command's
    step, so every run of whole commands is one of the interleavings. */
module Lift {
  import opened Messages
  import opened ServerState
  import opened Commands
  import opened Sections
  import opened Scripts
  import opened Capacity
  import opened CalmRuns
  import opened Atomic
  import opened Ownership
  import opened Delivery
  import opened Grounds

  // ---------- traces in a row ----------

  lemma {:induction false} TraceConcat(y: System, a: Trace, b: Trace)
    requires Feasible(y, a) && Feasible(AfterTrace(y, a), b)
    ensures Feasible(y, a + b) && AfterTrace(y, a + b) == AfterTrace(AfterTrace(y, a), b)
    decreases |a|
  {
    hide Can, TickOf;
    if a == [] {
      assert a + b == b;
    } else {
      TraceConcat(TickOf(y, a[0]), a[1..], b);
      assert (a + b)[1..] == a[1..] + b;
    }
  }

  /** No check passes while another place in its room is out. */
  ghost predicate ApartNow(y: System, tick: Tick) {
    tick.Continue? && WorkOf(y, tick.th) != [] ==>
      forall room :: room in FastGrant(y.server, WorkOf(y, tick.th)[0]) ==> Grants(y, room) == {}
  }

  ghost predicate Apart(y: System, trace: Trace)
    decreases |trace|
  {
    trace == [] || (ApartNow(y, trace[0]) && Apart(TickOf(y, trace[0]), trace[1..]))
  }

  lemma {:induction false} ApartConcat(y: System, a: Trace, b: Trace)
    requires Apart(y, a) && Apart(AfterTrace(y, a), b)
    ensures Apart(y, a + b)
    decreases |a|
  {
    hide ApartNow, TickOf;
    if a == [] {
      assert a + b == b;
    } else {
      ApartConcat(TickOf(y, a[0]), a[1..], b);
      assert (a + b)[1..] == a[1..] + b;
    }
  }

  /** What is asked of a trace: no kicks and bans; places handed out one at a time. */
  datatype Mode = Mode(calm: bool, apart: bool)

  const ANY_WAY := Mode(false, false)

  ghost predicate Suits(y: System, trace: Trace, mode: Mode) { (mode.calm ==> CalmTrace(trace)) && (mode.apart ==> Apart(y, trace)) }

  /** z can follow y. */
  ghost predicate Reaches(y: System, z: System, mode: Mode) {
    exists trace :: Feasible(y, trace) && AfterTrace(y, trace) == z && Suits(y, trace, mode)
  }

  lemma ReachesTrans(y: System, z: System, u: System, mode: Mode)
    requires Reaches(y, z, mode) && Reaches(z, u, mode)
    ensures Reaches(y, u, mode)
  {
    hide Feasible, AfterTrace, Apart, CalmTrace;
    var a :| Feasible(y, a) && AfterTrace(y, a) == z && Suits(y, a, mode);
    var b :| Feasible(z, b) && AfterTrace(z, b) == u && Suits(z, b, mode);
    TraceConcat(y, a, b);
    if mode.apart { ApartConcat(y, a, b); }
    if mode.calm { CalmConcat(a, b); }
  }

  lemma CalmConcat(a: Trace, b: Trace)
    requires CalmTrace(a) && CalmTrace(b)
    ensures CalmTrace(a + b)
  {
  }

  lemma ReachesSelf(y: System, mode: Mode)
    ensures Reaches(y, y, mode)
  {
    assert Feasible(y, []) && AfterTrace(y, []) == y && CalmTrace([]) && Apart(y, []);
  }

  lemma ReachesTick(y: System, tick: Tick, mode: Mode)
    requires Can(y, tick) && (mode.calm ==> CalmTick(tick)) && (mode.apart ==> ApartNow(y, tick))
    ensures Reaches(y, TickOf(y, tick), mode)
  {
    hide Can, TickOf, ApartNow, CalmTick;
    var trace := [tick];
    assert trace[0] == tick && trace[1..] == [];
    assert Feasible(TickOf(y, tick), []) && AfterTrace(TickOf(y, tick), []) == TickOf(y, tick) && Apart(TickOf(y, tick), []);
    if mode.calm { assert CalmTrace(trace) by { forall t | t in trace ensures CalmTick(t) { assert t == tick; } } }
    assert Feasible(y, trace) && AfterTrace(y, trace) == TickOf(y, tick) && Suits(y, trace, mode);
  }

  lemma ReachesWeaker(y: System, z: System, mode: Mode)
    requires Reaches(y, z, Mode(true, true))
    ensures Reaches(y, z, mode)
  {
  }

  /** From a fresh system, as one trace. */
  lemma TraceOf(y: System, z: System, mode: Mode) returns (trace: Trace)
    requires Reaches(y, z, mode)
    ensures Feasible(y, trace) && AfterTrace(y, trace) == z && Suits(y, trace, mode)
  {
    trace :| Feasible(y, trace) && AfterTrace(y, trace) == z && Suits(y, trace, mode);
  }

  // ---------- one thread alone ----------

  ghost predicate OthersKept(y: System, z: System, th: Thread) {
    forall other :: other != th ==> WorkOf(z, other) == WorkOf(y, other)
  }

  ghost predicate Lone(y: System, th: Thread) { forall other :: other != th ==> WorkOf(y, other) == [] }

  lemma LoneStays(y: System, z: System, th: Thread)
    requires Lone(y, th) && OthersKept(y, z, th)
    ensures Lone(z, th)
  {
  }

  lemma EffectAdmits(s: Server, w: Work, choice: Choice)
    requires Legal(s, w, choice)
    ensures |Effect(s, w, choice).admitted| >= |s.admitted|
  {
    hide Effect, Legal;
    if w.Line? {
      LineQueue(s, w.id, w.room, choice);
    } else {
      EffectQueue(s, w, choice);
    }
  }

  lemma {:induction false} PurgeStamps(s: Server, host: string, visit: seq<string>)
    ensures Purge(s, host, visit).0.stamps == s.stamps
  {
    hide Kept, Dropped, Renumber;
    if visit != [] {
      PurgeStamps(s, host, visit[..|visit| - 1]);
      PurgeStep(s, host, visit);
    }
  }

  lemma EffectStamps(s: Server, w: Work, choice: Choice)
    ensures Effect(s, w, choice).stamps == s.stamps + if w.Post? || w.Jot? then 1 else 0
  {
    hide Renumber, ClosedAhead, Purge;
    if w.Sweep? { PurgeStamps(s, w.host, choice.visit); }
  }

  lemma {:induction false} RunAdmits(s: Server, ws: seq<Work>, choices: seq<Choice>, now: Moment)
    requires LegalRun(s, ws, choices, now)
    ensures |RunSections(s, ws, choices, now).0.admitted| >= |s.admitted|
    decreases |choices|
  {
    hide Effect, Next, Legal;
    if choices != [] && ws != [] {
      EffectAdmits(s, ws[0], choices[0]);
      RunAdmits(Effect(s, ws[0], choices[0]), Next(s, ws[0], choices[0], now) + ws[1..], choices[1..], now);
    }
  }

  /** A lone thread's check sees no other place out as long as nobody has been admitted from a queue. */
  lemma LoneApart(y: System, th: Thread, choice: Choice, now: Moment)
    requires ScriptsOk(y) && Lone(y, th) && y.server.admitted == [] && WorkOf(y, th) != []
    ensures ApartNow(y, Continue(th, choice, now))
  {
    hide ScriptsOk, Sound;
    var w := WorkOf(y, th)[0];
    forall room | room in FastGrant(y.server, w) ensures Grants(y, room) == {} {
      OnlyCheck(y, th);
      forall id ensures !Granted(y, id, room) { }
    }
  }

  lemma OnlyCheck(y: System, th: Thread)
    requires ScriptsOk(y) && WorkOf(y, th) != []
    ensures var w := WorkOf(y, th)[0]; w.Check? || w.CheckSwitch? || w.CheckCreate? ==> WorkOf(y, th) == [w]
  {
    var ws := WorkOf(y, th);
    if th == Operator {
      assert ws[0] in ws;
    } else {
      assert Sound(ws, th.id, ClientOf(y.server, th.id).room);
      assert ws == [ws[0]] + ws[1..];
    }
  }

  lemma {:induction false} LoneRun(y: System, th: Thread, choices: seq<Choice>, now: Moment, mode: Mode) returns (z: System)
    requires LegalRun(y.server, WorkOf(y, th), choices, now)
    requires mode.apart ==> ScriptsOk(y) && Lone(y, th) && RunSections(y.server, WorkOf(y, th), choices, now).0.admitted == []
    ensures Reaches(y, z, mode) && OthersKept(y, z, th)
    ensures (z.server, WorkOf(z, th)) == RunSections(y.server, WorkOf(y, th), choices, now)
    ensures forall p <- z.own :: p in y.own || (th == Handler(p.0) && p.1.stamp >= y.server.stamps)
    decreases |choices|
  {
    hide Effect, Next, Legal, Reaches, Booked, NewlyMissed, NewlyAbsent, ScriptsOk, ApartNow;
    if choices == [] {
      ReachesSelf(y, mode);
      z := y;
    } else {
      var tick := Continue(th, choices[0], now);
      var x := Continued(y, th, choices[0], now);
      EffectStamps(y.server, WorkOf(y, th)[0], choices[0]);
      if mode.apart {
        RunAdmits(y.server, WorkOf(y, th), choices, now);
        LoneApart(y, th, choices[0], now);
        TickScripts(y, tick);
      }
      ReachesTick(y, tick, mode);
      assert TickOf(y, tick) == x;
      assert OthersKept(y, x, th);
      if mode.apart { LoneStays(y, x, th); }
      z := LoneRun(x, th, choices[1..], now, mode);
      ReachesTrans(y, x, z, mode);
    }
  }

  // ---------- whole commands ----------

  lemma StartStamps(y: System, a: Action, now: Moment)
    requires CanStart(y, a)
    ensures StartEffect(y.server, a, now).stamps == y.server.stamps
  {
    hide StartEffect;
    if a.Midnight? {
      MidnightStart(y.server, now);
    } else {
      NamingStart(y, a);
      hide CanStart;
      StartSameStamps(y.server, a, now);
    }
  }

  lemma StartSameStamps(s: Server, a: Action, now: Moment)
    requires !a.Midnight? && (a.EnterName? ==> ClientOf(s, a.id).stage.Naming?)
    ensures StartEffect(s, a, now).stamps == s.stamps
  {
    hide AcceptConnection, SubmitName, AnswerStep, ClearHistory, Text.TrimSpace, SetReason;
    if a.Connect? { AcceptStamps(s, a.id, a.host, now); }
    if a.EnterName? { SubmitStamps(s, a.id, a.name); }
    if a.Answer? { AnswerStart(s, a.id, a.line, now); }
  }

  lemma AcceptStamps(s: Server, id: ConnId, host: string, now: Moment)
    ensures AcceptConnection(s, id, host, now).stamps == s.stamps
  {
  }

  lemma SubmitStamps(s: Server, id: ConnId, name: string)
    ensures SubmitName(s, id, name).stamps == s.stamps
  {
    hide Messages.ValidName;
  }

  lemma EnabledStarts(y: System, a: Action, now: Moment)
    requires Enabled(y.server, a, now) && (Ambient(a) || WorkOf(y, ThreadOf(a)) == [])
    ensures CanStart(y, a)
  {
    hide PossibleOrder, Enumerates;
  }

  /** A command that nobody interrupts carries out its whole-command step. */
  lemma LoneCommand(y: System, a: Action, now: Moment, mode: Mode) returns (z: System)
    requires Enabled(y.server, a, now) && !Ambient(a) && WorkOf(y, ThreadOf(a)) == []
    requires mode.apart ==> ScriptsOk(y) && Lone(y, ThreadOf(a)) && Step(y.server, a, now).admitted == []
    requires mode.calm ==> CalmTick(Begin(a, now))
    ensures Reaches(y, z, mode) && OthersKept(y, z, ThreadOf(a)) && WorkOf(z, ThreadOf(a)) == [] && z.server == Step(y.server, a, now)
    ensures forall p <- z.own :: p in y.own || (ThreadOf(a) == Handler(p.0) && p.1.stamp >= y.server.stamps)
  {
    hide Enabled, Step, StartEffect, StartWork, CanStart, Reaches, ScriptsOk, RunSections, LegalRun, CalmTick;
    EnabledStarts(y, a, now);
    StartStamps(y, a, now);
    SectionsMakeStep(y.server, a, now);
    var th, x := ThreadOf(a), Started(y, a, now);
    var choices :| LegalRun(x.server, WorkOf(x, th), choices, now)
                   && RunSections(x.server, WorkOf(x, th), choices, now) == (Step(y.server, a, now), []);
    ReachesTick(y, Begin(a, now), mode);
    assert OthersKept(y, x, th);
    if mode.apart {
      TickScripts(y, Begin(a, now));
      LoneStays(y, x, th);
    }
    z := LoneRun(x, th, choices, now, mode);
    ReachesTrans(y, x, z, mode);
  }

  /** Nobody has any section left. */
  ghost predicate Idle(y: System) { forall th :: WorkOf(y, th) == [] }

  lemma IdleAfter(y: System, z: System, th: Thread)
    requires Idle(y) && OthersKept(y, z, th) && WorkOf(z, th) == []
    ensures Idle(z)
  {
  }

  lemma AmbientStep(y: System, a: Action, now: Moment)
    requires Ambient(a)
    ensures Started(y, a, now).server == Step(y.server, a, now) && Started(y, a, now).work == y.work
  {
  }

  /** Every run of whole commands, whatever they are, is one of the interleavings; without kicks and bans it is a calm one. */
  lemma {:induction false} RunIsATrace(y: System, run: Run, calm: bool) returns (z: System)
    requires Idle(y) && Possible(y.server, run)
    requires calm ==> forall step <- run :: CalmTick(Begin(step.0, step.1))
    ensures Reaches(y, z, Mode(calm, false)) && Idle(z) && z.server == After(y.server, run)
    decreases |run|
  {
    hide Enabled, Step, Reaches, ThreadOf, CalmTick, CanStart, StartEffect, StartWork, Ambient;
    var mode := Mode(calm, false);
    if run == [] {
      ReachesSelf(y, mode);
      z := y;
    } else {
      var (a, now) := run[0];
      assert run[0] in run && forall step <- run[1..] :: step in run;
      var x: System;
      if Ambient(a) {
        EnabledStarts(y, a, now);
        x := Started(y, a, now);
        AmbientStep(y, a, now);
        forall th ensures WorkOf(x, th) == [] { assert WorkOf(y, th) == []; }
        ReachesTick(y, Begin(a, now), mode);
      } else {
        x := LoneCommand(y, a, now, mode);
        IdleAfter(y, x, ThreadOf(a));
      }
      z := RunIsATrace(x, run[1..], calm);
      ReachesTrans(y, x, z, mode);
    }
  }

  /** So whatever whole commands can do to a fresh server, some trace of sections does. */
  lemma FreshRunIsATrace(admins: set<string>, run: Run) returns (trace: Trace)
    requires Possible(Fresh(admins), run)
    ensures Feasible(FreshSystem(admins), trace) && AfterTrace(FreshSystem(admins), trace).server == After(Fresh(admins), run)
  {
    hide Possible, After, Feasible, AfterTrace, Reaches;
    var z := RunIsATrace(FreshSystem(admins), run, false);
    trace := TraceOf(FreshSystem(admins), z, Mode(false, false));
  }

  /** Runs of connects, names and room choices. */
  predicate Gentle(run: Run) { forall step <- run :: step.0.Connect? || step.0.EnterName? || step.0.ChooseRoom? }

  lemma StepAdmits(s: Server, a: Action, now: Moment)
    requires Enabled(s, a, now)
    ensures |Step(s, a, now).admitted| >= |StartEffect(s, a, now).admitted|
  {
    hide Enabled, Step, StartEffect, StartWork, RunSections, LegalRun;
    SectionsMakeStep(s, a, now);
    var choices :| LegalRun(StartEffect(s, a, now), StartWork(s, a, now), choices, now)
                   && RunSections(StartEffect(s, a, now), StartWork(s, a, now), choices, now) == (Step(s, a, now), []);
    RunAdmits(StartEffect(s, a, now), StartWork(s, a, now), choices, now);
  }

  lemma {:induction false} RunKeepsAdmitted(s: Server, run: Run)
    requires Possible(s, run) && Gentle(run) && After(s, run).admitted == []
    ensures s.admitted == []
    decreases |run|
  {
    hide Enabled, Step, StartEffect;
    if run != [] {
      assert run[0] in run && forall step <- run[1..] :: step in run;
      RunKeepsAdmitted(Step(s, run[0].0, run[0].1), run[1..]);
      StepAdmits(s, run[0].0, run[0].1);
      GentleStart(s, run[0].0, run[0].1);
    }
  }

  lemma GentleStart(s: Server, a: Action, now: Moment)
    requires (a.Connect? || a.EnterName? || a.ChooseRoom?) && Enabled(s, a, now)
    ensures StartEffect(s, a, now).admitted == s.admitted
  {
    if a.EnterName? { NameEntered(s, a.id, a.name); }
    hide Messages.ValidName;
  }

  /** Runs of connects, names and room choices, with nobody admitted, keep to places handed out one at a time. */
  lemma {:induction false} GentleCommands(y: System, run: Run) returns (z: System)
    requires Idle(y) && ScriptsOk(y) && Possible(y.server, run) && Gentle(run) && After(y.server, run).admitted == []
    ensures Reaches(y, z, Mode(true, true)) && Idle(z) && z.server == After(y.server, run)
    decreases |run|
  {
    hide Enabled, Step, Reaches, ScriptsOk, ThreadOf;
    if run == [] {
      ReachesSelf(y, Mode(true, true));
      z := y;
    } else {
      var (a, now) := run[0];
      assert run[0] in run && forall step <- run[1..] :: step in run;
      RunKeepsAdmitted(Step(y.server, a, now), run[1..]);
      var x := LoneCommand(y, a, now, Mode(true, true));
      IdleAfter(y, x, ThreadOf(a));
      ReachesScripts(y, x, Mode(true, true));
      z := GentleCommands(x, run[1..]);
      ReachesTrans(y, x, z, Mode(true, true));
    }
  }

  lemma ReachesScripts(y: System, z: System, mode: Mode)
    requires Reaches(y, z, mode) && ScriptsOk(y)
    ensures ScriptsOk(z)
  {
    hide Feasible, AfterTrace, ScriptsOk, Apart, CalmTrace;
    var trace :| Feasible(y, trace) && AfterTrace(y, trace) == z && Suits(y, trace, mode);
    TraceScripts(y, trace);
  }

  lemma {:induction false} TraceScripts(y: System, trace: Trace)
    requires ScriptsOk(y) && Feasible(y, trace)
    ensures ScriptsOk(AfterTrace(y, trace))
    decreases |trace|
  {
    hide ScriptsOk, Can, TickOf;
    if trace != [] {
      TickScripts(y, trace[0]);
      TraceScripts(TickOf(y, trace[0]), trace[1..]);
    }
  }

  // ---------- single ticks ----------

  lemma BeginTick(y: System, a: Action, now: Moment, mode: Mode) returns (z: System)
    requires CanStart(y, a) && !Ambient(a) && (mode.calm ==> CalmTick(Begin(a, now)))
    ensures Reaches(y, z, mode) && OthersKept(y, z, ThreadOf(a))
    ensures z.server == StartEffect(y.server, a, now) && WorkOf(z, ThreadOf(a)) == StartWork(y.server, a, now)
    ensures z.ledger == y.ledger && z.own == y.own && z.missed == y.missed && z.absent == y.absent
  {
    hide Reaches, CanStart, StartEffect, StartWork;
    z := Started(y, a, now);
    ReachesTick(y, Begin(a, now), mode);
  }

  lemma GoTick(y: System, th: Thread, now: Moment, mode: Mode) returns (z: System)
    requires WorkOf(y, th) != [] && Legal(y.server, WorkOf(y, th)[0], ANY) && (mode.apart ==> ApartNow(y, Continue(th, ANY, now)))
    ensures Reaches(y, z, mode) && OthersKept(y, z, th) && z == Continued(y, th, ANY, now)
    ensures var w := WorkOf(y, th)[0];
            z.server == Effect(y.server, w, ANY) && WorkOf(z, th) == Next(y.server, w, ANY, now) + WorkOf(y, th)[1..]
  {
    hide Reaches, Effect, Next, Legal, Booked, NewlyOwn, NewlyMissed, NewlyAbsent, ApartNow;
    z := Continued(y, th, ANY, now);
    ReachesTick(y, Continue(th, ANY, now), mode);
  }
}
