/** A deleted room takes its history along: nobody is ever shown the old events again (server/room.go). */
module Forgotten {
  import opened Messages
  import opened ServerState
  import opened Commands
  import opened Ownership
  import opened Grounds
  import opened Sections
  import opened Scripts
  import opened Capacity
  import opened Delivery
  import opened Lift
  import opened Stamps
  import opened Queues
  import opened Departures
  import opened Tidiness

  /** Every event in a room's history bears the room's name. */
  ghost predicate Tags(y: System) { forall room, e :: e in History(y.server, room) ==> e.msg.room == room }

  /** The event is past, in no history, and no broadcast of it is to come. */
  ghost predicate Lost(y: System, e: Event) {
    && Old(y.server, e)
    && (forall room :: e !in History(y.server, room))
    && (forall th, w :: w in WorkOf(y, th) && w.Tell? ==> w.e != e)
  }

  ghost predicate SameHearers(y: System, z: System, e: Event) { forall x :: (x, e) in z.server.heard <==> (x, e) in y.server.heard }

  lemma HearsMore(s: Server, w: Work, choice: Choice)
    ensures s.heard <= Effect(s, w, choice).heard
  {
    hide Renumber, ClosedAhead, Purge;
    if w.Sweep? { PurgeHeard(s, w.host, choice.visit); }
  }

  lemma StartLost(y: System, a: Action, now: Moment, e: Event)
    requires CanStart(y, a) && Lost(y, e)
    ensures Lost(Started(y, a, now), e) && SameHearers(y, Started(y, a, now), e)
  {
    hide StartEffect, StartWork, CanStart, History;
    var z := Started(y, a, now);
    StartStamps(y, a, now);
    StartTells(y.server, a, now);
    StartHistory(y, a, now, "");
    forall room ensures e !in History(z.server, room) { StartHistory(y, a, now, room); }
    forall th, w | w in WorkOf(z, th) && w.Tell? ensures w.e != e { assert w in WorkOf(y, th); }
  }

  lemma ContinueLost(y: System, th: Thread, choice: Choice, now: Moment, e: Event)
    requires ScriptsOk(y) && Lost(y, e) && WorkOf(y, th) != []
    ensures var z := Continued(y, th, choice, now); Lost(z, e) && SameHearers(y, z, e)
  {
    hide Effect, Next, Booked, NewlyMissed, NewlyAbsent, NewlyOwn, History, ScriptsOk;
    var z, w, s := Continued(y, th, choice, now), WorkOf(y, th)[0], y.server;
    HeadKind(y, th);
    EffectStamps(s, w, choice);
    EffectHears(s, w, choice);
    HearsMore(s, w, choice);
    NextTells(s, w, choice, now);
    assert w in WorkOf(y, th);
    forall room ensures e !in History(z.server, room) {
      if e in History(z.server, room) { EffectHistory(s, w, choice, room, e); }
    }
    forall other, v | v in WorkOf(z, other) && v.Tell? ensures v.e != e {
      if other == th && v !in WorkOf(y, th) { assert v in Next(s, w, choice, now); } else { assert v in WorkOf(y, other); }
    }
  }

  /** Over every interleaving: an event that is in no history any more is never sent to anybody again. */
  lemma {:induction false} LostForGood(y: System, trace: Trace, e: Event)
    requires ScriptsOk(y) && Lost(y, e) && Feasible(y, trace)
    ensures Lost(AfterTrace(y, trace), e) && SameHearers(y, AfterTrace(y, trace), e)
    decreases |trace|
  {
    hide Lost, CanStart, Legal, Started, Continued, ScriptsOk;
    if trace != [] {
      var tick := trace[0];
      TickScripts(y, tick);
      if tick.Begin? { StartLost(y, tick.a, tick.now, e); } else { ContinueLost(y, tick.th, tick.choice, tick.now, e); }
      LostForGood(TickOf(y, tick), trace[1..], e);
    }
  }

  lemma TickTags(y: System, tick: Tick)
    requires Tags(y) && Can(y, tick)
    ensures Tags(TickOf(y, tick))
  {
    hide CanStart, Legal, StartEffect, StartWork, Effect, Next, Booked, NewlyMissed, NewlyAbsent, NewlyOwn, History;
    var z := TickOf(y, tick);
    forall room, e | e in History(z.server, room) ensures e.msg.room == room {
      if tick.Begin? { StartHistory(y, tick.a, tick.now, room); }
      else { EffectHistory(y.server, WorkOf(y, tick.th)[0], tick.choice, room, e); }
    }
  }

  /** What is in a history later was there before or is younger. */
  lemma {:induction false} HistoryGrows(y: System, trace: Trace, room: string, e: Event)
    requires Feasible(y, trace) && e in History(AfterTrace(y, trace).server, room)
    ensures y.server.stamps <= AfterTrace(y, trace).server.stamps
    ensures e in History(y.server, room) || e.stamp >= y.server.stamps
    decreases |trace|
  {
    hide CanStart, Legal, StartEffect, StartWork, Effect, Next, Booked, NewlyMissed, NewlyAbsent, NewlyOwn, History;
    if trace != [] {
      var tick := trace[0];
      var z := TickOf(y, tick);
      HistoryGrows(z, trace[1..], room, e);
      if tick.Begin? {
        StartStamps(y, tick.a, tick.now);
        StartHistory(y, tick.a, tick.now, room);
      } else {
        var w := WorkOf(y, tick.th)[0];
        EffectStamps(y.server, w, tick.choice);
        if e in History(z.server, room) { EffectHistory(y.server, w, tick.choice, room, e); }
      }
    }
  }

  lemma {:induction false} TraceTags(y: System, trace: Trace)
    requires Tags(y) && Feasible(y, trace)
    ensures Tags(AfterTrace(y, trace))
    decreases |trace|
  {
    hide Tags, Can, TickOf;
    if trace != [] {
      TickTags(y, trace[0]);
      TraceTags(TickOf(y, trace[0]), trace[1..]);
    }
  }

  lemma FreshTags(admins: set<string>)
    ensures Tags(FreshSystem(admins)) && Stamped(FreshSystem(admins)) && ScriptsOk(FreshSystem(admins))
  {
    FreshStamped(admins);
    FreshScripts(admins);
  }

  /** In every state reached from a fresh server: when a step deletes a room, what was in its history is sent to nobody
      in any later step, whoever creates or joins a room of that name. */
  lemma OldEventsAreGone(admins: set<string>, run: Run, a: Action, now: Moment, room: string, rest: Run, x: ConnId, e: Event)
    requires Possible(Fresh(admins), run) && Enabled(After(Fresh(admins), run), a, now)
    requires var s := After(Fresh(admins), run); e in History(s, room) && room !in Step(s, a, now).rooms && Possible(Step(s, a, now), rest)
    ensures var t := Step(After(Fresh(admins), run), a, now);
            && ((x, e) in After(t, rest).heard <==> (x, e) in t.heard)
            && (forall r :: e !in History(After(t, rest), r))
  {
    hide Possible, After, Enabled, Step, Reaches, Stamped, ScriptsOk, Tags, Lost, Feasible, AfterTrace, Idle, History;
    var s := After(Fresh(admins), run);
    var y := RunIsATrace(FreshSystem(admins), run, false) by { assert Idle(FreshSystem(admins)) by { FreshIdle(admins); } }
    var first := TraceOf(FreshSystem(admins), y, Mode(false, false));
    FreshTags(admins);
    TraceTags(FreshSystem(admins), first);
    TraceStamped(FreshSystem(admins), first);
    OneMoreStep(s, a, now);
    var z := RunIsATrace(y, [(a, now)], false);
    var second := TraceOf(y, z, Mode(false, false));
    DeletedIsLost(y, z, second, room, e);
    var u := RunIsATrace(z, rest, false);
    var third := TraceOf(z, u, Mode(false, false));
    TraceScripts(FreshSystem(admins), first);
    TraceScripts(y, second);
    LostForGood(z, third, e);
    assert forall r :: e !in History(u.server, r) by { LostNowhere(u, e); }
  }

  lemma FreshIdle(admins: set<string>)
    ensures Idle(FreshSystem(admins))
  {
  }

  lemma LostNowhere(y: System, e: Event)
    requires Lost(y, e)
    ensures forall r :: e !in History(y.server, r)
  {
    hide History;
  }

  lemma OneMoreStep(s: Server, a: Action, now: Moment)
    requires Enabled(s, a, now)
    ensures Possible(s, [(a, now)]) && After(s, [(a, now)]) == Step(s, a, now)
  {
    hide Enabled, Step;
    var run := [(a, now)];
    assert run[0] == (a, now) && run[1..] == [];
    assert Possible(Step(s, a, now), []) && After(Step(s, a, now), []) == Step(s, a, now);
  }

  lemma DeletedIsLost(y: System, z: System, trace: Trace, room: string, e: Event)
    requires Tags(y) && Stamped(y) && Feasible(y, trace) && AfterTrace(y, trace) == z && Idle(z)
    requires e in History(y.server, room) && room !in z.server.rooms
    ensures Lost(z, e)
  {
    hide Feasible, AfterTrace, History;
    assert Old(y.server, e);
    NoHistory(z.server, room);
    StampsGrow(y, trace);
    forall r ensures e !in History(z.server, r) {
      if e in History(z.server, r) { HistoryGrows(y, trace, r, e); }
    }
  }

  lemma {:induction false} StampsGrow(y: System, trace: Trace)
    requires Feasible(y, trace)
    ensures y.server.stamps <= AfterTrace(y, trace).server.stamps
    decreases |trace|
  {
    hide CanStart, Legal, StartEffect, StartWork, Effect, Next, Booked, NewlyMissed, NewlyAbsent, NewlyOwn;
    if trace != [] {
      var tick := trace[0];
      if tick.Begin? { StartStamps(y, tick.a, tick.now); } else { EffectStamps(y.server, WorkOf(y, tick.th)[0], tick.choice); }
      StampsGrow(TickOf(y, tick), trace[1..]);
    }
  }
}
