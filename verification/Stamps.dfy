/** Recorded events carry stamps of the past: whatever has been recorded, sent or is still to be broadcast is older than
    the next event (server/room.go). */
module Stamps {
  import opened Messages
  import opened ServerState
  import opened Commands
  import opened Ownership
  import opened Grounds
  import opened Sections
  import opened Scripts
  import opened Capacity
  import opened Delivery
  import opened Lift

  predicate Old(s: Server, e: Event) { e.stamp < s.stamps }

  ghost predicate Stamped(y: System) {
    && (forall p <- y.server.heard :: Old(y.server, p.1))
    && (forall p <- y.own :: Old(y.server, p.1))
    && (forall room, e :: e in History(y.server, room) ==> Old(y.server, e))
    && (forall th, w :: w in WorkOf(y, th) && w.Tell? ==> Old(y.server, w.e))
  }

  lemma EffectHears(s: Server, w: Work, choice: Choice)
    ensures forall p <- Effect(s, w, choice).heard ::
              p in s.heard || (w.Tell? && p.1 == w.e) || (w.Snapshot? && p.1 in History(s, w.room))
  {
    hide Renumber, ClosedAhead, Purge;
    if w.Sweep? { PurgeHeard(s, w.host, choice.visit); }
  }

  lemma StartStamped(y: System, a: Action, now: Moment)
    requires Stamped(y) && CanStart(y, a)
    ensures Stamped(Started(y, a, now))
  {
    hide StartEffect, StartWork, CanStart, History;
    var z := Started(y, a, now);
    StartStamps(y, a, now);
    StartHistory(y, a, now, "");
    StartTells(y.server, a, now);
    forall room, e | e in History(z.server, room) ensures Old(z.server, e) {
      StartHistory(y, a, now, room);
      assert e in History(y.server, room);
      assert Old(y.server, e);
    }
    forall th, w | w in WorkOf(z, th) && w.Tell? ensures Old(z.server, w.e) { assert w in WorkOf(y, th) && Old(y.server, w.e); }
    forall p | p in z.server.heard ensures Old(z.server, p.1) { assert Old(y.server, p.1); }
    forall p | p in z.own ensures Old(z.server, p.1) { assert Old(y.server, p.1); }
  }

  lemma ContinueStamped(y: System, th: Thread, choice: Choice, now: Moment)
    requires Stamped(y) && ScriptsOk(y) && WorkOf(y, th) != []
    ensures Stamped(Continued(y, th, choice, now))
  {
    hide Effect, Next, Booked, NewlyMissed, NewlyAbsent, ScriptsOk, History;
    var z, w, s := Continued(y, th, choice, now), WorkOf(y, th)[0], y.server;
    EffectStamps(s, w, choice);
    EffectHears(s, w, choice);
    HeadKind(y, th);
    NextTells(s, w, choice, now);
    assert w in WorkOf(y, th);
    forall room, e | e in History(z.server, room) ensures Old(z.server, e) {
      EffectHistory(s, w, choice, room, e);
      if e in History(s, room) { assert Old(s, e); }
    }
    forall other, v | v in WorkOf(z, other) && v.Tell? ensures Old(z.server, v.e) {
      if other == th && v !in WorkOf(y, th) { assert v in Next(s, w, choice, now); } else { assert v in WorkOf(y, other) && Old(s, v.e); }
    }
    forall p | p in z.server.heard ensures Old(z.server, p.1) {
      if p in s.heard { assert Old(s, p.1); }
      else if w.Tell? { assert Old(s, w.e); }
      else { assert p.1 in History(s, w.room) && Old(s, p.1); }
    }
    forall p | p in z.own ensures Old(z.server, p.1) { if p in y.own { assert Old(s, p.1); } }
  }

  lemma {:induction false} TraceStamped(y: System, trace: Trace)
    requires Stamped(y) && ScriptsOk(y) && Feasible(y, trace)
    ensures Stamped(AfterTrace(y, trace))
    decreases |trace|
  {
    hide Stamped, ScriptsOk, Can, TickOf;
    if trace != [] {
      TickStamped(y, trace[0]);
      TickScripts(y, trace[0]);
      TraceStamped(TickOf(y, trace[0]), trace[1..]);
    }
  }

  lemma TickStamped(y: System, tick: Tick)
    requires Stamped(y) && ScriptsOk(y) && Can(y, tick)
    ensures Stamped(TickOf(y, tick))
  {
    hide Stamped, ScriptsOk, Started, Continued, CanStart, Legal;
    match tick
    case Begin(a, now) => StartStamped(y, a, now);
    case Continue(th, choice, now) => ContinueStamped(y, th, choice, now);
  }

  /** Every reachable system is stamped. */
  lemma ReachesStamped(admins: set<string>, y: System, mode: Mode)
    requires Reaches(FreshSystem(admins), y, mode)
    ensures Stamped(y)
  {
    hide Feasible, Stamped, ScriptsOk, AfterTrace;
    FreshScripts(admins);
    var trace := TraceOf(FreshSystem(admins), y, mode);
    assert Stamped(FreshSystem(admins)) by { FreshStamped(admins); }
    TraceStamped(FreshSystem(admins), trace);
  }

  lemma FreshStamped(admins: set<string>)
    ensures Stamped(FreshSystem(admins))
  {
  }
}
