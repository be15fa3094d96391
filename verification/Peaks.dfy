/** How full a room can get, whatever the age of the server: the most that was ever pressing on the room when one of its
    checks passed decides, not how often it happened (server/handler.go, room.go, commands.go). */
module Peaks {
  import opened ServerState
  import opened Commands
  import opened Sections
  import opened Scripts
  import opened Capacity
  import opened CalmRuns

  /** Places out, and departures that no admission call has answered yet. */
  ghost function Pressure(y: System, room: string): nat { |Grants(y, room)| + Count(y.ledger.owed, room) }

  /** The tick is a check of the room that passes. */
  ghost predicate Passes(y: System, tick: Tick, room: string) {
    tick.Continue? && WorkOf(y, tick.th) != [] && Count(FastGrant(y.server, WorkOf(y, tick.th)[0]), room) > 0
  }

  /** No check of the room passes under more pressure than this. */
  ghost predicate Pressed(y: System, trace: Trace, room: string, most: nat)
    decreases |trace|
  {
    trace == [] ||
    ((Passes(y, trace[0], room) ==> Pressure(y, room) <= most) && Pressed(TickOf(y, trace[0]), trace[1..], room, most))
  }

  /** Places the tick hands out beyond the departures. */
  ghost function Gain(y: System, z: System, room: string): nat {
    var a, b := Count(y.ledger.extra, room), Count(z.ledger.extra, room);
    if a <= b then b - a else 0
  }

  /** Places handed out beyond the departures since the room's last passed check. */
  ghost function Beyond(y: System, trace: Trace, room: string, before: nat): nat
    decreases |trace|
  {
    if trace == [] then before
    else
      var z := TickOf(y, trace[0]);
      Beyond(z, trace[1..], room, if Passes(y, trace[0], room) then 0 else before + Gain(y, z, room))
  }

  ghost predicate Within(y: System, room: string, most: nat, beyond: nat) {
    |Members(y.server, room)| + Pressure(y, room) <= MAX_ACTIVE + most + beyond
  }

  lemma SectionPeak(y: System, th: Thread, choice: Choice, now: Moment, room: string, most: nat, beyond: nat)
    requires LedgerOk(y) && WorkOf(y, th) != [] && Legal(y.server, WorkOf(y, th)[0], choice) && Within(y, room, most, beyond)
    requires Passes(y, Continue(th, choice, now), room) ==> Pressure(y, room) <= most
    ensures var z := Continued(y, th, choice, now);
            Within(z, room, most, if Passes(y, Continue(th, choice, now), room) then 0 else beyond + Gain(y, z, room))
  {
    hide Effect, Grants, FastGrant, Reenters, AdmitsIn, Vacated, ScriptsOk, TicketsOk, Legal, Booked, Members, Count, HasCapacity, WithinCapacity;
    var w := WorkOf(y, th)[0];
    MembersBooked(y.server, w, choice, room);
    GrantsBooked(y, th, choice, now, room);
    BookedRoom(y, w, choice, room);
    BooksApart(y.server, w, choice, room);
  }

  lemma StartPeak(y: System, a: Action, now: Moment, room: string, most: nat, beyond: nat)
    requires ScriptsOk(y) && CanStart(y, a) && Within(y, room, most, beyond)
    ensures Within(Started(y, a, now), room, most, beyond)
  {
    hide StartEffect, StartWork, ScriptsOk, CanStart, Members, Granted;
    var z := Started(y, a, now);
    StartRooms(y, a, now);
    forall id | id in Grants(z, room) ensures id in Grants(y, room) { StartGrants(y, a, now, room, id); }
    Subset(Grants(z, room), Grants(y, room));
  }

  lemma {:induction false} PeakHolds(y: System, trace: Trace, room: string, most: nat, beyond: nat)
    requires LedgerOk(y) && Feasible(y, trace) && Pressed(y, trace, room, most) && Within(y, room, most, beyond)
    ensures Within(AfterTrace(y, trace), room, most, Beyond(y, trace, room, beyond))
    decreases |trace|
  {
    hide LedgerOk, Within, Pressure, Started, Continued, CanStart, Legal;
    if trace != [] {
      var tick := trace[0];
      var z := TickOf(y, tick);
      TickLedger(y, tick);
      if tick.Begin? {
        assert ScriptsOk(y) by { LedgerScripts(y); }
        StartPeak(y, tick.a, tick.now, room, most, beyond);
        assert Gain(y, z, room) == 0 by { StartGains(y, tick.a, tick.now, room); }
        PeakHolds(z, trace[1..], room, most, beyond);
      } else {
        SectionPeak(y, tick.th, tick.choice, tick.now, room, most, beyond);
        PeakHolds(z, trace[1..], room, most, if Passes(y, tick, room) then 0 else beyond + Gain(y, z, room));
      }
    }
  }

  lemma LedgerScripts(y: System)
    requires LedgerOk(y)
    ensures ScriptsOk(y)
  {
  }

  lemma StartGains(y: System, a: Action, now: Moment, room: string)
    ensures Gain(y, Started(y, a, now), room) == 0
  {
  }

  /** Over every interleaving: members, places out and unanswered departures of a room never exceed ten by more than the
      greatest pressure any of its checks passed under, and the places handed out beyond the departures since the last of
      them. */
  lemma RoomSizePeak(admins: set<string>, trace: Trace, room: string, most: nat)
    requires Feasible(FreshSystem(admins), trace) && Pressed(FreshSystem(admins), trace, room, most)
    ensures var y := AfterTrace(FreshSystem(admins), trace);
            |Members(y.server, room)| + Pressure(y, room) <= MAX_ACTIVE + most + Beyond(FreshSystem(admins), trace, room, 0)
  {
    hide Feasible, LedgerOk, Pressed, AfterTrace, Beyond;
    FreshLedger(admins);
    assert Within(FreshSystem(admins), room, most, 0) by { assert Grants(FreshSystem(admins), room) == {}; }
    PeakHolds(FreshSystem(admins), trace, room, most, 0);
  }

  lemma {:induction false} CalmGainsNothing(y: System, trace: Trace, room: string)
    requires CalmOk(y) && Feasible(y, trace) && CalmTrace(trace)
    ensures Beyond(y, trace, room, 0) == 0
    decreases |trace|
  {
    hide CalmOk, Can, TickOf, CalmTick, Passes;
    if trace != [] {
      assert trace[0] in trace && forall tick <- trace[1..] :: tick in trace;
      TickCalm(y, trace[0]);
      NoExtra(y, TickOf(y, trace[0]), room);
      CalmGainsNothing(TickOf(y, trace[0]), trace[1..], room);
    }
  }

  lemma NoExtra(y: System, z: System, room: string)
    requires CalmOk(z)
    ensures Gain(y, z, room) == 0
  {
    hide ListsOrderly, NamesOwned;
    assert BooksCalm(z);
  }

  /** Without kicks and bans a room never exceeds ten members by more than the greatest pressure any of its checks passed
      under; where every check that passes finds no place out and no departure unanswered, ten is never exceeded. */
  lemma CalmRoomPeak(admins: set<string>, trace: Trace, room: string, most: nat)
    requires Feasible(FreshSystem(admins), trace) && CalmTrace(trace) && Pressed(FreshSystem(admins), trace, room, most)
    ensures |Members(AfterTrace(FreshSystem(admins), trace).server, room)| <= MAX_ACTIVE + most
  {
    hide Feasible, FreshSystem, CalmOk, Pressed, AfterTrace, CalmTrace, Members;
    FreshCalm(admins);
    RoomSizePeak(admins, trace, room, most);
    CalmGainsNothing(FreshSystem(admins), trace, room);
  }
}
