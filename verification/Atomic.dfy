/** The two granularities agree: when nobody else runs in between, the sections of a command amount to its step. */
module Atomic {
  import opened Text
  import opened Messages
  import opened ServerState
  import opened Commands
  import opened Sections
  import opened Bans

  /** Runs one section for each choice. */
  function RunSections(s: Server, ws: seq<Work>, choices: seq<Choice>, now: Moment): (Server, seq<Work>)
    decreases |choices|
  {
    if choices == [] || ws == [] then (s, ws)
    else RunSections(Effect(s, ws[0], choices[0]), Next(s, ws[0], choices[0], now) + ws[1..], choices[1..], now)
  }

  ghost predicate LegalRun(s: Server, ws: seq<Work>, choices: seq<Choice>, now: Moment)
    decreases |choices|
  {
    choices == [] ||
    (ws != [] && Legal(s, ws[0], choices[0])
     && LegalRun(Effect(s, ws[0], choices[0]), Next(s, ws[0], choices[0], now) + ws[1..], choices[1..], now))
  }

  /** The list can be run to its end, and leaves this state. */
  ghost predicate Yields(s: Server, ws: seq<Work>, t: Server, now: Moment) {
    exists choices :: LegalRun(s, ws, choices, now) && RunSections(s, ws, choices, now) == (t, [])
  }

  lemma {:induction false} RunThen(s: Server, a: seq<Work>, b: seq<Work>, first: seq<Choice>, second: seq<Choice>, t: Server, now: Moment)
    requires LegalRun(s, a, first, now) && RunSections(s, a, first, now) == (t, []) && LegalRun(t, b, second, now)
    ensures LegalRun(s, a + b, first + second, now) && RunSections(s, a + b, first + second, now) == RunSections(t, b, second, now)
    decreases |first|
  {
    hide Legal, Effect, Next;
    if first == [] {
      assert a + b == b && first + second == second;
    } else {
      var u, rest := Effect(s, a[0], first[0]), Next(s, a[0], first[0], now) + a[1..];
      RunThen(u, rest, b, first[1..], second, t, now);
      assert (a + b)[1..] == a[1..] + b && (first + second)[1..] == first[1..] + second;
      assert rest + b == Next(s, a[0], first[0], now) + (a + b)[1..];
    }
  }

  lemma Then(s: Server, a: seq<Work>, t: Server, b: seq<Work>, u: Server, now: Moment)
    requires Yields(s, a, t, now) && Yields(t, b, u, now)
    ensures Yields(s, a + b, u, now)
  {
    hide RunSections, LegalRun;
    var first :| LegalRun(s, a, first, now) && RunSections(s, a, first, now) == (t, []);
    var second :| LegalRun(t, b, second, now) && RunSections(t, b, second, now) == (u, []);
    RunThen(s, a, b, first, second, t, now);
  }

  lemma Nothing(s: Server, now: Moment)
    ensures Yields(s, [], s, now)
  {
    assert RunSections(s, [], [], now) == (s, []) && LegalRun(s, [], [], now);
  }

  /** A section, then whatever takes its place. */
  lemma Unfold(s: Server, w: Work, choice: Choice, t: Server, now: Moment)
    requires Legal(s, w, choice) && Yields(Effect(s, w, choice), Next(s, w, choice, now), t, now)
    ensures Yields(s, [w], t, now)
  {
    hide Legal, Effect, Next;
    var u, more := Effect(s, w, choice), Next(s, w, choice, now);
    var choices :| LegalRun(u, more, choices, now) && RunSections(u, more, choices, now) == (t, []);
    var all := [choice] + choices;
    assert all[1..] == choices && more + [w][1..] == more;
    assert LegalRun(s, [w], all, now) && RunSections(s, [w], all, now) == (t, []);
  }

  const ANY := Choice([], [], "")

  lemma One(s: Server, w: Work, now: Moment)
    requires Legal(s, w, ANY) && Next(s, w, ANY, now) == []
    ensures Yields(s, [w], Effect(s, w, ANY), now)
  {
    Nothing(Effect(s, w, ANY), now);
    Unfold(s, w, ANY, Effect(s, w, ANY), now);
  }

  /** A single section in front of a list. */
  lemma Cons(s: Server, w: Work, rest: seq<Work>, t: Server, now: Moment)
    requires Legal(s, w, ANY) && Next(s, w, ANY, now) == [] && Yields(Effect(s, w, ANY), rest, t, now)
    ensures Yields(s, [w] + rest, t, now)
  {
    hide Effect, Next, Legal, Yields;
    One(s, w, now);
    Then(s, [w], Effect(s, w, ANY), rest, t, now);
  }

  lemma Posts(s: Server, room: string, m: Message, exclude: string, rest: seq<Work>, t: Server, now: Moment)
    requires Yields(Publish(s, room, m, exclude), rest, t, now)
    ensures Yields(s, [Post(room, m, exclude)] + rest, t, now)
  {
    hide Yields, Record, BroadcastRoom;
    var e := EventOf(s, room, m);
    var told := Record(s, room, m);
    One(told, Tell(room, e, exclude), now);
    Unfold(s, Post(room, m, exclude), ANY, BroadcastRoom(told, room, e, exclude), now);
    Then(s, [Post(room, m, exclude)], Publish(s, room, m, exclude), rest, t, now);
  }

  // ---------- entering, switching, leaving ----------

  lemma EnteringYields(s: Server, id: ConnId, room: string, now: Moment)
    ensures Yields(s, Entering(s, id, room, now), EnterRoom(s, id, room, now), now)
  {
    hide Yields, Publish, JoinRoom, SendHistory, Note;
    var name := ClientOf(s, id).username;
    var t := Effect(s, Move(id, room), ANY);
    var u := Effect(t, Snapshot(id, room), ANY);
    var post := Note(now, Kind.Join, name, "", "");
    var v := Publish(u, room, post, name);
    JoinKeepsName(s, id, room);
    assert v == EnterRoom(s, id, room, now) by { EnteredSame(s, id, room, now); }
    Nothing(v, now);
    Posts(u, room, post, name, [], v, now);
    Cons(t, Snapshot(id, room), [Post(room, post, name)] + [], v, now);
    Cons(s, Move(id, room), [Snapshot(id, room)] + ([Post(room, post, name)] + []), v, now);
    assert Entering(s, id, room, now) == [Move(id, room)] + ([Snapshot(id, room)] + ([Post(room, post, name)] + []));
  }

  lemma JoinKeepsName(s: Server, id: ConnId, room: string)
    ensures ClientOf(JoinRoom(s, id, room), id) == ClientOf(s, id).(room := room) && id in JoinRoom(s, id, room).conns
  {
  }

  lemma EnteredSame(s: Server, id: ConnId, room: string, now: Moment)
    ensures var u := Effect(Effect(s, Move(id, room), ANY), Snapshot(id, room), ANY);
            var name := ClientOf(s, id).username;
            Publish(u, room, Note(now, Kind.Join, name, "", ""), name) == EnterRoom(s, id, room, now)
  {
    hide Publish, JoinRoom;
    JoinKeepsName(s, id, room);
  }

  lemma SwitchingYields(s: Server, id: ConnId, room: string, now: Moment)
    requires ClientOf(s, id).stage.Active?
    ensures Yields(s, Switching(s, id, room, now), SwitchRoom(s, id, room, now), now)
  {
    hide Yields, Publish, JoinRoom, SendHistory, Note, Admit, DeleteRoomIfEmpty;
    var c := ClientOf(s, id);
    var leave, join := Note(now, Kind.Leave, c.username, "", "switched"), Note(now, Kind.Join, c.username, "", "");
    var parted := Publish(s, c.room, leave, c.username);
    PublishKeepsConns(s, c.room, leave, c.username);
    var moved := Effect(parted, Move(id, room), ANY);
    assert moved == JoinRoom(parted, id, room) by { ActiveMove(parted, id, room); }
    var refilled := Effect(moved, Refill(c.room), ANY);
    var tidied := Effect(refilled, Tidy(c.room), ANY);
    var sent := Effect(tidied, Snapshot(id, room), ANY);
    var v := Publish(sent, room, join, c.username);
    Nothing(v, now);
    Posts(sent, room, join, c.username, [], v, now);
    var w5 := [Post(room, join, c.username)] + [];
    Cons(tidied, Snapshot(id, room), w5, v, now);
    var w4 := [Snapshot(id, room)] + w5;
    Cons(refilled, Tidy(c.room), w4, v, now);
    var w3 := [Tidy(c.room)] + w4;
    Cons(moved, Refill(c.room), w3, v, now);
    var w2 := [Refill(c.room)] + w3;
    Cons(parted, Move(id, room), w2, v, now);
    var w1 := [Move(id, room)] + w2;
    Posts(s, c.room, leave, c.username, w1, v, now);
    assert [Post(c.room, leave, c.username)] + w1 == Switching(s, id, room, now);
  }

  lemma PublishKeepsConns(s: Server, room: string, m: Message, exclude: string)
    ensures Publish(s, room, m, exclude).conns == s.conns
  {
  }

  lemma ActiveMove(s: Server, id: ConnId, room: string)
    requires ClientOf(s, id).stage.Active?
    ensures Effect(s, Move(id, room), ANY) == JoinRoom(s, id, room)
  {
    hide JoinRoom;
    JoinKeepsName(s, id, room);
    assert JoinRoom(s, id, room).conns[id := ClientOf(JoinRoom(s, id, room), id)] == JoinRoom(s, id, room).conns;
  }

  lemma GivingUpYields(s: Server, id: ConnId, now: Moment)
    requires ClientOf(s, id).stage.Naming? || Pending(ClientOf(s, id).stage)
    ensures Yields(s, GivingUp(s, id), GiveUpStep(s, id), now)
  {
    hide Yields, RemoveClient, RemoveFromQueue;
    var c := ClientOf(s, id);
    if c.stage.Naming? {
      One(s, Quit(id), now);
    } else if c.stage.Choosing? {
      FinishYields(s, id, c.username, now);
    } else {
      var t := RemoveFromQueue(s, c.stage.room, c.stage.ticket);
      DequeueKeepsConns(s, c.stage.room, c.stage.ticket);
      FinishYields(t, id, c.username, now);
      Cons(s, Dequeue(c.stage.room, c.stage.ticket), [Unregister(c.username), Quit(id)], FinishPending(t, id), now);
      assert GivingUp(s, id) == [Dequeue(c.stage.room, c.stage.ticket)] + [Unregister(c.username), Quit(id)];
    }
  }

  lemma DequeueKeepsConns(s: Server, room: string, ticket: nat)
    ensures RemoveFromQueue(s, room, ticket).conns == s.conns
  {
  }

  lemma FinishYields(s: Server, id: ConnId, name: string, now: Moment)
    requires name == ClientOf(s, id).username
    ensures Yields(s, [Unregister(name), Quit(id)], FinishPending(s, id), now)
  {
    hide Yields, RemoveClient;
    var t := RemoveClient(s, name);
    One(t, Quit(id), now);
    Cons(s, Unregister(name), [Quit(id)], FinishPending(s, id), now);
    assert [Unregister(name), Quit(id)] == [Unregister(name)] + [Quit(id)];
  }

  lemma LeavingYields(s: Server, id: ConnId, now: Moment)
    ensures Yields(s, Leaving(ClientOf(s, id), id, now), Cleanup(s, id, now), now)
  {
    hide Yields, RemoveClient, Publish, Admit, DeleteRoomIfEmpty, Note, Moderated;
    var c := ClientOf(s, id);
    var leave := Note(now, Kind.Leave, c.username, "", if c.reason.Unset? then "voluntary" else "drop");
    var removed := RemoveClient(s, c.username);
    var t := if Moderated(c) then s else Publish(removed, c.room, leave, c.username);
    var admitted := Effect(t, Refill(c.room), ANY);
    var tidied := Effect(admitted, Tidy(c.room), ANY);
    var v := Effect(tidied, Quit(id), ANY);
    One(tidied, Quit(id), now);
    Cons(admitted, Tidy(c.room), [Quit(id)], v, now);
    Cons(t, Refill(c.room), [Tidy(c.room)] + [Quit(id)], v, now);
    var tail := [Refill(c.room)] + ([Tidy(c.room)] + [Quit(id)]);
    if Moderated(c) {
      assert Leaving(c, id, now) == tail;
    } else {
      Posts(removed, c.room, leave, c.username, tail, v, now);
      Cons(s, Unregister(c.username), [Post(c.room, leave, c.username)] + tail, v, now);
      assert Leaving(c, id, now) == [Unregister(c.username)] + ([Post(c.room, leave, c.username)] + tail);
    }
  }

  // ---------- moderation ----------

  /** The sections that take out one client, in front of a list. */
  lemma ExpelYields(s: Server, id: ConnId, name: string, verdict: Reason, issuer: string, rest: seq<Work>, t: Server, now: Moment)
    requires Yields(Expel(s, id, name, verdict, issuer, now), rest, t, now)
    ensures var c := ClientOf(s, id);
            var m := Note(now, Moderation, name, Verb(verdict), issuer);
            Yields(WithClient(s, id, c.(reason := verdict)), [Unregister(name), Post(c.room, m, ""), Shut(id)] + rest, t, now)
  {
    hide Yields, RemoveClient, Publish, Note, Verb;
    var c := ClientOf(s, id);
    var m := Note(now, Moderation, name, Verb(verdict), issuer);
    var marked := WithClient(s, id, c.(reason := verdict));
    var removed := RemoveClient(marked, name);
    var told := Publish(removed, c.room, m, "");
    Cons(told, Shut(id), rest, t, now);
    Posts(removed, c.room, m, "", [Shut(id)] + rest, t, now);
    Cons(marked, Unregister(name), [Post(c.room, m, "")] + ([Shut(id)] + rest), t, now);
    assert [Unregister(name), Post(c.room, m, ""), Shut(id)] + rest == [Unregister(name)] + ([Post(c.room, m, "")] + ([Shut(id)] + rest));
  }

  lemma KickingYields(s: Server, name: string, issuer: string, now: Moment)
    requires name in s.clients
    ensures Yields(s, Kicking(s, name, issuer, now), KickTarget(s, name, issuer, now), now)
  {
    hide Yields, Expel, Admit, Note;
    var id := s.clients[name];
    var c := ClientOf(s, id);
    var out := Expel(s, id, name, Kicked, issuer, now);
    var cooled := Effect(out, Cool(c.host, now.clock), ANY);
    var v := Effect(cooled, Refill(c.room), ANY);
    One(cooled, Refill(c.room), now);
    Cons(out, Cool(c.host, now.clock), [Refill(c.room)], v, now);
    var tail := [Cool(c.host, now.clock)] + [Refill(c.room)];
    ExpelYields(s, id, name, Kicked, issuer, tail, v, now);
    var m := Note(now, Moderation, name, "kicked", issuer);
    var middle := [Unregister(name), Post(c.room, m, ""), Shut(id)] + tail;
    Cons(s, Mark(id, Kicked), middle, v, now);
    assert [Mark(id, Kicked)] + middle == Kicking(s, name, issuer, now);
  }

  lemma {:induction false} ShutsYield(s: Server, ids: seq<ConnId>, now: Moment)
    ensures Yields(s, Shuts(ids), CloseAll(s, ids), now)
  {
    hide Yields;
    if ids == [] {
      Nothing(s, now);
    } else {
      var init, id := ids[..|ids| - 1], ids[|ids| - 1];
      ShutsYield(s, init, now);
      One(CloseAll(s, init), Shut(id), now);
      Then(s, Shuts(init), CloseAll(s, init), [Shut(id)], CloseAll(s, ids), now);
    }
  }

  lemma SweepYields(s: Server, host: string, visit: seq<string>, penalty: seq<Work>, t: Server, now: Moment)
    requires Enumerates(visit, s.rooms.Keys)
    requires if Purge(s, host, visit).1 == [] then t == s else Yields(PurgeAndClose(s, host, visit), penalty, t, now)
    ensures Yields(s, [Sweep(host, penalty)], t, now)
  {
    hide Yields, Purge, CloseAll, Enumerates;
    var choice := Choice([], visit, "");
    var (purged, removed) := Purge(s, host, visit);
    NothingSwept(s, host, visit);
    if removed == [] {
      Nothing(s, now);
    } else {
      ShutsYield(purged, removed, now);
      Then(purged, Shuts(removed), CloseAll(purged, removed), penalty, t, now);
    }
    Unfold(s, Sweep(host, penalty), choice, t, now);
  }

  // ---------- the places a ban opened ----------

  /** One admission per slot, in the order the rooms are served. */
  function Slots(s: Server, rooms: seq<string>, ids: seq<ConnId>): seq<string> {
    if rooms == [] then []
    else Slots(s, rooms[..|rooms| - 1], ids) + Copies(rooms[|rooms| - 1], SlotsOpened(s, ids, rooms[|rooms| - 1]))
  }

  function Copies(room: string, n: nat): seq<string> { if n == 0 then [] else Copies(room, n - 1) + [room] }

  function AdmitEach(s: Server, rooms: seq<string>): Server {
    if rooms == [] then s else Admit(AdmitEach(s, rooms[..|rooms| - 1]), rooms[|rooms| - 1])
  }

  lemma {:induction false} AdmitEachConcat(s: Server, a: seq<string>, b: seq<string>)
    ensures AdmitEach(s, a + b) == AdmitEach(AdmitEach(s, a), b)
  {
    if b == [] {
      assert a + b == a;
    } else {
      assert (a + b)[..|a + b| - 1] == a + b[..|b| - 1];
      AdmitEachConcat(s, a, b[..|b| - 1]);
    }
  }

  lemma {:induction false} AdmitCopies(s: Server, room: string, n: nat)
    ensures AdmitEach(s, Copies(room, n)) == AdmitTimes(s, room, n)
    ensures forall r :: multiset(Copies(room, n))[r] == if r == room then n else 0
  {
    if n > 0 { AdmitCopies(s, room, n - 1); }
  }

  lemma {:induction false} AdmitSlots(s: Server, rooms: seq<string>, ids: seq<ConnId>)
    requires forall i, j :: 0 <= i < j < |rooms| ==> rooms[i] != rooms[j]
    ensures AdmitEach(s, Slots(s, rooms, ids)) == AdmitRooms(s, rooms, ids)
    ensures forall r :: multiset(Slots(s, rooms, ids))[r] == if r in rooms then SlotsOpened(s, ids, r) else 0
  {
    hide Admit, SlotsOpened;
    if rooms != [] {
      var init, room := rooms[..|rooms| - 1], rooms[|rooms| - 1];
      AdmitSlots(s, init, ids);
      AdmitCopies(AdmitRooms(s, init, ids), room, SlotsOpened(s, ids, room));
      AdmitEachConcat(s, Slots(s, init, ids), Copies(room, SlotsOpened(s, ids, room)));
      assert rooms == init + [room];
    }
  }

  /** A multiset of slots can be served in any order. */
  lemma {:induction false} RefillYields(s: Server, rooms: seq<string>, t: Server, now: Moment)
    requires rooms != [] && t == AdmitEach(s, rooms)
    ensures Yields(s, [RefillAny(multiset(rooms))], t, now)
    decreases |rooms|
  {
    hide Yields, Admit;
    var first, rest := rooms[0], rooms[1..];
    assert rooms == [first] + rest;
    AdmitEachConcat(s, [first], rest);
    assert AdmitEach(s, [first]) == Admit(s, first) by { assert [first][..0] == []; }
    var choice := Choice([], [], first);
    assert multiset(rooms) == multiset{first} + multiset(rest);
    if rest == [] {
      Nothing(t, now);
    } else {
      RefillYields(Admit(s, first), rest, t, now);
      assert multiset(rooms) - multiset{first} == multiset(rest);
      assert |multiset(rest)| > 0;
    }
    Unfold(s, RefillAny(multiset(rooms)), choice, t, now);
  }

  function RoomsOf(s: Server, ids: seq<ConnId>): (rooms: seq<string>)
    ensures |rooms| == |ids| && forall i :: 0 <= i < |ids| ==> rooms[i] == ClientOf(s, ids[i]).room
  {
    seq(|ids|, i requires 0 <= i < |ids| => ClientOf(s, ids[i]).room)
  }

  lemma {:induction false} RoomsCount(s: Server, ids: seq<ConnId>)
    ensures forall r :: multiset(RoomsOf(s, ids))[r] == SlotsOpened(s, ids, r)
  {
    if ids != [] {
      RoomsCount(s, ids[..|ids| - 1]);
      assert RoomsOf(s, ids) == RoomsOf(s, ids[..|ids| - 1]) + [ClientOf(s, ids[|ids| - 1]).room];
    }
  }

  lemma {:induction false} ExpelAllFront(s: Server, ids: seq<ConnId>, issuer: string, now: Moment)
    requires ids != []
    ensures ExpelAll(s, ids, issuer, now)
         == ExpelAll(Expel(s, ids[0], ClientOf(s, ids[0]).username, Banned, issuer, now), ids[1..], issuer, now)
  {
    hide Expel;
    if |ids| == 1 {
      assert ids[..0] == [] && ids[1..] == [] && ids == [ids[0]];
    } else {
      var init := ids[..|ids| - 1];
      ExpelAllFront(s, init, issuer, now);
      assert init[1..] == ids[1..][..|ids| - 2];
    }
  }

  /** The clients of a ban in turn, then the sweep and the admissions. */
  lemma {:induction false} CollateralYields(s: Server, ids: seq<ConnId>, host: string, issuer: string, rooms: multiset<string>, t: Server, now: Moment)
    requires Yields(ExpelAll(s, ids, issuer, now), [Sweep(host, []), RefillAny(rooms + multiset(RoomsOf(s, ids)))], t, now)
    ensures Yields(s, [Collateral(ids, host, issuer, rooms)], t, now)
    decreases |ids|
  {
    hide Yields, Expel, RemoveClient, Note;
    if ids == [] {
      assert rooms + multiset(RoomsOf(s, [])) == rooms;
      Unfold(s, Collateral(ids, host, issuer, rooms), ANY, t, now);
    } else {
      var id, rest := ids[0], ids[1..];
      var c := ClientOf(s, id);
      var out := Expel(s, id, c.username, Banned, issuer, now);
      ExpelAllFront(s, ids, issuer, now);
      RoomsFront(s, out, ids, issuer, rooms, now);
      hide RoomsOf, ExpelAll;
      CollateralYields(out, rest, host, issuer, rooms + multiset{c.room}, t, now);
      NextCollateral(s, ids, host, issuer, rooms, t, now);
    }
  }

  lemma RoomsFront(s: Server, out: Server, ids: seq<ConnId>, issuer: string, rooms: multiset<string>, now: Moment)
    requires ids != [] && out == Expel(s, ids[0], ClientOf(s, ids[0]).username, Banned, issuer, now)
    ensures rooms + multiset{ClientOf(s, ids[0]).room} + multiset(RoomsOf(out, ids[1..])) == rooms + multiset(RoomsOf(s, ids))
  {
    hide Expel;
    ExpelKeepsRooms(s, ids[0], ClientOf(s, ids[0]).username, Banned, issuer, now);
    assert RoomsOf(s, ids) == [ClientOf(s, ids[0]).room] + RoomsOf(out, ids[1..]);
  }

  lemma NextCollateral(s: Server, ids: seq<ConnId>, host: string, issuer: string, rooms: multiset<string>, t: Server, now: Moment)
    requires ids != []
    requires var c := ClientOf(s, ids[0]);
             Yields(Expel(s, ids[0], c.username, Banned, issuer, now), [Collateral(ids[1..], host, issuer, rooms + multiset{c.room})], t, now)
    ensures Yields(s, [Collateral(ids, host, issuer, rooms)], t, now)
  {
    hide Yields, Expel, Note;
    var c := ClientOf(s, ids[0]);
    var m := Note(now, Moderation, c.username, "banned", issuer);
    var more := Collateral(ids[1..], host, issuer, rooms + multiset{c.room});
    ExpelYields(s, ids[0], c.username, Banned, issuer, [more], t, now);
    assert [Unregister(c.username), Post(c.room, m, ""), Shut(ids[0])] + [more] == [Unregister(c.username), Post(c.room, m, ""), Shut(ids[0]), more];
    Unfold(s, Collateral(ids, host, issuer, rooms), ANY, t, now);
  }

  lemma BanningYields(s: Server, name: string, issuer: string, exclude: string, order: BanOrder, now: Moment)
    requires name in s.clients && PossibleOrder(s, name, issuer, exclude, order, now)
    ensures Yields(s, Banning(s, name, issuer, exclude, now), BanTarget(s, name, issuer, order, now), now)
  {
    hide Yields, Expel, ExpelAll, PurgeAndClose, AdmitRooms, Note, Enumerates, ClientsByHost;
    var id := s.clients[name];
    var c := ClientOf(s, id);
    var first := BanFirst(s, name, issuer, now);
    var all := BanEveryone(s, name, issuer, order, now);
    var v := BanTarget(s, name, issuer, order, now);
    var out := Expel(s, id, name, Banned, issuer, now);
    var rooms := multiset{c.room} + multiset(RoomsOf(first, order.collateral));
    ServingYields(s, name, issuer, exclude, order, rooms, now);
    CollateralYields(first, order.collateral, c.host, issuer, multiset{c.room}, v, now);
    Unfold(first, Gather(c.host, exclude, issuer, c.room), Choice(order.collateral, [], ""), v, now);
    Cons(out, Forbid(c.host), [Gather(c.host, exclude, issuer, c.room)], v, now);
    var tail := [Forbid(c.host)] + [Gather(c.host, exclude, issuer, c.room)];
    ExpelYields(s, id, name, Banned, issuer, tail, v, now);
    var m := Note(now, Moderation, name, "banned", issuer);
    var middle := [Unregister(name), Post(c.room, m, ""), Shut(id)] + tail;
    Cons(s, Mark(id, Banned), middle, v, now);
    assert [Mark(id, Banned)] + middle == Banning(s, name, issuer, exclude, now);
  }

  /** The end of a ban: the queues are swept, then the opened places are handed out. */
  lemma ServingYields(s: Server, name: string, issuer: string, exclude: string, order: BanOrder, rooms: multiset<string>, now: Moment)
    requires name in s.clients && PossibleOrder(s, name, issuer, exclude, order, now)
    requires rooms == multiset{ClientOf(s, s.clients[name]).room} + multiset(RoomsOf(BanFirst(s, name, issuer, now), order.collateral))
    ensures Yields(BanEveryone(s, name, issuer, order, now), [Sweep(ClientOf(s, s.clients[name]).host, []), RefillAny(rooms)],
                   BanTarget(s, name, issuer, order, now), now)
  {
    hide Yields, Expel, ExpelAll, PurgeAndClose, AdmitRooms, SlotsOpened, Slots, ClientsByHost, RoomsOf;
    var host := ClientOf(s, s.clients[name]).host;
    var all := BanEveryone(s, name, issuer, order, now);
    var swept := PurgeAndClose(all, host, order.visit);
    var ids := Expelled(s, name, order);
    SlotsAre(s, swept, name, issuer, exclude, order, rooms, now);
    AdmitSlots(swept, order.reopened, ids);
    RefillYields(swept, Slots(swept, order.reopened, ids), BanTarget(s, name, issuer, order, now), now);
    Nothing(swept, now);
    NothingSwept(all, host, order.visit);
    SweepYields(all, host, order.visit, [], swept, now);
    Then(all, [Sweep(host, [])], swept, [RefillAny(rooms)], BanTarget(s, name, issuer, order, now), now);
    assert [Sweep(host, [])] + [RefillAny(rooms)] == [Sweep(host, []), RefillAny(rooms)];
  }

  lemma {:induction false} ExpelAllKeepsRooms(s: Server, ids: seq<ConnId>, issuer: string, now: Moment)
    ensures forall x :: ClientOf(ExpelAll(s, ids, issuer, now), x).room == ClientOf(s, x).room
  {
    hide Expel;
    if ids != [] {
      var t, id := ExpelAll(s, ids[..|ids| - 1], issuer, now), ids[|ids| - 1];
      ExpelAllKeepsRooms(s, ids[..|ids| - 1], issuer, now);
      ExpelKeepsRooms(t, id, ClientOf(t, id).username, Banned, issuer, now);
    }
  }

  lemma BanKeepsRooms(s: Server, name: string, issuer: string, order: BanOrder, now: Moment)
    requires name in s.clients
    ensures forall x :: ClientOf(BanFirst(s, name, issuer, now), x).room == ClientOf(s, x).room
    ensures forall x :: ClientOf(PurgeAndClose(BanEveryone(s, name, issuer, order, now), ClientOf(s, s.clients[name]).host, order.visit), x).room
                     == ClientOf(s, x).room
  {
    hide Expel, ExpelAll, PurgeAndClose;
    ExpelKeepsRooms(s, s.clients[name], name, Banned, issuer, now);
    var out := Expel(s, s.clients[name], name, Banned, issuer, now);
    assert forall x :: ClientOf(BanFirst(s, name, issuer, now), x) == ClientOf(out, x);
    ExpelAllKeepsRooms(BanFirst(s, name, issuer, now), order.collateral, issuer, now);
    SweepKeepsRooms(BanEveryone(s, name, issuer, order, now), ClientOf(s, s.clients[name]).host, order.visit);
  }

  lemma SlotsAre(s: Server, swept: Server, name: string, issuer: string, exclude: string, order: BanOrder, rooms: multiset<string>, now: Moment)
    requires name in s.clients && PossibleOrder(s, name, issuer, exclude, order, now)
    requires swept == PurgeAndClose(BanEveryone(s, name, issuer, order, now), ClientOf(s, s.clients[name]).host, order.visit)
    requires rooms == multiset{ClientOf(s, s.clients[name]).room} + multiset(RoomsOf(BanFirst(s, name, issuer, now), order.collateral))
    ensures multiset(Slots(swept, order.reopened, Expelled(s, name, order))) == rooms && Slots(swept, order.reopened, Expelled(s, name, order)) != []
  {
    hide BanFirst, BanEveryone, PurgeAndClose, SlotsOpened, Slots, ClientsByHost, ClientOf;
    var ids := Expelled(s, name, order);
    var slots := Slots(swept, order.reopened, ids);
    BanKeepsRooms(s, name, issuer, order, now);
    assert RoomsOf(BanFirst(s, name, issuer, now), order.collateral) == RoomsOf(s, order.collateral);
    assert RoomsOf(s, ids) == [ClientOf(s, s.clients[name]).room] + RoomsOf(s, order.collateral);
    RoomsCount(s, ids);
    AdmitSlots(swept, order.reopened, ids);
    forall r ensures multiset(slots)[r] == rooms[r] { SlotsIn(s, swept, order.reopened, ids, r); }
    assert multiset(slots) == rooms;
    assert rooms[ClientOf(s, s.clients[name]).room] > 0;
  }

  lemma SlotsIn(s: Server, swept: Server, reopened: seq<string>, ids: seq<ConnId>, r: string)
    requires forall x :: ClientOf(swept, x).room == ClientOf(s, x).room
    requires forall x :: x in reopened <==> exists id :: id in ids && ClientOf(s, id).room == x
    ensures SlotsOpened(s, ids, r) == if r in reopened then SlotsOpened(swept, ids, r) else 0
  {
    SameSlots(s, swept, ids, r);
    if r !in reopened {
      forall id | id in ids ensures ClientOf(s, id).room != r { }
      NoSlots(s, ids, r);
    }
  }

  // ---------- every command ----------

  lemma {:induction false} JotsYield(s: Server, names: seq<string>, text: string, issuer: string, now: Moment)
    ensures Yields(s, Jots(names, Note(now, Announcement, "", text, issuer)), AnnounceIn(s, names, text, issuer, now), now)
  {
    hide Yields, Record, Note;
    if names == [] {
      Nothing(s, now);
    } else {
      var init, room := names[..|names| - 1], names[|names| - 1];
      var m := Note(now, Announcement, "", text, issuer);
      var t := AnnounceIn(s, init, text, issuer, now);
      JotsYield(s, init, text, issuer, now);
      One(t, Jot(room, m), now);
      Then(s, Jots(init, m), t, [Jot(room, m)], Record(t, room, m), now);
    }
  }

  lemma FlagYields(s: Server, name: string, on: bool, issuer: string, now: Moment)
    requires name in s.clients
    ensures Yields(SetMuted(s, name, on), Flagged(s, name, ClientOf(s, s.clients[name]).muted == on, if on then "muted" else "unmuted", issuer, now),
                   MuteTarget(s, name, on, issuer, now), now)
    ensures Yields(SetAdmin(s, name, on), Flagged(s, name, ClientOf(s, s.clients[name]).admin == on, if on then "promoted" else "demoted", issuer, now),
                   PromoteTarget(s, name, on, issuer, now), now)
  {
    hide Yields, Record, Note;
    Nothing(s, now);
    var room := ClientOf(s, s.clients[name]).room;
    One(SetMuted(s, name, on), Jot(room, Note(now, Moderation, name, if on then "muted" else "unmuted", issuer)), now);
    One(SetAdmin(s, name, on), Jot(room, Note(now, Moderation, name, if on then "promoted" else "demoted", issuer)), now);
  }

  lemma RekeyYields(s: Server, id: ConnId, name: string, now: Moment)
    requires name != "" && ValidName(name) && !Reserved(name) && name != ClientOf(s, id).username
    ensures Yields(s, [Rekey(id, name)], RenameStep(s, id, name, now), now)
  {
    hide Yields, Publish, ValidName, RenameAdmin, Note;
    var c := ClientOf(s, id);
    var (t, ok) := RenameClient(s, id, c.username, name);
    var m := Note(now, NameChange, name, "", c.username);
    if !ok {
      Nothing(s, now);
    } else {
      var u := if c.admin then RenameAdmin(t, c.username, name) else t;
      var v := Publish(u, c.room, m, "");
      Nothing(v, now);
      Posts(u, c.room, m, "", [], v, now);
      assert [Post(c.room, m, "")] + [] == [Post(c.room, m, "")];
      if c.admin { Cons(t, AdminRekey(c.username, name), [Post(c.room, m, "")], v, now); }
      else { assert [] + [Post(c.room, m, "")] == [Post(c.room, m, "")]; }
    }
    Unfold(s, Rekey(id, name), ANY, RenameStep(s, id, name, now), now);
  }

  lemma RenameYields(s: Server, id: ConnId, args: string, now: Moment)
    ensures Yields(s, StartWork(s, Rename(id, args), now), RenameStep(s, id, args, now), now)
  {
    hide Yields, Publish, ValidName, RenameClient;
    Nothing(s, now);
    if args != "" && ValidName(args) && !Reserved(args) && args != ClientOf(s, id).username { RekeyYields(s, id, args, now); }
  }

  lemma ChooseYields(s: Server, id: ConnId, line: string, now: Moment)
    requires ClientOf(s, id).stage.Choosing?
    ensures Yields(s, StartWork(s, ChooseRoom(id, line), now), SubmitRoom(s, id, line, now), now)
  {
    hide Yields, EnterRoom, Entering, ValidName, TrimSpace, HasCapacity, FinishPending, Enqueue, GivingUp;
    var room := if TrimSpace(line) == "" then DEFAULT_ROOM else TrimSpace(line);
    if !ValidName(room) {
      Nothing(s, now);
    } else if s.shuttingDown {
      GivingUpYields(s, id, now);
    } else {
      if HasCapacity(s, room) { EnteringYields(s, id, room, now); } else { One(s, Line(id, room), now); }
      Unfold(s, Check(id, room), ANY, SubmitRoom(s, id, line, now), now);
    }
  }

  lemma SayYields(s: Server, id: ConnId, line: string, now: Moment)
    ensures Yields(s, StartWork(s, Say(id, line), now), SayStep(s, id, line, now), now)
  {
    hide Yields, Publish, TrimSpace, ByteLen, Note;
    var c := ClientOf(s, id);
    var m := Note(now, Chat, c.username, line, "");
    var v := Publish(s, c.room, m, c.username);
    Nothing(s, now);
    Nothing(v, now);
    Posts(s, c.room, m, c.username, [], v, now);
    assert [Post(c.room, m, c.username)] + [] == [Post(c.room, m, c.username)];
  }

  lemma SwitchYields(s: Server, id: ConnId, args: string, now: Moment)
    requires ClientOf(s, id).stage.Active?
    ensures Yields(s, StartWork(s, Switch(id, args), now), SwitchStep(s, id, args, now), now)
    ensures Yields(s, StartWork(s, Create(id, args), now), CreateStep(s, id, args, now), now)
  {
    hide Yields, SwitchRoom, Switching, ValidName, HasCapacity;
    Nothing(s, now);
    SwitchingYields(s, id, args, now);
    if args != "" && ValidName(args) {
      if args != ClientOf(s, id).room { Unfold(s, CheckSwitch(id, args), ANY, SwitchStep(s, id, args, now), now); }
      Unfold(s, CheckCreate(id, args), ANY, CreateStep(s, id, args, now), now);
    }
  }

  lemma QueuedYields(s: Server, host: string, visit: seq<string>, now: Moment)
    requires Enumerates(visit, s.rooms.Keys)
    ensures Yields(s, [Sweep(host, [Cool(host, now.clock)])], KickQueued(s, host, visit, now), now)
    ensures Yields(s, [Sweep(host, [Forbid(host)])], BanQueued(s, host, visit), now)
  {
    hide Yields, Purge, PurgeAndClose, Enumerates;
    var swept := PurgeAndClose(s, host, visit);
    One(swept, Cool(host, now.clock), now);
    One(swept, Forbid(host), now);
    SweepYields(s, host, visit, [Cool(host, now.clock)], KickQueued(s, host, visit, now), now);
    SweepYields(s, host, visit, [Forbid(host)], BanQueued(s, host, visit), now);
  }

  /** Run alone, the sections of any command end in the state of its whole-command step, for every order its map
      iterations may take. */
  lemma SectionsMakeStep(s: Server, a: Action, now: Moment)
    requires Enabled(s, a, now)
    ensures Yields(StartEffect(s, a, now), StartWork(s, a, now), Step(s, a, now), now)
  {
    hide Yields, AcceptConnection, SubmitName, SubmitRoom, EnterRoom, Entering, GiveUpStep, GivingUp, SayStep, SwitchStep, CreateStep,
         RenameStep, KickTarget, Kicking, BanTarget, Banning, MuteTarget, PromoteTarget, AnnounceIn, Jots, Flagged, SetMuted, SetAdmin, Cleanup,
         KickQueued, BanQueued, PossibleOrder, Enumerates, ClearHistory, TrimSpace, ByteLen, ValidName, Leaving, Note;
    Nothing(s, now);
    Nothing(StartEffect(s, a, now), now);
    if SessionAction(a) {
      SessionYields(s, a, now);
    } else {
      match a
      case ChooseRoom(id, line) => ChooseYields(s, id, line, now);
      case Answer(id, line) => GivingUpYields(s, id, now);
      case TakeSlot(id) => EnteringYields(s, id, ClientOf(s, id).stage.room, now);
      case GiveUp(id) => GivingUpYields(s, id, now);
      case Leave(id, drop) => LeavingYields(StartEffect(s, a, now), id, now);
      case OperatorKick(args, visit) => if args in s.clients { KickingYields(s, args, "Server", now); } else { QueuedYields(s, args, visit, now); }
      case OperatorBan(args, order) =>
        if args in s.clients { BanningYields(s, args, "Server", "", order, now); } else { QueuedYields(s, args, order.visit, now); }
      case OperatorSetMute(args, on) => if args in s.clients { FlagYields(s, args, on, "Server", now); }
      case OperatorAnnounce(args, names) => JotsYield(s, names, args, "Server", now);
      case OperatorPromote(args) => if args in s.clients { FlagYields(s, args, true, "Server", now); }
      case OperatorDemote(args) => if args in s.clients { FlagYields(s, args, false, "Server", now); }
      case _ =>
    }
  }

  predicate SessionAction(a: Action) { a.Say? || a.Switch? || a.Create? || a.Rename? || a.Kick? || a.Ban? || a.SetMute? || a.Announce? }

  lemma SessionYields(s: Server, a: Action, now: Moment)
    requires Enabled(s, a, now) && SessionAction(a)
    ensures Yields(StartEffect(s, a, now), StartWork(s, a, now), Step(s, a, now), now)
  {
    hide Yields, SayStep, SwitchStep, CreateStep, RenameStep, KickTarget, Kicking, BanTarget, Banning, MuteTarget, AnnounceIn, Jots, Flagged,
         SetMuted, PossibleOrder, Enumerates, TrimSpace, ByteLen, ValidName, Note;
    Nothing(s, now);
    var id := a.id;
    var c := ClientOf(s, id);
    match a
    case Say(_, line) => SayYields(s, id, line, now);
    case Switch(_, args) => SwitchYields(s, id, args, now);
    case Create(_, args) => SwitchYields(s, id, args, now);
    case Rename(_, args) => RenameYields(s, id, args, now);
    case Kick(_, args) => if args in s.clients { KickingYields(s, args, c.username, now); }
    case Ban(_, args, order) => if args in s.clients { BanningYields(s, args, c.username, c.username, order, now); }
    case SetMute(_, args, on) => if args in s.clients { FlagYields(s, args, on, c.username, now); }
    case Announce(_, args, names) => JotsYield(s, names, args, c.username, now);
  }
}
