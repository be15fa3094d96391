/** Room queues over whole runs: first in, first out, single admission, and up-to-date position notices. */
module Queues {
  import opened Messages
  import opened ServerState
  import opened Commands
  import opened OwnershipRuns

  // ---------- the invariant ----------

  predicate Increasing(a: seq<nat>) {
    forall i, j :: 0 <= i < j < |a| ==> a[i] < a[j]
  }

  function TicketsOf(queue: seq<Entry>): (t: seq<nat>)
    ensures |t| == |queue|
    ensures forall i :: 0 <= i < |t| ==> t[i] == queue[i].ticket
  {
    seq(|queue|, i requires 0 <= i < |queue| => queue[i].ticket)
  }

  predicate OfRoom(s: Server, ticket: nat, room: string) {
    ticket < |s.tickets| && s.tickets[ticket].room == room
  }

  /** Tickets admitted for a room, in admission order. */
  function AdmittedFor(s: Server, admitted: seq<nat>, room: string): seq<nat> {
    if admitted == [] then []
    else
      var t := admitted[|admitted| - 1];
      AdmittedFor(s, admitted[..|admitted| - 1], room) + if OfRoom(s, t, room) then [t] else []
  }

  /** A queued entry carries its own ticket and belongs to a connection waiting with exactly that ticket. */
  predicate EntryOk(s: Server, room: string, e: Entry) {
    && e.ticket < |s.tickets| && s.tickets[e.ticket] == Ticket(room, e.client)
    && (ClientOf(s, e.client).stage == Asked(room, e.ticket) || ClientOf(s, e.client).stage == Waiting(room, e.ticket))
  }

  /** Admission order, then queue order, is enqueue order. */
  predicate InOrder(s: Server, room: string) {
    Increasing(AdmittedFor(s, s.admitted, room) + TicketsOf(Queue(s, room)))
  }

  /** The last position sent to every queued connection is its place. */
  predicate Numbered(s: Server, room: string) {
    forall i :: 0 <= i < |Queue(s, room)| ==>
      Queue(s, room)[i].client in s.position && s.position[Queue(s, room)[i].client] == i + 1
  }

  ghost predicate QueuesOk(s: Server) {
    && (forall t <- s.admitted :: t < |s.tickets|)
    && (forall i, j :: 0 <= i < j < |s.admitted| ==> s.admitted[i] != s.admitted[j])
    && (forall room, e :: e in Queue(s, room) ==> EntryOk(s, room, e))
    && (forall room :: InOrder(s, room))
    && (forall room :: Numbered(s, room))
  }

  // ---------- consequences ----------

  lemma {:induction false} AdmittedForMembers(s: Server, admitted: seq<nat>, room: string)
    ensures forall t :: t in AdmittedFor(s, admitted, room) <==> t in admitted && OfRoom(s, t, room)
  {
    if admitted != [] {
      var init, last := admitted[..|admitted| - 1], admitted[|admitted| - 1];
      AdmittedForMembers(s, init, room);
      assert admitted == init + [last];
    }
  }

  lemma OrderParts(a: seq<nat>, b: seq<nat>)
    requires Increasing(a + b)
    ensures Increasing(a) && Increasing(b) && forall x, y :: x in a && y in b ==> x < y
  {
    var s := a + b;
    assert forall i :: 0 <= i < |a| ==> s[i] == a[i];
    assert forall i :: 0 <= i < |b| ==> s[|a| + i] == b[i];
  }

  lemma OrderJoin(a: seq<nat>, b: seq<nat>)
    requires Increasing(a) && Increasing(b) && forall x, y :: x in a && y in b ==> x < y
    ensures Increasing(a + b)
  {
    var s := a + b;
    forall i, j | 0 <= i < j < |s| ensures s[i] < s[j] {
      if i < |a| <= j {
        assert a[i] in a && b[j - |a|] in b;
      }
    }
  }

  /** An admitted ticket is in no queue, so it is never admitted a second time. */
  lemma AdmittedIsNotQueued(s: Server, room: string, e: Entry)
    requires QueuesOk(s) && e in Queue(s, room)
    ensures e.ticket !in s.admitted
  {
    assert EntryOk(s, room, e) && InOrder(s, room);
    AdmittedForMembers(s, s.admitted, room);
    OrderParts(AdmittedFor(s, s.admitted, room), TicketsOf(Queue(s, room)));
    TicketOfEntry(Queue(s, room), e);
  }

  lemma TicketOfEntry(queue: seq<Entry>, e: Entry)
    requires e in queue
    ensures e.ticket in TicketsOf(queue)
  {
    var i :| 0 <= i < |queue| && queue[i] == e;
    assert TicketsOf(queue)[i] == e.ticket;
  }

  /** A connection occupies at most one place in all queues together. */
  lemma OnePlace(s: Server, r1: string, r2: string, i: nat, j: nat)
    requires QueuesOk(s) && i < |Queue(s, r1)| && j < |Queue(s, r2)|
    requires Queue(s, r1)[i].client == Queue(s, r2)[j].client || Queue(s, r1)[i].ticket == Queue(s, r2)[j].ticket
    ensures r1 == r2 && i == j
  {
    assert EntryOk(s, r1, Queue(s, r1)[i]) && EntryOk(s, r2, Queue(s, r2)[j]) && InOrder(s, r1);
    OrderParts(AdmittedFor(s, s.admitted, r1), TicketsOf(Queue(s, r1)));
    var t := TicketsOf(Queue(s, r1));
    assert r1 == r2;
    assert t[i] == t[j];
  }

  // ---------- renumbering ----------

  predicate DistinctClients(queue: seq<Entry>) {
    forall i, j :: 0 <= i < j < |queue| ==> queue[i].client != queue[j].client
  }

  lemma {:induction false} Renumbered(position: map<ConnId, nat>, queue: seq<Entry>)
    requires DistinctClients(queue)
    ensures var p := Renumber(position, queue);
            && (forall i :: 0 <= i < |queue| ==> queue[i].client in p && p[queue[i].client] == i + 1)
            && (forall id :: (forall i :: 0 <= i < |queue| ==> queue[i].client != id) ==>
                  (id in p <==> id in position) && (id in p ==> p[id] == position[id]))
  {
    if queue != [] {
      var init := queue[..|queue| - 1];
      assert forall i :: 0 <= i < |init| ==> init[i] == queue[i];
      Renumbered(position, init);
    }
  }

  // ---------- frames ----------

  /** Queues, tickets and notices are the same, and no queued connection changed stage. */
  ghost predicate SameQueues(s: Server, t: Server) {
    && t.tickets == s.tickets && t.admitted == s.admitted && t.position == s.position
    && (forall room :: Queue(t, room) == Queue(s, room))
    && (forall id :: ClientOf(s, id).stage.Asked? || ClientOf(s, id).stage.Waiting? ==> ClientOf(t, id).stage == ClientOf(s, id).stage)
  }

  lemma {:induction false} AdmittedForSame(s: Server, t: Server, admitted: seq<nat>, room: string)
    requires t.tickets == s.tickets
    ensures AdmittedFor(t, admitted, room) == AdmittedFor(s, admitted, room)
  {
    if admitted != [] {
      AdmittedForSame(s, t, admitted[..|admitted| - 1], room);
    }
  }

  lemma SameQueuesOk(s: Server, t: Server)
    requires QueuesOk(s) && SameQueues(s, t)
    ensures QueuesOk(t)
  {
    hide AdmittedFor, Increasing;
    forall room, e | e in Queue(t, room) ensures EntryOk(t, room, e) { assert EntryOk(s, room, e); }
    forall room ensures InOrder(t, room) { assert InOrder(s, room); AdmittedForSame(s, t, s.admitted, room); }
    forall room ensures Numbered(t, room) { assert Numbered(s, room); }
  }

  /** A connection without a place in any queue may change stage. */
  lemma UnqueuedChange(s: Server, t: Server, id: ConnId)
    requires QueuesOk(s) && forall room, e :: e in Queue(s, room) ==> e.client != id
    requires t.tickets == s.tickets && t.admitted == s.admitted && t.position == s.position
    requires forall room :: Queue(t, room) == Queue(s, room)
    requires forall x :: x != id ==> ClientOf(t, x).stage == ClientOf(s, x).stage
    ensures QueuesOk(t)
  {
    hide AdmittedFor, Increasing;
    forall room, e | e in Queue(t, room) ensures EntryOk(t, room, e) { assert EntryOk(s, room, e); }
    forall room ensures InOrder(t, room) { assert InOrder(s, room); AdmittedForSame(s, t, s.admitted, room); }
    forall room ensures Numbered(t, room) { assert Numbered(s, room); }
  }

  // ---------- one queue shrinks and is renumbered ----------

  /** The entries of a queue that survive, in order. */
  ghost predicate Shrunk(before: seq<Entry>, after: seq<Entry>) {
    && (forall e <- after :: e in before)
    && (Increasing(TicketsOf(before)) ==> Increasing(TicketsOf(after)))
  }

  lemma ShrinkOk(s: Server, room: string, queue: seq<Entry>)
    requires QueuesOk(s) && Shrunk(Queue(s, room), queue)
    ensures QueuesOk(WithQueue(s, room, queue).(position := Renumber(s.position, queue)))
  {
    hide QueuesOk, AdmittedFor, Increasing, Renumber;
    var t := WithQueue(s, room, queue).(position := Renumber(s.position, queue));
    ShrunkDistinct(s, room, queue);
    Renumbered(s.position, queue);
    TwoQueues(s, room, queue, t.position);
    forall r, e | e in Queue(t, r) ensures EntryOk(t, r, e) { QueuedEntry(s, r, e); }
    forall r ensures InOrder(t, r) {
      RoomOrder(s, r);
      AdmittedForSame(s, t, s.admitted, r);
      if r == room { ShrunkOrder(AdmittedFor(s, s.admitted, r), Queue(s, r), queue); }
    }
    forall r ensures Numbered(t, r) {
      if r != room { OtherNumbered(s, room, queue, r); }
    }
    assert (forall x <- s.admitted :: x < |s.tickets|) && (forall i, j :: 0 <= i < j < |s.admitted| ==> s.admitted[i] != s.admitted[j]) by {
      AdmittedFacts(s);
    }
    QueuesOkIf(t);
  }

  lemma QueuesOkIf(s: Server)
    requires forall t <- s.admitted :: t < |s.tickets|
    requires forall i, j :: 0 <= i < j < |s.admitted| ==> s.admitted[i] != s.admitted[j]
    requires forall room, e :: e in Queue(s, room) ==> EntryOk(s, room, e)
    requires forall room :: InOrder(s, room)
    requires forall room :: Numbered(s, room)
    ensures QueuesOk(s)
  {
  }

  lemma AdmittedFacts(s: Server)
    requires QueuesOk(s)
    ensures forall t <- s.admitted :: t < |s.tickets|
    ensures forall i, j :: 0 <= i < j < |s.admitted| ==> s.admitted[i] != s.admitted[j]
  {
  }

  lemma QueuedEntry(s: Server, room: string, e: Entry)
    requires QueuesOk(s) && e in Queue(s, room)
    ensures EntryOk(s, room, e)
  {
  }

  lemma RoomOrder(s: Server, room: string)
    requires QueuesOk(s)
    ensures InOrder(s, room) && Numbered(s, room)
  {
  }

  lemma TwoQueues(s: Server, room: string, queue: seq<Entry>, position: map<ConnId, nat>)
    ensures var t := WithQueue(s, room, queue).(position := position);
            && (forall r :: Queue(t, r) == if r == room then queue else Queue(s, r))
            && (forall id :: ClientOf(t, id) == ClientOf(s, id))
  {
  }

  lemma ShrunkDistinct(s: Server, room: string, queue: seq<Entry>)
    requires QueuesOk(s) && Shrunk(Queue(s, room), queue)
    ensures DistinctClients(queue)
  {
    hide QueuesOk, AdmittedFor;
    RoomOrder(s, room);
    OrderParts(AdmittedFor(s, s.admitted, room), TicketsOf(Queue(s, room)));
    forall i, j | 0 <= i < j < |queue| ensures queue[i].client != queue[j].client {
      QueuedEntry(s, room, queue[i]);
      QueuedEntry(s, room, queue[j]);
      assert TicketsOf(queue)[i] < TicketsOf(queue)[j];
    }
  }

  lemma ShrunkOrder(admitted: seq<nat>, before: seq<Entry>, after: seq<Entry>)
    requires Increasing(admitted + TicketsOf(before)) && Shrunk(before, after)
    ensures Increasing(admitted + TicketsOf(after))
  {
    hide Increasing;
    OrderParts(admitted, TicketsOf(before));
    forall x, y | x in admitted && y in TicketsOf(after) ensures x < y {
      var i :| 0 <= i < |after| && TicketsOf(after)[i] == y;
      assert after[i] in before;
      var j :| 0 <= j < |before| && before[j] == after[i];
      assert TicketsOf(before)[j] in TicketsOf(before);
    }
    OrderJoin(admitted, TicketsOf(after));
  }

  lemma OtherNumbered(s: Server, room: string, queue: seq<Entry>, r: string)
    requires QueuesOk(s) && Shrunk(Queue(s, room), queue) && r != room && DistinctClients(queue)
    ensures Numbered(WithQueue(s, room, queue).(position := Renumber(s.position, queue)), r)
  {
    hide QueuesOk, AdmittedFor, Renumber;
    RoomOrder(s, r);
    Renumbered(s.position, queue);
    TwoQueues(s, room, queue, Renumber(s.position, queue));
    forall i | 0 <= i < |Queue(s, r)|
      ensures forall j :: 0 <= j < |queue| ==> queue[j].client != Queue(s, r)[i].client
    {
      QueuedEntry(s, r, Queue(s, r)[i]);
      forall j | 0 <= j < |queue| ensures queue[j].client != Queue(s, r)[i].client { QueuedEntry(s, room, queue[j]); }
    }
  }

  // ---------- ways to shrink ----------

  lemma SuffixShrinks(queue: seq<Entry>, k: nat)
    requires k <= |queue|
    ensures Shrunk(queue, queue[k..])
  {
    var t := TicketsOf(queue);
    assert forall i :: 0 <= i < |queue[k..]| ==> TicketsOf(queue[k..])[i] == t[k + i];
  }

  lemma {:induction false} WithoutTicketShrinks(queue: seq<Entry>, ticket: nat)
    ensures Shrunk(queue, WithoutTicket(queue, ticket))
  {
    hide Shrunk;
    if queue == [] {
      SuffixShrinks(queue, 0);
    } else if queue[0].ticket == ticket {
      SuffixShrinks(queue, 1);
    } else {
      WithoutTicketShrinks(queue[1..], ticket);
      WithoutTicketStep(queue, ticket);
    }
  }

  /** Tickets in a queue are distinct, so removing the first match removes the ticket. */
  lemma {:induction false} TicketGone(queue: seq<Entry>, ticket: nat)
    requires Increasing(TicketsOf(queue))
    ensures forall e <- WithoutTicket(queue, ticket) :: e.ticket != ticket
  {
    if queue != [] {
      var rest := queue[1..];
      assert forall i :: 0 <= i < |rest| ==> TicketsOf(rest)[i] == TicketsOf(queue)[i + 1];
      if queue[0].ticket == ticket {
        forall e | e in rest ensures e.ticket != ticket {
          var i :| 0 <= i < |rest| && rest[i] == e;
          assert TicketsOf(queue)[0] < TicketsOf(queue)[i + 1];
        }
      } else {
        TicketGone(rest, ticket);
      }
    }
  }

  lemma WithoutTicketStep(queue: seq<Entry>, ticket: nat)
    requires queue != [] && queue[0].ticket != ticket
    requires Shrunk(queue[1..], WithoutTicket(queue[1..], ticket))
    ensures Shrunk(queue, WithoutTicket(queue, ticket))
  {
    var rest, kept := queue[1..], WithoutTicket(queue[1..], ticket);
    if Increasing(TicketsOf(queue)) {
      assert Increasing(TicketsOf(rest)) by {
        assert forall i :: 0 <= i < |rest| ==> TicketsOf(rest)[i] == TicketsOf(queue)[i + 1];
      }
      forall e | e in kept ensures queue[0].ticket < e.ticket {
        var i :| 0 <= i < |rest| && rest[i] == e;
        assert TicketsOf(queue)[0] < TicketsOf(queue)[i + 1];
      }
      var all := [queue[0]] + kept;
      forall i, j | 0 <= i < j < |all| ensures TicketsOf(all)[i] < TicketsOf(all)[j] {
        if i == 0 {
          assert kept[j - 1] in kept;
        } else {
          assert TicketsOf(kept)[i - 1] < TicketsOf(kept)[j - 1];
        }
      }
    }
  }

  lemma {:induction false} KeptShrinks(s: Server, queue: seq<Entry>, host: string)
    ensures Shrunk(queue, Kept(s, queue, host))
    ensures forall e :: e in Kept(s, queue, host) <==> e in queue && !HasHost(s, e.client, host)
  {
    if queue != [] {
      var init, last := queue[..|queue| - 1], queue[|queue| - 1];
      KeptShrinks(s, init, host);
      assert queue == init + [last];
      if !HasHost(s, last.client, host) {
        KeptStep(init, last, Kept(s, init, host));
      } else {
        assert forall i :: 0 <= i < |init| ==> TicketsOf(init)[i] == TicketsOf(queue)[i];
      }
    }
  }

  lemma KeptStep(init: seq<Entry>, last: Entry, kept: seq<Entry>)
    requires Shrunk(init, kept)
    ensures Shrunk(init + [last], kept + [last])
  {
    var queue, all := init + [last], kept + [last];
    if Increasing(TicketsOf(queue)) {
      assert Increasing(TicketsOf(init)) by {
        assert forall i :: 0 <= i < |init| ==> TicketsOf(init)[i] == TicketsOf(queue)[i];
      }
      forall i, j | 0 <= i < j < |all| ensures TicketsOf(all)[i] < TicketsOf(all)[j] {
        if j < |kept| {
          assert TicketsOf(kept)[i] < TicketsOf(kept)[j];
        } else {
          assert kept[i] in init;
          var k :| 0 <= k < |init| && init[k] == kept[i];
          assert TicketsOf(queue)[k] < TicketsOf(queue)[|init|];
        }
      }
    }
  }

  // ---------- admission ----------

  /** Position k is the first live connection of the queue, or its end. */
  predicate FirstLive(s: Server, queue: seq<Entry>, k: nat) {
    k <= |queue| && (forall i :: 0 <= i < k ==> ClientOf(s, queue[i].client).closed)
    && (k < |queue| ==> !ClientOf(s, queue[k].client).closed)
  }

  /** One admit call: discards only closed connections at the front, admits the first live one if there is one. */
  lemma AdmitTakesFirstLive(s: Server, room: string)
    requires !s.shuttingDown && room in s.rooms
    ensures var t := Admit(s, room);
            var queue := Queue(s, room);
            exists k: nat :: FirstLive(s, queue, k)
              && (if k == |queue| then Queue(t, room) == [] && t.admitted == s.admitted
                  else Queue(t, room) == queue[k + 1..] && t.admitted == s.admitted + [queue[k].ticket])
  {
    assert FirstLive(s, Queue(s, room), ClosedAhead(s, Queue(s, room)));
  }

  lemma AdmitOk(s: Server, room: string)
    requires QueuesOk(s)
    ensures QueuesOk(Admit(s, room))
  {
    hide QueuesOk, Renumber, ClosedAhead, AdmittedFor;
    var queue := Queue(s, room);
    var k := ClosedAhead(s, queue);
    if !s.shuttingDown && room in s.rooms {
      if k == |queue| {
        SuffixShrinks(queue, |queue|);
        ShrinkOk(s, room, []);
        assert Renumber(s.position, []) == s.position by { RenumberNothing(s.position); }
      } else {
        SuffixShrinks(queue, k + 1);
        ShrinkOk(s, room, queue[k + 1..]);
        var t := WithQueue(s, room, queue[k + 1..]).(position := Renumber(s.position, queue[k + 1..]));
        QueuedEntry(s, room, queue[k]);
        AdmittedIsNotQueued(s, room, queue[k]);
        RoomOrder(s, room);
        NewlyAdmitted(s, t, room, k);
      }
    }
  }

  lemma RenumberNothing(position: map<ConnId, nat>)
    ensures Renumber(position, []) == position
  {
  }

  lemma NewlyAdmitted(s: Server, t: Server, room: string, k: nat)
    requires k < |Queue(s, room)| && EntryOk(s, room, Queue(s, room)[k]) && InOrder(s, room)
    requires QueuesOk(t) && t.tickets == s.tickets && t.admitted == s.admitted && Queue(t, room) == Queue(s, room)[k + 1..]
    requires Queue(s, room)[k].ticket !in s.admitted
    ensures QueuesOk(t.(admitted := s.admitted + [Queue(s, room)[k].ticket]))
  {
    hide QueuesOk, AdmittedFor;
    var ticket := Queue(s, room)[k].ticket;
    var u := t.(admitted := s.admitted + [ticket]);
    AdmittedFacts(t);
    assert forall r :: Queue(u, r) == Queue(t, r);
    assert forall id :: ClientOf(u, id) == ClientOf(t, id);
    forall r, e | e in Queue(u, r) ensures EntryOk(u, r, e) { QueuedEntry(t, r, e); }
    forall r ensures InOrder(u, r) {
      RoomOrder(t, r);
      AdmittedOneMore(t, u, s.admitted, ticket, r);
      if r == room {
        AdmittedForSame(s, t, s.admitted, r);
        MoveToAdmitted(AdmittedFor(s, s.admitted, r), TicketsOf(Queue(s, r)), k);
        assert TicketsOf(Queue(u, r)) == TicketsOf(Queue(s, r))[k + 1..];
      } else {
        assert AdmittedFor(t, s.admitted, r) + [] == AdmittedFor(t, s.admitted, r);
      }
    }
    forall r ensures Numbered(u, r) { RoomOrder(t, r); }
    QueuesOkIf(u);
  }

  lemma AdmittedOneMore(t: Server, u: Server, admitted: seq<nat>, ticket: nat, room: string)
    requires u.tickets == t.tickets
    ensures AdmittedFor(u, admitted + [ticket], room) == AdmittedFor(t, admitted, room) + if OfRoom(t, ticket, room) then [ticket] else []
  {
    assert (admitted + [ticket])[..|admitted|] == admitted;
    AdmittedForSame(t, u, admitted, room);
  }

  lemma MoveToAdmitted(a: seq<nat>, b: seq<nat>, k: nat)
    requires Increasing(a + b) && k < |b|
    ensures Increasing(a + [b[k]] + b[k + 1..])
  {
    OrderParts(a, b);
    assert b[k] in b && forall x <- b[k + 1..] :: x in b;
    var rest := b[k + 1..];
    assert forall i :: 0 <= i < |rest| ==> rest[i] == b[k + 1 + i];
    OrderJoin([b[k]], rest);
    OrderJoin(a, [b[k]] + b[k + 1..]);
    assert a + [b[k]] + b[k + 1..] == a + ([b[k]] + b[k + 1..]);
  }

  lemma {:induction false} AdmitTimesOk(s: Server, room: string, n: nat)
    requires QueuesOk(s)
    ensures QueuesOk(AdmitTimes(s, room, n))
  {
    hide QueuesOk, Admit;
    if n > 0 {
      AdmitTimesOk(s, room, n - 1);
      AdmitOk(AdmitTimes(s, room, n - 1), room);
    }
  }

  lemma {:induction false} AdmitRoomsOk(s: Server, rooms: seq<string>, ids: seq<ConnId>)
    requires QueuesOk(s)
    ensures QueuesOk(AdmitRooms(s, rooms, ids))
  {
    hide QueuesOk, AdmitTimes, SlotsOpened;
    if rooms != [] {
      var init, room := rooms[..|rooms| - 1], rooms[|rooms| - 1];
      AdmitRoomsOk(s, init, ids);
      AdmitTimesOk(AdmitRooms(s, init, ids), room, SlotsOpened(s, ids, room));
    }
  }
}
