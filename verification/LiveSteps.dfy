/** The section functions taken one field at a time: what the methods of LiveServer rely on. */
module LiveSteps {
  import opened Messages
  import opened S = ServerState

  /** A second write to a room replaces the first. */
  lemma WithRoomTwice(s: Server, room: string, a: Room, b: Room)
    ensures WithRoom(WithRoom(s, room, a), room, b) == WithRoom(s, room, b)
  {
  }

  lemma RemoveSteps(s: Server, name: string, left: Server, t: Server)
    requires name in s.clients
    requires var c := ClientOf(s, s.clients[name]);
             left == if c.room != "" && c.room in s.rooms
                     then WithRoom(s, c.room, RoomOf(s, c.room).(clients := Members(s, c.room) - {name})) else s
    requires t == left.(clients := s.clients - {name})
    ensures t == RemoveClient(s, name)
  {
  }

  lemma RenameSteps(s: Server, id: ConnId, oldName: string, newName: string, keyed: Server, t: Server)
    requires newName !in s.clients && !Reserved(newName)
    requires keyed == s.(clients := (s.clients - {oldName})[newName := id], conns := s.conns[id := ClientOf(s, id).(username := newName)])
    requires var c := ClientOf(s, id);
             t == if c.room != "" && c.room in s.rooms
                  then WithRoom(keyed, c.room, RoomOf(s, c.room).(clients := (Members(s, c.room) - {oldName})[newName := id])) else keyed
    ensures (t, true) == RenameClient(s, id, oldName, newName)
  {
    var c := ClientOf(s, id);
    if c.room != "" && c.room in s.rooms {
      assert t.rooms == RenameClient(s, id, oldName, newName).0.rooms;
    }
  }

  lemma RefusedRename(s: Server, id: ConnId, oldName: string, newName: string)
    ensures !RenameClient(s, id, oldName, newName).1 ==> RenameClient(s, id, oldName, newName).0 == s
  {
  }

  lemma JoinSteps(s: Server, id: ConnId, room: string, left: Server, entered: Server, t: Server)
    requires var c := ClientOf(s, id);
             && left == (if c.room != "" && c.room in s.rooms
                         then WithRoom(s, c.room, RoomOf(s, c.room).(clients := Members(s, c.room) - {c.username})) else s)
             && entered == WithRoom(left, room, RoomOf(left, room).(clients := Members(left, room)[c.username := id]))
             && t == entered.(conns := s.conns[id := c.(room := room)])
    ensures t == JoinRoom(s, id, room)
  {
  }

  // ---------- map iterations ----------

  ghost predicate OwnNames(s: Server) { forall name :: name in s.clients ==> ClientOf(s, s.clients[name]).username == name }

  predicate Hit(s: Server, name: string, id: ConnId, host: string, exclude: string) {
    name in s.clients && s.clients[name] == id && HasHost(s, id, host) && ClientOf(s, id).username != exclude
  }

  lemma HitsAre(s: Server, host: string, exclude: string)
    ensures forall id :: id in ClientsByHost(s, host, exclude) <==> exists name :: Hit(s, name, id, host, exclude)
  {
    forall id, name | Hit(s, name, id, host, exclude) ensures id in ClientsByHost(s, host, exclude) { }
    forall id | id in ClientsByHost(s, host, exclude) ensures exists name :: Hit(s, name, id, host, exclude) {
      var name :| name in s.clients && s.clients[name] == id && HasHost(s, id, host) && ClientOf(s, id).username != exclude;
      assert Hit(s, name, id, host, exclude);
    }
  }

  lemma HitOwn(s: Server, name: string, id: ConnId, left: set<string>, found: seq<ConnId>, host: string, exclude: string)
    requires name in left && name in s.clients && s.clients[name] == id
    requires forall x :: x in found <==> exists n :: n !in left && Hit(s, n, x, host, exclude)
    ensures OwnNames(s) ==> id !in found
    ensures forall x :: (x in found || (x == id && Hit(s, name, id, host, exclude))) <==>
                        exists n :: n !in left - {name} && Hit(s, n, x, host, exclude)
  {
  }

  /** What has been sent when some members are still left to tell. */
  function Told(members: map<string, ConnId>, left: set<string>, e: Event, exclude: string): set<(ConnId, Event)> {
    set name | name in members && name !in left && name != exclude :: (members[name], e)
  }

  lemma ToldAll(s: Server, room: string, e: Event, exclude: string)
    ensures BroadcastRoom(s, room, e, exclude) == s.(heard := s.heard + Told(Members(s, room), {}, e, exclude))
    ensures room !in s.rooms ==> BroadcastRoom(s, room, e, exclude) == s
  {
    var members := Members(s, room);
    forall name | name in members && name != exclude ensures members[name] in Receivers(s, room, exclude) { }
    assert Told(members, {}, e, exclude) == set id | id in Receivers(s, room, exclude) :: (id, e);
  }

  // ---------- queues ----------

  lemma {:induction false} RenumberOneMore(position: map<ConnId, nat>, queue: seq<Entry>, i: nat)
    requires i < |queue|
    ensures Renumber(position, queue[..i + 1]) == Renumber(position, queue[..i])[queue[i].client := i + 1]
  {
    assert queue[..i + 1][..i] == queue[..i];
  }

  /** Where the first live entry stands. */
  lemma {:induction false} ClosedAheadIs(s: Server, queue: seq<Entry>, k: nat)
    requires k <= |queue| && forall i :: 0 <= i < k ==> ClientOf(s, queue[i].client).closed
    requires k < |queue| ==> !ClientOf(s, queue[k].client).closed
    ensures ClosedAhead(s, queue) == k
  {
    if k > 0 {
      assert ClientOf(s, queue[0].client).closed;
      ClosedAheadIs(s, queue[1..], k - 1);
    }
  }

  /** Taking out the first entry with a ticket. */
  lemma {:induction false} WithoutTicketIs(queue: seq<Entry>, ticket: nat, i: nat)
    requires i <= |queue| && forall j :: 0 <= j < i ==> queue[j].ticket != ticket
    requires i < |queue| ==> queue[i].ticket == ticket
    ensures WithoutTicket(queue, ticket) == if i < |queue| then queue[..i] + queue[i + 1..] else queue
  {
    if i > 0 {
      var rest := queue[1..];
      WithoutTicketIs(rest, ticket, i - 1);
      if i < |queue| {
        assert [queue[0]] + (rest[..i - 1] + rest[i..]) == queue[..i] + queue[i + 1..];
      } else {
        assert [queue[0]] + rest == queue;
      }
    }
  }

  lemma KeptOneMore(s: Server, queue: seq<Entry>, i: nat, host: string)
    requires i < |queue|
    ensures var e := queue[i];
            && Kept(s, queue[..i + 1], host) == Kept(s, queue[..i], host) + (if HasHost(s, e.client, host) then [] else [e])
            && Dropped(s, queue[..i + 1], host) == Dropped(s, queue[..i], host) + (if HasHost(s, e.client, host) then [e.client] else [])
  {
    assert queue[..i + 1][..i] == queue[..i];
  }

  lemma PurgeOneMore(s: Server, host: string, visit: seq<string>, room: string)
    ensures var (t, removed) := Purge(s, host, visit);
            var queue := Queue(t, room);
            var all := removed + Dropped(t, queue, host);
            var kept := Kept(t, queue, host);
            Purge(s, host, visit + [room]) == (if all == [] then t else WithQueue(t, room, kept).(position := Renumber(t.position, kept)), all)
  {
    var longer := visit + [room];
    assert longer[..|longer| - 1] == visit && longer[|longer| - 1] == room;
  }

  /** All places in all queues. */
  ghost function Places(s: Server, rooms: set<string>): set<(string, int)> {
    set room, i | room in rooms && 0 <= i < |Queue(s, room)| :: (room, i)
  }

  lemma {:induction false} PlacesInRoom(room: string, n: nat)
    ensures |set i | 0 <= i < n :: (room, i)| == n
  {
    var places := set i | 0 <= i < n :: (room, i);
    if n == 0 {
      assert places == {};
    } else {
      PlacesInRoom(room, n - 1);
      assert places == (set i | 0 <= i < n - 1 :: (room, i)) + {(room, n - 1)};
    }
  }

  lemma PlacesOneMore(s: Server, rooms: set<string>, room: string)
    requires room !in rooms
    ensures |Places(s, rooms + {room})| == |Places(s, rooms)| + |Queue(s, room)|
  {
    var here := set i | 0 <= i < |Queue(s, room)| :: (room, i);
    PlacesInRoom(room, |Queue(s, room)|);
    assert Places(s, rooms + {room}) == Places(s, rooms) + here;
    assert Places(s, rooms) !! here;
  }

  // ---------- sorted room names ----------

  /** Go's string order, character by character. */
  predicate AtMost(a: string, b: string) {
    a == "" || (b != "" && (a[0] < b[0] || (a[0] == b[0] && AtMost(a[1..], b[1..]))))
  }

  lemma {:induction false} AtMostTotal(a: string, b: string)
    ensures AtMost(a, b) || AtMost(b, a)
  {
    if a != "" && b != "" && a[0] == b[0] { AtMostTotal(a[1..], b[1..]); }
  }

  lemma {:induction false} AtMostTrans(a: string, b: string, c: string)
    requires AtMost(a, b) && AtMost(b, c)
    ensures AtMost(a, c)
  {
    if a != "" && a[0] == b[0] && b[0] == c[0] { AtMostTrans(a[1..], b[1..], c[1..]); }
  }

  /** The texts agree up to there, and then the first has the smaller character. */
  predicate Smaller(a: string, b: string, k: nat) { k < |a| && k < |b| && a[..k] == b[..k] && a[k] < b[k] }

  /** The order is that of a dictionary: a text comes before its extensions, and otherwise the first difference decides. */
  lemma {:induction false} AtMostIsDictionaryOrder(a: string, b: string)
    ensures AtMost(a, b) <==> a <= b || exists k: nat :: Smaller(a, b, k)
  {
    if a != "" && b != "" {
      if a[0] == b[0] {
        AtMostIsDictionaryOrder(a[1..], b[1..]);
        assert a[1..] <= b[1..] <==> a <= b by { TailPrefix(a, b); }
        if k: nat :| Smaller(a[1..], b[1..], k) { SmallerLater(a, b, k); }
        if k: nat :| Smaller(a, b, k) { SmallerSooner(a, b, k); }
      } else {
        if a[0] < b[0] { assert a[..0] == b[..0] && Smaller(a, b, 0); }
        if k: nat :| Smaller(a, b, k) { assert k > 0 ==> a[..k][0] == b[..k][0]; }
      }
    }
  }

  lemma TailPrefix(a: string, b: string)
    requires a != "" && b != "" && a[0] == b[0]
    ensures a[1..] <= b[1..] <==> a <= b
  {
    if a[1..] <= b[1..] { assert a == [a[0]] + a[1..] && b == [b[0]] + b[1..]; }
    if a <= b { assert b[1..][..|a| - 1] == b[..|a|][1..]; }
  }

  lemma SmallerLater(a: string, b: string, k: nat)
    requires a != "" && b != "" && a[0] == b[0] && Smaller(a[1..], b[1..], k)
    ensures Smaller(a, b, k + 1)
  {
    assert a[..k + 1] == [a[0]] + a[1..][..k] && b[..k + 1] == [b[0]] + b[1..][..k];
  }

  lemma SmallerSooner(a: string, b: string, k: nat)
    requires a != "" && b != "" && a[0] == b[0] && Smaller(a, b, k)
    ensures k > 0 && Smaller(a[1..], b[1..], k - 1)
  {
    assert a[1..][..k - 1] == a[..k][1..] && b[1..][..k - 1] == b[..k][1..];
  }

  predicate Sorted(names: seq<string>) { forall i, j :: 0 <= i < j < |names| ==> AtMost(names[i], names[j]) }

  lemma {:induction false} CountDistinct(a: seq<string>)
    ensures (forall i, j :: 0 <= i < j < |a| ==> a[i] != a[j]) <==> forall x :: multiset(a)[x] <= 1
  {
    if a != [] {
      var init, last := a[..|a| - 1], a[|a| - 1];
      assert a == init + [last];
      CountDistinct(init);
      if multiset(init)[last] > 0 {
        assert last in init;
        var i :| 0 <= i < |init| && init[i] == last;
        assert a[i] == a[|a| - 1] && multiset(a)[last] > 1;
      } else if forall x :: multiset(init)[x] <= 1 {
        forall i, j | 0 <= i < j < |a| ensures a[i] != a[j] {
          if j == |a| - 1 { assert a[i] in init; }
        }
      } else {
        var x :| multiset(init)[x] > 1;
        assert multiset(a)[x] > 1;
      }
    }
  }

  lemma SameElements(a: seq<string>, b: seq<string>, all: set<string>)
    requires SameNames(b, a) && Enumerates(a, all)
    ensures Enumerates(b, all)
  {
    CountDistinct(a);
    CountDistinct(b);
    forall x ensures x in b <==> x in all { assert x in b <==> x in multiset(b); }
  }

  lemma PurgeNothing(s: Server, host: string)
    ensures Purge(s, host, []) == (s, []) && Enumerates<string>([], s.rooms.Keys - s.rooms.Keys)
  {
  }

  lemma VisitOneMore(visit: seq<string>, all: set<string>, left: set<string>, room: string)
    requires Enumerates(visit, all - left) && room in left && left <= all
    ensures Enumerates(visit + [room], all - (left - {room}))
  {
  }

  lemma EnumeratesIf<T(!new)>(order: seq<T>, all: set<T>)
    ensures (forall x :: x in order <==> x in all) && (forall i, j :: 0 <= i < j < |order| ==> order[i] != order[j]) ==> Enumerates(order, all)
  {
  }

  lemma NoPlaces(s: Server)
    ensures Places(s, {}) == {}
  {
  }

  lemma ToldNobody(members: map<string, ConnId>, e: Event, exclude: string)
    ensures Told(members, members.Keys, e, exclude) == {}
  {
  }

  lemma ToldOneMore(members: map<string, ConnId>, left: set<string>, name: string, e: Event, exclude: string)
    requires name in left && left <= members.Keys
    ensures Told(members, left - {name}, e, exclude) == Told(members, left, e, exclude) + if name != exclude then {(members[name], e)} else {}
  {
  }

  /** The queue of a room written again. */
  lemma QueueAgain(s: Server, room: string, a: seq<Entry>, b: seq<Entry>)
    requires room in s.rooms
    ensures WithRoom(WithQueue(s, room, a), room, RoomOf(s, room).(queue := b)) == WithQueue(s, room, b)
    ensures WithQueue(s, room, Queue(s, room)) == s
    ensures WithQueue(s, room, a).conns == s.conns && WithQueue(s, room, a).admitted == s.admitted && WithQueue(s, room, a).position == s.position
    ensures WithQueue(s, room, b).conns == s.conns && WithQueue(s, room, b).admitted == s.admitted && WithQueue(s, room, b).position == s.position
  {
  }

  lemma AdmitNothing(s: Server, room: string)
    requires s.shuttingDown || room !in s.rooms
    ensures Admit(s, room) == s
  {
  }

  lemma AdmitFirst(s: Server, room: string, k: nat)
    requires !s.shuttingDown && room in s.rooms && k < |Queue(s, room)|
    requires forall i :: 0 <= i < k ==> ClientOf(s, Queue(s, room)[i].client).closed
    requires !ClientOf(s, Queue(s, room)[k].client).closed
    ensures var queue := Queue(s, room);
            Admit(s, room) == WithQueue(s, room, queue[k + 1..]).(admitted := s.admitted + [queue[k].ticket],
                                                                  position := Renumber(s.position, queue[k + 1..]))
  {
    ClosedAheadIs(s, Queue(s, room), k);
  }

  lemma AdmitNobody(s: Server, room: string)
    requires !s.shuttingDown && room in s.rooms
    requires forall i :: 0 <= i < |Queue(s, room)| ==> ClientOf(s, Queue(s, room)[i].client).closed
    ensures Admit(s, room) == WithQueue(s, room, [])
  {
    ClosedAheadIs(s, Queue(s, room), |Queue(s, room)|);
  }

  /** The same names, each as often. */
  predicate SameNames(a: seq<string>, b: seq<string>) { multiset(a) == multiset(b) }

  lemma ShiftedElements(r: seq<string>, j: nat, key: string)
    requires 0 < j < |r|
    ensures SameNames(r[j := r[j - 1]][j - 1 := key], r[j := key])
  {
    assert r[j := r[j - 1]][j - 1 := key] == r[j := key][j := r[j - 1]][j - 1 := key];
  }

  /** Where the insertion sort puts a name, everything up to there is in order. */
  lemma InsertedSorted(names: seq<string>, r: seq<string>, i: nat, j: nat, key: string)
    requires j <= i < |names| && |r| == |names| && forall a, b :: 0 <= a < b < i ==> AtMost(names[a], names[b])
    requires forall a :: 0 <= a < j ==> r[a] == names[a]
    requires forall a :: j < a <= i ==> r[a] == names[a - 1] && !AtMost(r[a], key)
    requires j > 0 ==> AtMost(r[j - 1], key)
    ensures var t := r[j := key]; forall a, b :: 0 <= a < b < i + 1 ==> AtMost(t[a], t[b])
  {
    hide AtMost;
    var t := r[j := key];
    forall a, b | 0 <= a < b < i + 1 ensures AtMost(t[a], t[b]) {
      if a == j { AtMostTotal(key, r[b]); }
      else if b == j && a < j - 1 { AtMostTrans(r[a], r[j - 1], key); }
    }
  }
}
