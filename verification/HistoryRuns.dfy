/** In-memory room histories against the log, over whole runs with room deletion, clearing and restarts. */
module HistoryRuns {
  import opened Text
  import opened Messages
  import opened RoundTrip
  import opened Logs

  /** Server memory and the log directory. The fields from past on only record what happened. */
  datatype State = State(
    rooms: Histories,
    files: map<string, string>,
    today: string,
    past: set<string>,       // earlier dates
    log: seq<Message>,       // everything passed to the logger
    dayStart: nat,           // length of the log when today began
    start: nat,              // where in the log the default room's memory begins
    read: nat,               // how much of the log the last restart could read, or all of it at a clear
    since: nat               // length of the log at the last restart or clear
  )

  datatype Op =
    | Record(room: string, m: Message)
    | LogServerEvent(m: Message)
    | DeleteRoom(room: string)
    | Clear
    | Restart
    | NextDay(date: string)

  function Tagged(room: string, m: Message): Message { m.(room := room) }

  predicate Enabled(s: State, op: Op) {
    match op
    case Record(room, m) =>
      m.kind != ServerEvent && Loggable(Tagged(room, m)) && Single(Tagged(room, m)) && FormatDate(m.timestamp) == s.today
    case LogServerEvent(m) =>
      m.kind == ServerEvent && Loggable(m) && Single(m) && FormatDate(m.timestamp) == s.today
    case DeleteRoom(room) => room != DEFAULT_ROOM
    case Clear => true
    case Restart => true
    case NextDay(date) => date != s.today && date !in s.past
  }

  function Step(s: State, op: Op): State {
    match op
    case Record(room, m) =>
      var e := Tagged(room, m);
      s.(rooms := s.rooms[room := HistoryOf(s.rooms, room) + [e]], files := Logged(s.files, e), log := s.log + [e])
    case LogServerEvent(m) => s.(files := Logged(s.files, m), log := s.log + [m])
    case DeleteRoom(room) => s.(rooms := s.rooms - {room})
    case Clear => s.(rooms := map r | r in s.rooms :: [], start := |s.log|, read := |s.log|, since := |s.log|)
    case Restart =>
      s.(rooms := Recover(map[DEFAULT_ROOM := []], s.files, s.today),
         start := s.dayStart, read := |Readable(s.log, s.today)|, since := |s.log|)
    case NextDay(date) => s.(today := date, past := s.past + {s.today}, dayStart := |s.log|)
  }

  /** A server started on an empty log directory. */
  function Boot(date: string): State {
    State(map[DEFAULT_ROOM := []], map[], date, {}, [], 0, 0, 0, 0)
  }

  predicate AllEnabled(s: State, ops: seq<Op>)
    decreases |ops|
  {
    ops == [] || (Enabled(s, ops[0]) && AllEnabled(Step(s, ops[0]), ops[1..]))
  }

  function Run(s: State, ops: seq<Op>): State
    decreases |ops|
  {
    if ops == [] then s else Run(Step(s, ops[0]), ops[1..])
  }

  // ---------- what memory should hold ----------

  function View(m: Message): Message { Filed(Recovered(m)) }

  /** A history up to what the log keeps of its messages. */
  function ViewAll(ms: seq<Message>): (v: seq<Message>)
    ensures |v| == |ms|
  {
    if ms == [] then [] else ViewAll(ms[..|ms| - 1]) + [View(ms[|ms| - 1])]
  }

  function LogEntry(m: Message, room: string): seq<Message> {
    if m.kind != ServerEvent && RecoveryRoom(m.room) == room then [View(m)] else []
  }

  /** All messages ever logged for a room. */
  function LogOf(ms: seq<Message>, room: string): seq<Message> {
    if ms == [] then [] else LogOf(ms[..|ms| - 1], room) + LogEntry(ms[|ms| - 1], room)
  }

  predicate IsSuffix<T(==)>(a: seq<T>, b: seq<T>) {
    |a| <= |b| && b[|b| - |a|..] == a
  }

  predicate Untagged(m: Message) { m.kind != ServerEvent && m.room == "" }

  /** No event was recorded in the room with the empty name. */
  predicate NoUntagged(ms: seq<Message>) {
    forall m <- ms :: !Untagged(m)
  }

  /** The messages logged for the default room under its own name. */
  function TaggedLog(ms: seq<Message>): seq<Message> {
    if ms == [] then []
    else TaggedLog(ms[..|ms| - 1]) + if Untagged(ms[|ms| - 1]) then [] else LogEntry(ms[|ms| - 1], DEFAULT_ROOM)
  }

  function Memory(s: State, room: string): seq<Message> { ViewAll(HistoryOf(s.rooms, room)) }

  /** A restart reads the whole of what was logged before its day. */
  predicate InRange(s: State) {
    s.start <= s.read <= s.since <= |s.log| && (s.dayStart < s.since ==> s.dayStart <= s.read)
  }

  /** The log without what the last restart could not read. */
  function Held(s: State): seq<Message>
    requires InRange(s)
  {
    s.log[..s.read] + s.log[s.since..]
  }

  /** The default room's memory: everything the log has for it up to where the last restart stopped reading, or up to the
      last clear, and after that restart or clear what was recorded under its own name. */
  predicate DefaultMemory(s: State)
    requires InRange(s)
  {
    Memory(s, DEFAULT_ROOM) == LogOf(s.log[s.start..s.read], DEFAULT_ROOM) + TaggedLog(s.log[s.since..])
  }

  predicate SuffixMemory(s: State, room: string)
    requires InRange(s)
  {
    IsSuffix(Memory(s, room), LogOf(Held(s), room))
  }

  predicate Named(room: string) { room != "" && room != DEFAULT_ROOM }

  /** The log, the files and the dates belong together. */
  ghost predicate Dated(s: State) {
    && s.files == LoggedAll(map[], s.log)
    && s.dayStart <= |s.log| && s.today !in s.past
    && (forall m <- s.log :: Loggable(m) && Single(m))
    && (forall m <- s.log[..s.dayStart] :: FormatDate(m.timestamp) in s.past)
    && (forall m <- s.log[s.dayStart..] :: FormatDate(m.timestamp) == s.today)
  }

  ghost predicate Refines(s: State) {
    Dated(s) && InRange(s) && DefaultMemory(s) && forall room :: Named(room) ==> SuffixMemory(s, room)
  }

  // ---------- lemmas ----------

  lemma ResplitTwice(name: string, text: string)
    ensures var (n, c) := Resplit(name, text); !HasClose(n) && TrimRight(c) == c && Resplit(n, c) == (n, c)
  {
    var kept := name + "]:" + TrimRight(text);
    var (n, c) := Resplit(name, text);
    var k := IndexOfClose(kept);
    assert ClosesAt(kept, |name|);
    assert forall j {:trigger ClosesAt(n, j)} :: ClosesAt(n, j) ==> ClosesAt(kept, j);
    assert kept[|kept| - 1] == if TrimRight(text) == "" then ':' else TrimRight(text)[|TrimRight(text)| - 1];
    assert c != "" ==> c[|c| - 1] == kept[|kept| - 1];
    assert TrimRight(c) == c;
    ResplitExactly(n, c);
  }

  lemma RecoveredTwice(m: Message)
    ensures Recovered(Recovered(m)) == Recovered(m)
  {
    hide Resplit;
    match m.kind
    case Chat => ResplitTwice(m.sender, m.content);
    case Announcement => ResplitTwice(m.extra, m.content);
    case Leave => TrimRightIdempotent(m.extra); PrintableHasNoSpace("voluntary");
    case ServerEvent => TrimRightIdempotent(m.content);
    case _ =>
  }

  lemma ViewTwice(m: Message)
    ensures View(View(m)) == View(m)
  {
    hide Recovered;
    RecoveredTwice(m);
    FilingCommutes(Recovered(m));
  }

  lemma FilingCommutes(m: Message)
    ensures Filed(Recovered(Filed(m))) == Filed(Recovered(m))
  {
  }

  lemma {:induction false} LogOfConcat(a: seq<Message>, b: seq<Message>, room: string)
    ensures LogOf(a + b, room) == LogOf(a, room) + LogOf(b, room)
  {
    hide LogEntry;
    var s := a + b;
    if b == [] {
      assert s == a;
    } else {
      assert s[..|s| - 1] == a + b[..|b| - 1] && s[|s| - 1] == b[|b| - 1];
      LogOfConcat(a, b[..|b| - 1], room);
    }
  }

  /** A day's recovered history is the log of that day's messages. */
  lemma {:induction false} DayIsLog(ms: seq<Message>, date: string, room: string)
    requires forall m <- ms :: FormatDate(m.timestamp) == date
    ensures DayHistory(ms, date, room) == LogOf(ms, room)
  {
    hide FormatDate;
    if ms != [] {
      assert ms[|ms| - 1] in ms;
      DayIsLog(ms[..|ms| - 1], date, room);
    }
  }

  lemma {:induction false} OtherDaysAddNothing(ms: seq<Message>, date: string, room: string)
    requires forall m <- ms :: FormatDate(m.timestamp) != date
    ensures DayHistory(ms, date, room) == []
  {
    hide FormatDate;
    if ms != [] {
      assert ms[|ms| - 1] in ms;
      OtherDaysAddNothing(ms[..|ms| - 1], date, room);
    }
  }

  /** Recovered histories look the same after a second trip through the log. */
  lemma {:induction false} DayViewed(ms: seq<Message>, date: string, room: string)
    ensures ViewAll(DayHistory(ms, date, room)) == DayHistory(ms, date, room)
  {
    hide FormatDate, View;
    if ms != [] {
      DayViewed(ms[..|ms| - 1], date, room);
      var m := ms[|ms| - 1];
      assert DayEntry(m, date, room) != [] ==> DayEntry(m, date, room) == [View(m)] by { ViewIsFiled(m); }
      ViewTwice(m);
      var h := DayHistory(ms[..|ms| - 1], date, room);
      assert (h + [View(m)])[..|h|] == h;
      assert h + [] == h;
    }
  }

  lemma ViewIsFiled(m: Message)
    ensures View(m) == Filed(Recovered(m))
  {
  }

  lemma ViewAppend(h: seq<Message>, m: Message)
    ensures ViewAll(h + [m]) == ViewAll(h) + [View(m)]
  {
    assert (h + [m])[..|h|] == h;
  }

  lemma LogAppend(ms: seq<Message>, m: Message, room: string)
    ensures LogOf(ms + [m], room) == LogOf(ms, room) + LogEntry(m, room)
  {
    assert (ms + [m])[..|ms|] == ms;
  }

  lemma SuffixExtends<T>(a: seq<T>, b: seq<T>, c: seq<T>)
    requires IsSuffix(a, b)
    ensures IsSuffix(a + c, b + c)
  {
  }

  // ---------- every operation keeps the refinement ----------

  lemma BootRefines(date: string)
    ensures Refines(Boot(date))
  {
    var s := Boot(date);
    assert s.log[s.start..s.read] == [] && s.log[s.since..] == [];
    forall room | Named(room) ensures SuffixMemory(s, room) { }
  }

  lemma TaggedAppend(ms: seq<Message>, m: Message)
    ensures TaggedLog(ms + [m]) == TaggedLog(ms) + if Untagged(m) then [] else LogEntry(m, DEFAULT_ROOM)
  {
    assert (ms + [m])[..|ms|] == ms;
  }

  /** Bookkeeping shared by the two logging operations. */
  lemma AppendDated(s: State, e: Message, t: State)
    requires Dated(s) && Loggable(e) && Single(e) && FormatDate(e.timestamp) == s.today
    requires t == s.(log := s.log + [e], files := Logged(s.files, e), rooms := t.rooms)
    ensures Dated(t)
  {
    hide Loggable, Single, FormatDate, Logged;
    assert t.log[..|s.log|] == s.log;
    assert t.log[..s.dayStart] == s.log[..s.dayStart];
    assert t.log[s.dayStart..] == s.log[s.dayStart..] + [e];
  }

  lemma RecordRefines(s: State, room: string, m: Message)
    requires Refines(s) && Enabled(s, Record(room, m))
    ensures Refines(Step(s, Record(room, m)))
  {
    hide Dated, Loggable, Single, FormatDate, Logged, ViewAll, View, LogOf, TaggedLog;
    var e := Tagged(room, m);
    var t := Step(s, Record(room, m));
    AppendDated(s, e, t);
    ViewAppend(HistoryOf(s.rooms, room), e);
    forall r | Named(r) ensures SuffixMemory(t, r) {
      assert SuffixMemory(s, r);
      HeldAppend(s, e, t);
      LogAppend(Held(s), e, r);
      if r == room {
        SuffixExtends(Memory(s, r), LogOf(Held(s), r), [View(e)]);
      } else {
        assert LogOf(Held(s), r) + [] == LogOf(Held(s), r);
      }
    }
    DefaultAppend(s, e, t, if room == DEFAULT_ROOM then [View(e)] else []);
  }

  lemma HeldAppend(s: State, e: Message, t: State)
    requires InRange(s) && t.log == s.log + [e] && t.read == s.read && t.since == s.since && t.start == s.start && t.dayStart == s.dayStart
    ensures InRange(t) && Held(t) == Held(s) + [e]
  {
    assert t.log[..t.read] == s.log[..s.read] && t.log[t.since..] == s.log[s.since..] + [e];
  }

  /** One more logged message, seen from the default room. */
  lemma DefaultAppend(s: State, e: Message, t: State, added: seq<Message>)
    requires InRange(s) && InRange(t)
    requires DefaultMemory(s) && t.log == s.log + [e] && t.start == s.start && t.read == s.read && t.since == s.since
    requires Memory(t, DEFAULT_ROOM) == Memory(s, DEFAULT_ROOM) + added
    requires added == if Untagged(e) then [] else LogEntry(e, DEFAULT_ROOM)
    ensures DefaultMemory(t)
  {
    hide Memory, LogOf, TaggedLog, LogEntry;
    assert t.log[t.start..t.read] == s.log[s.start..s.read];
    assert t.log[t.since..] == s.log[s.since..] + [e];
    TaggedAppend(s.log[s.since..], e);
    var a, b := LogOf(s.log[s.start..s.read], DEFAULT_ROOM), TaggedLog(s.log[s.since..]);
    assert (a + b) + added == a + (b + added);
  }

  lemma ServerEventRefines(s: State, m: Message)
    requires Refines(s) && Enabled(s, LogServerEvent(m))
    ensures Refines(Step(s, LogServerEvent(m)))
  {
    hide Dated, Loggable, Single, FormatDate, Logged, ViewAll, View, LogOf, TaggedLog;
    var t := Step(s, LogServerEvent(m));
    AppendDated(s, m, t);
    forall r | Named(r) ensures SuffixMemory(t, r) {
      assert SuffixMemory(s, r);
      HeldAppend(s, m, t);
      LogAppend(Held(s), m, r);
      assert LogOf(Held(s), r) + [] == LogOf(Held(s), r);
    }
    assert Memory(s, DEFAULT_ROOM) + [] == Memory(s, DEFAULT_ROOM);
    DefaultAppend(s, m, t, []);
  }

  /** Earlier days are read whole. */
  lemma {:induction false} ReadableFrom(before: seq<Message>, after: seq<Message>, date: string)
    requires forall m <- before :: FormatDate(m.timestamp) != date
    ensures Readable(before + after, date) == before + Readable(after, date)
  {
    hide FormatDate, Fits;
    var all := before + after;
    if after == [] {
      assert all == before;
      ReadableIsAll(before, date);
      assert Readable(before, date) == before;
    } else {
      assert all[..|all| - 1] == before + after[..|after| - 1] && all[|all| - 1] == after[|after| - 1];
      ReadableFrom(before, after[..|after| - 1], date);
    }
  }

  /** What a restart puts into a room: exactly today's messages up to the first line that is too long. */
  lemma RestartedRoom(s: State, room: string)
    requires Dated(s)
    ensures var read := |Readable(s.log, s.today)|;
            var h := HistoryOf(Step(s, Restart).rooms, room);
            && s.dayStart <= read <= |s.log|
            && h == DayHistory(Readable(s.log, s.today), s.today, room) == LogOf(s.log[s.dayStart..read], room) == ViewAll(h)
            && IsSuffix(h, LogOf(s.log[..read], room))
  {
    hide Loggable, Single, FormatDate, Logged, DayHistory, ViewAll, LogOf, Readable;
    var before, after := s.log[..s.dayStart], Readable(s.log[s.dayStart..], s.today);
    var boot: Histories := map[DEFAULT_ROOM := []];
    RecoveryIsComplete(boot, map[], s.log, s.today, room);
    assert HistoryOf(Recover(boot, map[], s.today), room) == [] by { NothingToRecover(boot, s.today); }
    assert s.log == before + s.log[s.dayStart..];
    ReadableFrom(before, s.log[s.dayStart..], s.today);
    var got := before + after;
    assert [] + DayHistory(got, s.today, room) == DayHistory(got, s.today, room);
    assert s.log[..|got|] == got && s.log[s.dayStart..|got|] == after;
    OtherDaysAddNothing(before, s.today, room);
    DayIsLog(after, s.today, room);
    DayConcat(before, after, s.today, room);
    DayViewed(got, s.today, room);
    LogOfConcat(before, after, room);
    assert [] + LogOf(after, room) == LogOf(after, room);
  }

  /** The log of the day itself. */
  lemma DayLog(s: State, room: string)
    requires Dated(s)
    ensures DayHistory(s.log, s.today, room) == LogOf(s.log[s.dayStart..], room)
  {
    hide Loggable, Single, FormatDate, LoggedAll, DayHistory, LogOf;
    var before, after := s.log[..s.dayStart], s.log[s.dayStart..];
    assert s.log == before + after;
    OtherDaysAddNothing(before, s.today, room);
    DayIsLog(after, s.today, room);
    DayConcat(before, after, s.today, room);
    assert [] + LogOf(after, room) == LogOf(after, room);
  }

  lemma NothingToRecover(rooms: Histories, date: string)
    ensures Recover(rooms, map[], date) == rooms
    ensures Complete(Contents(map[], FilePath(date)))
  {
    assert ScanLines("") == [];
  }

  lemma RestartRefines(s: State)
    requires Dated(s)
    ensures Refines(Step(s, Restart))
  {
    hide Loggable, Single, FormatDate, Logged, DayHistory, ViewAll, LogOf, Recover, LoggedAll, Readable, IsSuffix;
    var t := Step(s, Restart);
    RestartedRoom(s, DEFAULT_ROOM);
    assert t.log[t.since..] == [] && Held(t) == t.log[..t.read];
    forall room | Named(room) ensures SuffixMemory(t, room) { RestartedRoom(s, room); }
    assert LogOf(s.log[s.dayStart..t.read], DEFAULT_ROOM) + [] == LogOf(s.log[s.dayStart..t.read], DEFAULT_ROOM);
    assert TaggedLog([]) == [] by { NothingLogged(); }
  }

  lemma EmptyMemory(s: State, room: string)
    requires InRange(s) && HistoryOf(s.rooms, room) == []
    ensures Memory(s, room) == [] && SuffixMemory(s, room)
  {
    hide LogOf;
    assert ViewAll([]) == [];
  }

  lemma SameDates(s: State, t: State)
    requires Dated(s) && t == s.(rooms := t.rooms, start := t.start, read := t.read, since := t.since)
    ensures Dated(t)
  {
  }

  lemma ClearRefines(s: State)
    requires Refines(s)
    ensures Refines(Step(s, Clear))
  {
    hide Dated, LogOf, ViewAll;
    var t := Step(s, Clear);
    assert forall room :: HistoryOf(t.rooms, room) == [];
    forall room ensures Memory(t, room) == [] && SuffixMemory(t, room) { EmptyMemory(t, room); }
    SameDates(s, t);
    assert t.log[t.start..t.read] == [] && t.log[t.since..] == [];
    assert LogOf([], DEFAULT_ROOM) == [] by { NothingLogged(); }
  }

  lemma NothingLogged()
    ensures LogOf([], DEFAULT_ROOM) == [] && TaggedLog([]) == []
  {
  }

  lemma DeleteRefines(s: State, room: string)
    requires Refines(s) && Enabled(s, DeleteRoom(room))
    ensures Refines(Step(s, DeleteRoom(room)))
  {
    hide Dated, LogOf, ViewAll, TaggedLog;
    var t := Step(s, DeleteRoom(room));
    SameDates(s, t);
    forall r | Named(r) ensures SuffixMemory(t, r) {
      if r == room { EmptyMemory(t, r); } else { assert SuffixMemory(s, r); }
    }
  }

  lemma NextDayRefines(s: State, date: string)
    requires Refines(s) && Enabled(s, NextDay(date))
    ensures Refines(Step(s, NextDay(date)))
  {
    hide Loggable, Single, FormatDate, LoggedAll, LogOf, ViewAll, TaggedLog;
    var t := Step(s, NextDay(date));
    assert s.log == s.log[..s.dayStart] + s.log[s.dayStart..];
    assert s.log[..|s.log|] == s.log && s.log[|s.log|..] == [];
    forall r | Named(r) ensures SuffixMemory(t, r) { assert SuffixMemory(s, r); }
  }

  lemma StepRefines(s: State, op: Op)
    requires Refines(s) && Enabled(s, op)
    ensures Refines(Step(s, op))
  {
    hide Refines, Step, Enabled;
    match op
    case Record(room, m) => RecordRefines(s, room, m);
    case LogServerEvent(m) => ServerEventRefines(s, m);
    case DeleteRoom(room) => DeleteRefines(s, room);
    case Clear => ClearRefines(s);
    case Restart => RefinedDates(s); RestartRefines(s);
    case NextDay(date) => NextDayRefines(s, date);
  }

  lemma RefinedDates(s: State)
    requires Refines(s)
    ensures Dated(s)
  {
  }

  // ---------- main results ----------

  lemma {:induction false} RunRefines(s: State, ops: seq<Op>)
    requires Refines(s) && AllEnabled(s, ops)
    ensures Refines(Run(s, ops))
    decreases |ops|
  {
    hide Refines, Step, Enabled;
    if ops != [] {
      StepRefines(s, ops[0]);
      RunRefines(Step(s, ops[0]), ops[1..]);
    }
  }

  /** Every untagged event since the last restart or clear is one message short in the default room. */
  lemma {:induction false} TaggedIsLogExactly(ms: seq<Message>)
    ensures |TaggedLog(ms)| <= |LogOf(ms, DEFAULT_ROOM)|
    ensures NoUntagged(ms) ==> TaggedLog(ms) == LogOf(ms, DEFAULT_ROOM)
    ensures !NoUntagged(ms) ==> |TaggedLog(ms)| < |LogOf(ms, DEFAULT_ROOM)|
  {
    hide View;
    if ms != [] {
      var init, m := ms[..|ms| - 1], ms[|ms| - 1];
      TaggedIsLogExactly(init);
      assert ms == init + [m];
      assert NoUntagged(ms) <==> NoUntagged(init) && !Untagged(m) by {
        assert forall x :: x in ms <==> x in init || x == m;
      }
    }
  }

  /** What the last restart could not read. */
  function Unread(s: State): seq<Message>
    requires InRange(s)
  {
    s.log[s.read..s.since]
  }

  lemma DefaultExactly(s: State)
    requires InRange(s) && DefaultMemory(s)
    ensures Memory(s, DEFAULT_ROOM) == LogOf(s.log[s.start..], DEFAULT_ROOM)
       <==> NoUntagged(s.log[s.since..]) && LogOf(Unread(s), DEFAULT_ROOM) == []
    ensures |Memory(s, DEFAULT_ROOM)| <= |LogOf(s.log[s.start..], DEFAULT_ROOM)|
  {
    hide LogOf, TaggedLog, Memory;
    var early, unread, late := s.log[s.start..s.read], Unread(s), s.log[s.since..];
    assert s.log[s.start..] == early + unread + late;
    LogOfConcat(early, unread, DEFAULT_ROOM);
    LogOfConcat(early + unread, late, DEFAULT_ROOM);
    TaggedIsLogExactly(late);
    var e, u := LogOf(early, DEFAULT_ROOM), LogOf(unread, DEFAULT_ROOM);
    assert u == [] ==> e + u == e;
    hide NoUntagged;
  }

  /** Over any run from an empty log directory: the memory of a room other than the default one is, up to what the log
      keeps, a suffix of all messages ever logged for it without those the last restart could not read; the default room's
      memory is all that was logged for it since it began if and only if no untagged event came after the last restart or
      clear and that restart left none of its messages unread. */
  lemma MemoryIsSuffixOfLog(date: string, ops: seq<Op>, room: string)
    requires AllEnabled(Boot(date), ops)
    ensures var s := Run(Boot(date), ops);
            && InRange(s)
            && (room != "" && room != DEFAULT_ROOM ==> IsSuffix(Memory(s, room), LogOf(Held(s), room)))
            && (Memory(s, DEFAULT_ROOM) == LogOf(s.log[s.start..], DEFAULT_ROOM)
                <==> NoUntagged(s.log[s.since..]) && LogOf(Unread(s), DEFAULT_ROOM) == [])
            && (Unread(s) == [] ==> Held(s) == s.log)
            && (NoUntagged(s.log[s.since..]) && Unread(s) == [] ==> IsSuffix(Memory(s, DEFAULT_ROOM), LogOf(s.log, DEFAULT_ROOM)))
  {
    hide Memory, LogOf, Dated, Run, AllEnabled, NoUntagged;
    BootRefines(date);
    RunRefines(Boot(date), ops);
    var s := Run(Boot(date), ops);
    DefaultExactly(s);
    assert Named(room) ==> SuffixMemory(s, room);
    assert s.log == s.log[..s.start] + s.log[s.start..];
    LogOfConcat(s.log[..s.start], s.log[s.start..], DEFAULT_ROOM);
    assert LogOf([], DEFAULT_ROOM) == [] by { NothingLogged(); }
    assert Unread(s) == [] ==> s.read == s.since && Held(s) == s.log;
  }

  /** A restart leaves nothing unread if and only if every line of its day fits. */
  lemma RestartReadsAll(s: State)
    requires Dated(s)
    ensures InRange(Step(s, Restart))
    ensures Unread(Step(s, Restart)) == [] <==> forall m <- s.log :: !Blocks(m, s.today)
  {
    hide Dated, LogOf, Memory, Recover, Blocks, Readable, DefaultMemory, SuffixMemory;
    RestartRefines(s);
    ReadableIsAll(s.log, s.today);
    assert Readable(s.log, s.today) == s.log[..|Readable(s.log, s.today)|];
  }

  predicate NoClear(ops: seq<Op>) {
    Clear !in ops
  }

  predicate NextDayFree(ops: seq<Op>) {
    forall op <- ops :: !op.NextDay?
  }

  lemma {:induction false} StartStays(s: State, ops: seq<Op>)
    requires NoClear(ops) && s.start <= s.dayStart <= |s.log|
    ensures Run(s, ops).start <= Run(s, ops).dayStart <= |Run(s, ops).log|
    ensures NextDayFree(ops) && s.start == s.dayStart ==> Run(s, ops).start == Run(s, ops).dayStart
    decreases |ops|
  {
    if ops != [] {
      assert ops[0] in ops && forall op <- ops[1..] :: op in ops;
      assert Step(s, ops[0]).start <= Step(s, ops[0]).dayStart <= |Step(s, ops[0]).log| by { DayStartInRange(s, ops[0]); }
      StartStays(Step(s, ops[0]), ops[1..]);
    }
  }

  lemma DayStartInRange(s: State, op: Op)
    requires op != Clear && s.start <= s.dayStart <= |s.log|
    ensures Step(s, op).start <= Step(s, op).dayStart <= |Step(s, op).log|
  {
  }

  /** Where the part of the day's log begins that no restart or clear has caught up with. */
  function Fresher(t: State): nat { if t.since < t.dayStart then t.dayStart else t.since }

  /** What of the day's log the last restart could not read; a restart on an earlier day leaves nothing of the day out. */
  function UnreadToday(t: State): seq<Message>
    requires InRange(t)
  {
    if t.since <= t.dayStart then [] else Unread(t)
  }

  /** After a restart and without a clear: on the day of the restart the default room's memory is exactly that day's
      messages if and only if no untagged event came after the last restart and that restart left none of its messages
      unread; on any day it ends with all messages of the day if and only if this holds of the day's messages. What was
      logged before plays no part. */
  lemma DefaultRoomHoldsTheDay(s: State, ops: seq<Op>)
    requires Refines(s) && AllEnabled(Step(s, Restart), ops) && NoClear(ops)
    ensures var t := Run(Step(s, Restart), ops);
            var memory := Memory(t, DEFAULT_ROOM);
            var day := DayHistory(t.log, t.today, DEFAULT_ROOM);
            && InRange(t) && t.dayStart <= |t.log|
            && (NextDayFree(ops) ==> (memory == day <==> NoUntagged(t.log[t.since..]) && LogOf(Unread(t), DEFAULT_ROOM) == []))
            && (IsSuffix(day, memory) <==> NoUntagged(t.log[Fresher(t)..]) && LogOf(UnreadToday(t), DEFAULT_ROOM) == [])
  {
    hide Enabled, FormatDate, ViewAll, LogOf, DayHistory, Loggable, Single, LoggedAll, Recover, TaggedLog, Run, AllEnabled, Memory, NoUntagged, IsSuffix,
         Readable;
    RestartRefines(s);
    var t := Run(Step(s, Restart), ops);
    RunRefines(Step(s, Restart), ops);
    StartStays(Step(s, Restart), ops);
    DayLog(t, DEFAULT_ROOM);
    DefaultExactly(t);
    DayEndsMemory(t);
  }

  lemma ViewKeepsDate(m: Message)
    ensures FormatDate(View(m).timestamp) == FormatDate(m.timestamp)
  {
    hide Resplit;
  }

  lemma {:induction false} DatesKept(ms: seq<Message>, date: string, same: bool)
    requires forall m <- ms :: (FormatDate(m.timestamp) == date) == same
    ensures forall v <- LogOf(ms, DEFAULT_ROOM) :: (FormatDate(v.timestamp) == date) == same
    ensures forall v <- TaggedLog(ms) :: (FormatDate(v.timestamp) == date) == same
  {
    hide FormatDate, View;
    if ms != [] {
      var m := ms[|ms| - 1];
      assert m in ms;
      ViewKeepsDate(m);
      DatesKept(ms[..|ms| - 1], date, same);
    }
  }

  lemma TooShort(earlier: seq<Message>, late: seq<Message>, day: seq<Message>, date: string)
    requires forall v <- earlier :: FormatDate(v.timestamp) != date
    requires forall v <- day :: FormatDate(v.timestamp) == date
    requires |late| < |day|
    ensures !IsSuffix(day, earlier + late)
  {
    hide FormatDate;
    var all := earlier + late;
    if |day| <= |all| {
      var k := |all| - |day|;
      assert day[0] in day && all[k] == earlier[k] && earlier[k] in earlier;
      assert all[k..][0] == all[k] != day[0];
    }
  }

  lemma EarlierDates(t: State, ms: seq<Message>)
    requires Dated(t) && forall m <- ms :: m in t.log[..t.dayStart]
    ensures forall v <- LogOf(ms, DEFAULT_ROOM) :: FormatDate(v.timestamp) != t.today
    ensures forall v <- TaggedLog(ms) :: FormatDate(v.timestamp) != t.today
  {
    hide LogOf, TaggedLog, FormatDate, Loggable, Single, LoggedAll;
    DatesKept(ms, t.today, false);
  }

  /** Memory is an earlier part, none of it of the day, and a part that is the day's log exactly if nothing of the day is
      untagged or unread, and shorter otherwise. */
  lemma DayEndsMemory(t: State)
    requires Dated(t) && InRange(t) && DefaultMemory(t) && t.start <= t.dayStart
    ensures IsSuffix(LogOf(t.log[t.dayStart..], DEFAULT_ROOM), Memory(t, DEFAULT_ROOM))
       <==> NoUntagged(t.log[Fresher(t)..]) && LogOf(UnreadToday(t), DEFAULT_ROOM) == []
  {
    hide LogOf, TaggedLog, Memory, NoUntagged, Dated;
    DatedBound(t);
    var day := LogOf(t.log[t.dayStart..], DEFAULT_ROOM);
    DayDates(t);
    assert LogOf([], DEFAULT_ROOM) == [] by { NothingLogged(); }
    if t.since <= t.dayStart {
      var a, b := t.log[t.since..t.dayStart], t.log[t.dayStart..];
      assert t.log[t.since..] == a + b;
      TaggedConcat(a, b);
      TaggedIsLogExactly(b);
      EarlierDates(t, a);
      EarlierDates(t, t.log[t.start..t.read]);
      var early := LogOf(t.log[t.start..t.read], DEFAULT_ROOM) + TaggedLog(a);
      assert Memory(t, DEFAULT_ROOM) == early + TaggedLog(b);
      EndsExactly(early, TaggedLog(b), day, t.today);
      assert b == t.log[Fresher(t)..];
    } else {
      var a, b, u, c := t.log[t.start..t.dayStart], t.log[t.dayStart..t.read], Unread(t), t.log[t.since..];
      assert t.log[t.start..t.read] == a + b && t.log[t.dayStart..] == b + u + c;
      LogOfConcat(a, b, DEFAULT_ROOM);
      LogOfConcat(b, u, DEFAULT_ROOM);
      LogOfConcat(b + u, c, DEFAULT_ROOM);
      TaggedIsLogExactly(c);
      EarlierDates(t, a);
      var early, late := LogOf(a, DEFAULT_ROOM), LogOf(b, DEFAULT_ROOM) + TaggedLog(c);
      assert Memory(t, DEFAULT_ROOM) == early + late;
      assert LogOf(u, DEFAULT_ROOM) == [] ==> LogOf(b, DEFAULT_ROOM) + LogOf(u, DEFAULT_ROOM) == LogOf(b, DEFAULT_ROOM);
      EndsExactly(early, late, day, t.today);
    }
  }

  lemma DayDates(t: State)
    requires Dated(t)
    ensures forall v <- LogOf(t.log[t.dayStart..], DEFAULT_ROOM) :: FormatDate(v.timestamp) == t.today
  {
    hide LogOf, TaggedLog, FormatDate, Loggable, Single, LoggedAll;
    DatesKept(t.log[t.dayStart..], t.today, true);
  }

  lemma EndsExactly(early: seq<Message>, late: seq<Message>, day: seq<Message>, date: string)
    requires forall v <- early :: FormatDate(v.timestamp) != date
    requires forall v <- day :: FormatDate(v.timestamp) == date
    requires late == day || |late| < |day|
    ensures IsSuffix(day, early + late) <==> late == day
  {
    hide FormatDate;
    if late == day {
      assert (early + late)[|early|..] == late;
    } else {
      TooShort(early, late, day, date);
    }
  }

  lemma {:induction false} TaggedConcat(a: seq<Message>, b: seq<Message>)
    ensures TaggedLog(a + b) == TaggedLog(a) + TaggedLog(b)
  {
    hide LogEntry;
    var s := a + b;
    if b == [] {
      assert s == a;
    } else {
      assert s[..|s| - 1] == a + b[..|b| - 1] && s[|s| - 1] == b[|b| - 1];
      TaggedConcat(a, b[..|b| - 1]);
    }
  }

  /** Operations that log nothing and stay within the day. */
  predicate Silent(ops: seq<Op>) {
    forall op <- ops :: op.DeleteRoom? || op.Clear? || op.Restart?
  }

  /** However memory was cleared, deleted or restarted in between, restarting brings back exactly what the first restart
      brought: no message is lost or duplicated. */
  lemma {:induction false} RestartTwice(s: State, ops: seq<Op>)
    requires Silent(ops)
    ensures Step(Run(Step(s, Restart), ops), Restart) == Step(s, Restart)
  {
    SilentKeepsLog(Step(s, Restart), ops);
  }

  lemma {:induction false} SilentKeepsLog(s: State, ops: seq<Op>)
    requires Silent(ops)
    ensures var t := Run(s, ops);
            t.files == s.files && t.log == s.log && t.today == s.today && t.past == s.past && t.dayStart == s.dayStart
    decreases |ops|
  {
    hide Recover;
    if ops != [] {
      assert ops[0] in ops && forall op <- ops[1..] :: op in ops;
      SilentKeepsLog(Step(s, ops[0]), ops[1..]);
    }
  }

  /** One untagged event is enough, whatever came before: it is in the log of the default room and not in its memory; the
      next restart brings it there, and with it all that is missing, if and only if it can read the whole log. */
  lemma UntaggedEventIsMisfiled(s: State, m: Message)
    requires Refines(s) && Enabled(s, Record("", m))
    ensures var t := Step(s, Record("", m));
            var u := Step(t, Restart);
            && Memory(t, DEFAULT_ROOM) == Memory(s, DEFAULT_ROOM)
            && t.start <= |t.log| && u.start <= u.read <= |u.log|
            && Memory(t, DEFAULT_ROOM) != LogOf(t.log[t.start..], DEFAULT_ROOM)
            && (u.read == |u.log| ==> View(Tagged("", m)) in Memory(u, DEFAULT_ROOM))
            && (Memory(u, DEFAULT_ROOM) == LogOf(u.log[u.start..], DEFAULT_ROOM) <==> u.read == |u.log|)
  {
    hide Enabled, Refines, Step, View, LogOf, Memory, DefaultMemory;
    var t := Step(s, Record("", m));
    StepRefines(s, Record("", m));
    RefinedDates(t);
    JustMisfiled(s, m);
    RestartRepairs(t);
    RecordedToday(s, m);
    LastUnread(s, m);
    assert LogOf([], DEFAULT_ROOM) == [] by { NothingLogged(); }
    assert Step(t, Restart).log[|t.log|..] == [];
    assert t.log[t.dayStart..|t.log|] == t.log[t.dayStart..];
  }

  /** If the restart does not read everything, the untagged event is among what it leaves unread. */
  lemma LastUnread(s: State, m: Message)
    requires Enabled(s, Record("", m))
    ensures var t := Step(s, Record("", m));
            forall k: nat :: k < |t.log| ==> LogOf(t.log[k..], DEFAULT_ROOM) != []
  {
    hide FormatDate, Single, Loggable, View, LogOf, Logged;
    var e, t := Tagged("", m), Step(s, Record("", m));
    forall k: nat | k < |t.log| ensures LogOf(t.log[k..], DEFAULT_ROOM) != [] {
      assert t.log[k..] == s.log[k..] + [e];
      LogAppend(s.log[k..], e, DEFAULT_ROOM);
    }
  }

  lemma JustMisfiled(s: State, m: Message)
    requires Refines(s) && Enabled(s, Record("", m)) && Refines(Step(s, Record("", m)))
    ensures var t := Step(s, Record("", m));
            && Memory(t, DEFAULT_ROOM) == Memory(s, DEFAULT_ROOM)
            && t.start <= |t.log| && Memory(t, DEFAULT_ROOM) != LogOf(t.log[t.start..], DEFAULT_ROOM)
  {
    hide Dated, FormatDate, Single, Loggable, LogOf, Logged, TaggedLog, Memory;
    var e := Tagged("", m);
    var t := Step(s, Record("", m));
    DefaultExactly(t);
    assert e in t.log[t.since..] by { assert t.log[t.since..][|s.log| - t.since] == e; }
    SameMemory(s, t);
  }

  /** A restart brings back what was misfiled: the default room then holds all of the day that can be read, and all of the
      day if and only if none of its messages is left unread. */
  lemma RestartRepairs(t: State)
    requires Dated(t)
    ensures var u := Step(t, Restart);
            && u.start == t.dayStart <= u.read <= |u.log| && u.log == t.log
            && Memory(u, DEFAULT_ROOM) == LogOf(u.log[u.start..u.read], DEFAULT_ROOM)
            && (Memory(u, DEFAULT_ROOM) == LogOf(u.log[u.start..], DEFAULT_ROOM) <==> LogOf(u.log[u.read..], DEFAULT_ROOM) == [])
  {
    hide Dated, LogOf, Memory, Recover, Readable, IsSuffix, SuffixMemory;
    RestartRefines(t);
    var u := Step(t, Restart);
    assert u.log[u.since..] == [] && Unread(u) == u.log[u.read..];
    DefaultExactly(u);
    RestartedRoom(t, DEFAULT_ROOM);
    assert TaggedLog([]) == [] by { NothingLogged(); }
  }

  lemma DatedBound(t: State)
    requires Dated(t)
    ensures t.dayStart <= |t.log|
  {
  }

  lemma RecordedToday(s: State, m: Message)
    requires Refines(s) && Enabled(s, Record("", m))
    ensures var t := Step(s, Record("", m));
            t.dayStart <= |t.log| && View(Tagged("", m)) in LogOf(t.log[t.dayStart..], DEFAULT_ROOM)
  {
    hide FormatDate, Single, Loggable, View, LogOf, LoggedAll, Logged, DefaultMemory, SuffixMemory;
    var e := Tagged("", m);
    var t := Step(s, Record("", m));
    assert t.log[t.dayStart..] == s.log[s.dayStart..] + [e];
    LogAppend(s.log[s.dayStart..], e, DEFAULT_ROOM);
  }

  lemma SameMemory(s: State, t: State)
    requires HistoryOf(t.rooms, DEFAULT_ROOM) == HistoryOf(s.rooms, DEFAULT_ROOM)
    ensures Memory(t, DEFAULT_ROOM) == Memory(s, DEFAULT_ROOM)
  {
  }

  /** Such an event can be the first thing that ever happens. */
  lemma MisfiledFromBoot(m: Message)
    requires m.kind != ServerEvent && Loggable(Tagged("", m)) && Single(Tagged("", m))
    ensures var ops := [Record("", m)];
            var boot := Boot(FormatDate(m.timestamp));
            var t := Run(boot, ops);
            AllEnabled(boot, ops) && Memory(t, DEFAULT_ROOM) == [] && LogOf(t.log, DEFAULT_ROOM) == [View(Tagged("", m))]
  {
    hide FormatDate, Single, Loggable, View, Logged;
    var ops := [Record("", m)];
    var boot := Boot(FormatDate(m.timestamp));
    assert ops[1..] == [];
    var t := Step(boot, ops[0]);
    assert Run(boot, ops) == Run(t, []) == t;
    LogAppend([], Tagged("", m), DEFAULT_ROOM);
    assert AllEnabled(t, []);
  }
}
