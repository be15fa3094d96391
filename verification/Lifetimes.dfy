/** One server after another over the same log directory: each starts from the files of those before it
    (main.go, server/history.go). */
module Lifetimes {
  import opened Text
  import opened Messages
  import opened ServerState
  import opened Commands
  import opened Logs
  import opened LogLines
  import opened LogRuns
  import opened Halls
  import Machine = HistoryRuns
  import Recovery = LiveHistory

  /** A server that has recovered the log of the day. */
  ghost predicate Reborn(s: Server, log: seq<Message>, day: string) {
    exists known :: Recovery.SameButHistories(Fresh(known), s)
                    && Recovery.HistoriesOf(s) == Recover(map[DEFAULT_ROOM := []], LoggedAll(map[], log), day)
  }

  /** A start on a day, and what the server does until it stops. */
  datatype Life = Life(day: string, born: Server, run: Run)

  function End(l: Life): Server { After(l.born, l.run) }

  function PastAt(today: string, past: set<string>, day: string): set<string> { if day == today then past else past + {today} }

  /** Each life starts from the files left by those before it, on no earlier day. */
  ghost predicate Chained(lives: seq<Life>, log: seq<Message>, today: string, past: set<string>)
    decreases |lives|
  {
    lives == [] ||
    var l := lives[0];
    && l.day !in past && Reborn(l.born, log, l.day) && Possible(l.born, l.run) && Orderly(l.run, l.day, PastAt(today, past, l.day))
    && Chained(lives[1..], log + End(l).log, LastDay(l.run, l.day), DaysPast(l.run, l.day, PastAt(today, past, l.day)))
  }

  /** Everything logged in these lives. */
  function Diary(lives: seq<Life>): seq<Message> {
    if lives == [] then [] else Diary(lives[..|lives| - 1]) + End(lives[|lives| - 1]).log
  }

  // ---------- a recovered server ----------

  lemma {:induction false} RecoveredKeys(rooms: Histories, lines: seq<string>, room: string)
    requires room in RecoverLines(rooms, lines)
    ensures room in rooms || HistoryOf(RecoverLines(rooms, lines), room) != []
  {
    hide LineMessage;
    if lines != [] {
      var init := lines[..|lines| - 1];
      if room in RecoverLines(rooms, init) { RecoveredKeys(rooms, init, room); }
    }
  }

  lemma {:induction false} DayRoom(ms: seq<Message>, date: string, room: string)
    requires DayHistory(ms, date, room) != []
    ensures exists m :: m in ms && RecoveryRoom(m.room) == room
  {
    hide FormatDate, Recovered;
    if DayEntry(ms[|ms| - 1], date, room) != [] {
      assert ms[|ms| - 1] in ms;
    } else {
      DayRoom(ms[..|ms| - 1], date, room);
    }
  }

  lemma RebornRooms(log: seq<Message>, day: string, room: string)
    requires forall m <- log :: Loggable(m) && Single(m)
    requires room in Recover(map[DEFAULT_ROOM := []], LoggedAll(map[], log), day)
    ensures RoomOk(room)
  {
    hide Single, DayHistory, LoggedAll, RecoverLines, ScanLines, FilePath, ValidName, Readable;
    if room != DEFAULT_ROOM {
      RecoveredKeys(map[DEFAULT_ROOM := []], ScanLines(Contents(LoggedAll(map[], log), FilePath(day))), room);
      Recovery.BootHistories(log, day, room);
      DayRoom(Readable(log, day), day, room);
      var m :| m in Readable(log, day) && RecoveryRoom(m.room) == room;
      assert m in log;
    }
    ShortNames();
  }

  /** A recovered server has valid names only, an empty log of its own, and the histories the log machine has after a
      restart. */
  lemma RebornMirrors(s: Server, h: Machine.State)
    requires Machine.Dated(h) && Reborn(s, h.log, h.today)
    ensures Proper(s) && s.log == [] && Mirrors(s, Machine.Step(h, Machine.Restart), h.log)
  {
    hide Loggable, Single, FormatDate, LoggedAll, Recover, ValidName, Readable, Recovery.HistoriesOf;
    var known :| Recovery.SameButHistories(Fresh(known), s)
                 && Recovery.HistoriesOf(s) == Recover(map[DEFAULT_ROOM := []], LoggedAll(map[], h.log), h.today);
    assert h.log + [] == h.log;
    forall room | room in s.rooms ensures RoomOk(room) { HistoryKeys(s, room); RebornRooms(h.log, h.today, room); }
    forall room ensures HistoryOf(Machine.Step(h, Machine.Restart).rooms, room) == Recovery.MessagesOf(History(s, room)) {
      Recovery.RoomMessages(s, room);
    }
  }

  lemma HistoryKeys(s: Server, room: string)
    requires room in s.rooms
    ensures room in Recovery.HistoriesOf(s)
  {
  }

  // ---------- one life, and all of them ----------

  /** What a server started over a log has in common with that log and its own. */
  ghost predicate LifeMatches(l: Life, log: seq<Message>) {
    var s, read := End(l), Readable(log, l.day);
    && (forall room :: room != "" && room != DEFAULT_ROOM ==>
          Machine.IsSuffix(MemoryOf(s, room), Machine.LogOf((if Sleepless(l.run) then read else log) + s.log, room)))
    && (Sleepless(l.run) ==>
          (MemoryOf(s, DEFAULT_ROOM) == DayHistory(log, l.day, DEFAULT_ROOM) + Machine.LogOf(s.log, DEFAULT_ROOM)
           <==> Machine.NoUntagged(s.log) && DayHistory(Lost(log, l.day), l.day, DEFAULT_ROOM) == []))
  }

  lemma MemoryOfLife(l: Life, k: Machine.State, g: Machine.State, log: seq<Message>)
    requires Machine.Dated(k) && k.log == log && k.today == l.day
    requires Machine.Refines(g) && Mirrors(End(l), g, log) && Onward(Machine.Step(k, Machine.Restart), g, !Sleepless(l.run))
    ensures LifeMatches(l, log)
  {
    hide Mirrors, Machine.Refines, Machine.Dated, Machine.DefaultMemory, MemoryOf, Machine.Memory, Machine.LogOf, Machine.IsSuffix, Recover, Readable,
         DayHistory, Sleepless, Machine.NoUntagged, Machine.TaggedLog, Lost, Machine.ViewAll, HistoryOf;
    var s, read := End(l), Readable(log, l.day);
    RefinesRange(g);
    SameLog(s, g, log);
    forall room | room != "" && room != DEFAULT_ROOM
      ensures Machine.IsSuffix(MemoryOf(s, room), Machine.LogOf((if Sleepless(l.run) then read else log) + s.log, room))
    {
      SameMemories(s, g, log, room);
      assert Machine.Named(room) && Machine.SuffixMemory(g, room);
      if Sleepless(l.run) {
        assert Machine.Held(g) == read + s.log by { HeldSince(k, g, s.log); }
      } else {
        assert Machine.Held(g) == log + s.log;
      }
    }
    if Sleepless(l.run) { DefaultOfLife(l, k, g, log); }
  }

  /** Without a clear the log held is what the restart read and what came after it. */
  lemma HeldSince(k: Machine.State, g: Machine.State, own: seq<Message>)
    requires Machine.InRange(g) && g.log == k.log + own && Onward(Machine.Step(k, Machine.Restart), g, false)
    ensures Machine.Held(g) == Readable(k.log, k.today) + own
    ensures Machine.Unread(g) == Lost(k.log, k.today) && g.log[g.since..] == own && g.start == k.dayStart && g.read == |Readable(k.log, k.today)|
  {
    hide Recover;
    var read := Readable(k.log, k.today);
    assert g.log[..g.read] == k.log[..|read|] == read;
  }

  lemma DefaultOfLife(l: Life, k: Machine.State, g: Machine.State, log: seq<Message>)
    requires Machine.Dated(k) && k.log == log && k.today == l.day
    requires Machine.Refines(g) && Mirrors(End(l), g, log) && Onward(Machine.Step(k, Machine.Restart), g, false)
    ensures var s := End(l);
            MemoryOf(s, DEFAULT_ROOM) == DayHistory(log, l.day, DEFAULT_ROOM) + Machine.LogOf(s.log, DEFAULT_ROOM)
            <==> Machine.NoUntagged(s.log) && DayHistory(Lost(log, l.day), l.day, DEFAULT_ROOM) == []
  {
    hide Mirrors, Machine.Refines, Machine.Dated, Machine.DefaultMemory, MemoryOf, Machine.Memory, Machine.LogOf, Machine.IsSuffix, Recover, Readable,
         DayHistory, Machine.NoUntagged, Machine.TaggedLog, Machine.ViewAll, HistoryOf, Machine.Step, Onward, Machine.Held;
    var s := End(l);
    RefinesRange(g);
    SameLog(s, g, log);
    HeldSince(k, g, s.log);
    SameMemories(s, g, log, DEFAULT_ROOM);
    Machine.DefaultExactly(g);
    Machine.DayLog(k, DEFAULT_ROOM);
    DatedTail(k);
    var tail := log[k.dayStart..];
    assert g.log[g.start..] == tail + s.log;
    Machine.LogOfConcat(tail, s.log, DEFAULT_ROOM);
    Machine.RestartedRoom(k, DEFAULT_ROOM);
    assert forall m <- Lost(log, l.day) :: m in tail;
    Machine.DayIsLog(Lost(log, l.day), l.day, DEFAULT_ROOM);
  }

  lemma DatedTail(k: Machine.State)
    requires Machine.Dated(k)
    ensures k.dayStart <= |k.log| && forall m <- k.log[k.dayStart..] :: FormatDate(m.timestamp) == k.today
  {
    hide Loggable, Single, FormatDate, LoggedAll;
  }

  /** The log machine goes to the day of the start. */
  lemma Wakes(h: Machine.State, day: string) returns (k: Machine.State)
    requires Machine.Refines(h) && day !in h.past
    ensures Machine.Refines(k) && k.log == h.log && k.today == day && k.past == PastAt(h.today, h.past, day)
  {
    hide Machine.Refines;
    if day == h.today {
      k := h;
    } else {
      k := Machine.Step(h, Machine.NextDay(day));
      Machine.StepRefines(h, Machine.NextDay(day));
    }
  }

  /** One life is a run of the log machine after a restart. */
  lemma LifeMirrors(l: Life, h: Machine.State) returns (g: Machine.State)
    requires Machine.Refines(h) && l.day !in h.past && Reborn(l.born, h.log, l.day)
    requires Possible(l.born, l.run) && Orderly(l.run, l.day, PastAt(h.today, h.past, l.day))
    ensures Machine.Refines(g) && g.log == h.log + End(l).log && LifeMatches(l, h.log)
    ensures g.today == LastDay(l.run, l.day) && g.past == DaysPast(l.run, l.day, PastAt(h.today, h.past, l.day))
  {
    hide Proper, Possible, Orderly, Machine.AllEnabled, Machine.Run, After, Machine.Refines, Machine.Step, Mirrors, Onward, Reborn, LifeMatches, Sleepless,
         PastAt, LastDay, DaysPast, Machine.Dated;
    var k := Wakes(h, l.day);
    Machine.RefinedDates(k);
    RebornMirrors(l.born, k);
    Machine.StepRefines(k, Machine.Restart) by { RestartEnabled(k); }
    var j := Machine.Step(k, Machine.Restart);
    RestartKeeps(k);
    var ops := CommandsMirror(l.born, l.run, j, h.log);
    Machine.RunRefines(j, ops);
    g := Machine.Run(j, ops);
    SameLog(End(l), g, h.log);
    MemoryOfLife(l, k, g, h.log);
  }

  lemma RestartEnabled(k: Machine.State)
    ensures Machine.Enabled(k, Machine.Restart)
  {
  }

  lemma RestartKeeps(k: Machine.State)
    ensures var j := Machine.Step(k, Machine.Restart); j.today == k.today && j.past == k.past
  {
  }

  lemma {:induction false} LivesMirror(lives: seq<Life>, h: Machine.State) returns (g: Machine.State)
    requires Machine.Refines(h) && Chained(lives, h.log, h.today, h.past)
    ensures Machine.Refines(g) && g.log == h.log + Diary(lives)
    ensures forall i :: 0 <= i < |lives| ==> LifeMatches(lives[i], h.log + Diary(lives[..i]))
    decreases |lives|
  {
    hide Machine.Refines, Reborn, Possible, Orderly, LifeMatches, PastAt, LastDay, DaysPast, End;
    if lives == [] {
      g := h;
      assert h.log + [] == h.log;
    } else {
      var l := lives[0];
      var k := LifeMirrors(l, h);
      g := LivesMirror(lives[1..], k);
      DiaryFirst(lives);
      assert h.log + (End(l).log + Diary(lives[1..])) == k.log + Diary(lives[1..]);
      hide Diary;
      forall i | 0 < i < |lives| ensures LifeMatches(lives[i], h.log + Diary(lives[..i])) { OneLater(lives, h.log, i); }
      assert Diary(lives[..0]) == [] by { NoDiary(lives); }
      assert h.log + [] == h.log;
    }
  }

  lemma NoDiary(lives: seq<Life>)
    ensures Diary(lives[..0]) == []
  {
  }

  /** A life's log, seen from one life earlier. */
  lemma OneLater(lives: seq<Life>, log: seq<Message>, i: nat)
    requires 0 < i < |lives|
    ensures lives[1..][i - 1] == lives[i]
    ensures (log + End(lives[0]).log) + Diary(lives[1..][..i - 1]) == log + Diary(lives[..i])
  {
    hide End, Diary;
    DiaryFirst(lives[..i]);
    assert lives[..i][1..] == lives[1..][..i - 1];
  }

  lemma {:induction false} DiaryFirst(lives: seq<Life>)
    requires lives != []
    ensures Diary(lives) == End(lives[0]).log + Diary(lives[1..])
    decreases |lives|
  {
    hide End;
    var init, l := lives[..|lives| - 1], lives[|lives| - 1];
    if init == [] {
      assert lives[1..] == [];
    } else {
      DiaryFirst(init);
      assert init[0] == lives[0] && init[1..] == lives[1..][..|lives| - 2] && lives[1..][|lives| - 2] == l;
    }
  }

  /** Any number of servers one after another, from an empty log directory: the history of a room other than the default
      one is a suffix of what all of them logged for it, without what the last start could not read and no clear has caught
      up with since; and without a midnight clear the default room's history is the day's log at the start and all that
      was logged for it since, if and only if nothing was recorded for the room without a name and the start left none of
      its messages unread. */
  lemma LivesMatchLog(lives: seq<Life>, date: string, i: nat)
    requires Chained(lives, [], date, {}) && i < |lives|
    ensures LifeMatches(lives[i], Diary(lives[..i]))
  {
    hide Chained, LifeMatches, Machine.Refines;
    Machine.BootRefines(date);
    var g := LivesMirror(lives, Machine.Boot(date));
    assert [] + Diary(lives[..i]) == Diary(lives[..i]);
  }

  /** The very first server is one that has recovered an empty log. */
  lemma FirstIsReborn(known: set<string>, day: string)
    ensures Reborn(Fresh(known), [], day)
  {
    Recovery.FreshHistories(known);
    assert ScanLines("") == [];
    assert Recovery.SameButHistories(Fresh(known), Fresh(known));
    assert Recovery.HistoriesOf(Fresh(known)) == Recover(map[DEFAULT_ROOM := []], LoggedAll(map[], []), day);
  }

  // ---------- a line that is too long ----------

  /** A server with the given histories and nobody on it. */
  function Rebuilt(known: set<string>, histories: Histories): Server {
    Fresh(known).(rooms := map room | room in histories :: Room(map[], seq(|histories[room]|, i requires 0 <= i < |histories[room]| => Event(i, histories[room][i])), []))
  }

  lemma RebuiltIsReborn(known: set<string>, log: seq<Message>, day: string)
    ensures Reborn(Rebuilt(known, Recover(map[DEFAULT_ROOM := []], LoggedAll(map[], log), day)), log, day)
  {
    hide Recover, LoggedAll;
    var histories := Recover(map[DEFAULT_ROOM := []], LoggedAll(map[], log), day);
    var s := Rebuilt(known, histories);
    forall room | room in histories ensures Recovery.MessagesOf(s.rooms[room].history) == histories[room] { }
    assert Recovery.HistoriesOf(s) == histories;
    assert Recovery.SameButHistories(Fresh(known), s);
  }

  /** Short enough for the operator's scanner, and too long for recovery's once the log has put its fields before it. */
  function LongText(): string { seq(MAX_LINE - 20, _ => 'a') }

  function Announced(text: string): (Action, Moment) { (OperatorAnnounce(text, [DEFAULT_ROOM]), NOW) }

  function Loud(): Life { Life(DayOf(NOW), Fresh({}), [Announced(LongText()), Announced("hi")]) }

  function Shout(text: string): Message { Machine.Tagged(DEFAULT_ROOM, Note(NOW, Announcement, "", text, "Server")) }

  lemma LongLine()
    ensures Blocks(Shout(LongText()), DayOf(NOW))
  {
    hide FormatTimestamp, FormatDate;
    var m := Shout(LongText());
    assert |FormatLogLine(m)| >= |RoomTag(m)| + |Keyword(m.kind)| + |LongText()| >= MAX_LINE - 20 + 17;
    assert |Payload(m)| >= |LongText()| + 9;
  }

  lemma AnnouncedAlone(s: Server, text: string)
    requires s.rooms.Keys == {DEFAULT_ROOM} && TrimSpace(text) != ""
    ensures Enabled(s, Announced(text).0, NOW)
    ensures var t := Step(s, Announced(text).0, NOW);
            && t.rooms.Keys == {DEFAULT_ROOM} && t.log == s.log + [Shout(text)] && |History(t, DEFAULT_ROOM)| == |History(s, DEFAULT_ROOM)| + 1
  {
    hide TrimSpace;
    var names := [DEFAULT_ROOM];
    assert names[..0] == [] && AnnounceIn(s, [], text, "Server", NOW) == s;
  }

  lemma Announcements()
    ensures TrimSpace(LongText()) != "" && '\n' !in LongText() && TrimSpace("hi") != "" && '\n' !in "hi"
    ensures Timely(NOW, DayOf(NOW))
  {
    hide TrimSpace;
    NothingToTrim(LongText());
    NothingToTrim("hi");
  }

  lemma LoudRuns()
    ensures var l := Loud();
            && Possible(l.born, l.run) && Orderly(l.run, l.day, {})
            && End(l).log == [Shout(LongText()), Shout("hi")] && |History(End(l), DEFAULT_ROOM)| == 2
  {
    hide Enabled, Step, LongText, TrimSpace, Timely, DayOf, NOW, Announced;
    var l := Loud();
    Announcements();
    var s := Step(l.born, Announced(LongText()).0, NOW);
    AnnouncedAlone(l.born, LongText());
    AnnouncedAlone(s, "hi");
    assert Announced(LongText()).1 == NOW == Announced("hi").1 && Typed(Announced(LongText()).0) && Typed(Announced("hi").0) by { Typing(); }
    var t := Step(s, Announced("hi").0, NOW);
    assert l.run[1..] == [Announced("hi")] && l.run[1..][1..] == [];
    assert Possible(t, []) && After(t, []) == t && Orderly([], l.day, {});
    assert Possible(s, [Announced("hi")]) && After(s, [Announced("hi")]) == t && Orderly([Announced("hi")], l.day, {});
  }

  lemma Typing()
    ensures Announced(LongText()).1 == NOW == Announced("hi").1 && Typed(Announced(LongText()).0) && Typed(Announced("hi").0)
  {
  }

  /** An operator's announcement of almost one MiB, then a short one: the server's memory has both, and every server
      started on that day's log holds nothing in any room. */
  lemma LongAnnouncementLosesTheRest()
    ensures var l := Loud();
            && |LongText()| + |"/announce "| < MAX_LINE
            && Chained([l], [], l.day, {}) && |MemoryOf(End(l), DEFAULT_ROOM)| == 2
            && Reborn(Rebuilt({}, Recover(map[DEFAULT_ROOM := []], LoggedAll(map[], End(l).log), l.day)), End(l).log, l.day)
            && forall s, room :: Reborn(s, End(l).log, l.day) ==> MemoryOf(s, room) == []
  {
    hide Possible, Orderly, Reborn, Shout, Blocks, Rebuilt, Recover, LoggedAll, End;
    var l := Loud();
    LoudRuns();
    LongLine();
    FirstIsReborn({}, l.day);
    RebuiltIsReborn({}, End(l).log, l.day);
    assert [l][1..] == [];
    NothingRead();
    forall s, room | Reborn(s, End(l).log, l.day) ensures MemoryOf(s, room) == [] {
      NothingBack(room);
      RebornEmpty(s, End(l).log, l.day, room);
    }
  }

  lemma NothingRead()
    requires Blocks(Shout(LongText()), DayOf(NOW))
    ensures Readable([Shout(LongText()), Shout("hi")], DayOf(NOW)) == []
  {
    hide Shout, Blocks, LongText, DayOf;
    var ms := [Shout(LongText()), Shout("hi")];
    assert ms[..1] == [Shout(LongText())] && ms[..1][..0] == [];
    assert Readable([], DayOf(NOW)) == [];
  }

  lemma ShoutsAreLoggable(text: string)
    requires '\n' !in text
    ensures Loggable(Shout(text)) && Single(Shout(text))
  {
    hide Single, FormatDate;
    ShortNames();
    PlainIsOneLine(Shout(text));
  }

  lemma NothingBack(room: string)
    requires Readable([Shout(LongText()), Shout("hi")], DayOf(NOW)) == []
    ensures HistoryOf(Recover(map[DEFAULT_ROOM := []], LoggedAll(map[], [Shout(LongText()), Shout("hi")]), DayOf(NOW)), room) == []
  {
    hide Shout, LongText, DayOf, Loggable, Single, Recover, Readable, LoggedAll, TrimSpace, Timely, Lost, HistoryOf;
    Announcements();
    ShoutsAreLoggable(LongText());
    ShoutsAreLoggable("hi");
    Recovery.BootHistories([Shout(LongText()), Shout("hi")], DayOf(NOW), room);
  }

  lemma RebornEmpty(s: Server, log: seq<Message>, day: string, room: string)
    requires Reborn(s, log, day) && HistoryOf(Recover(map[DEFAULT_ROOM := []], LoggedAll(map[], log), day), room) == []
    ensures MemoryOf(s, room) == []
  {
    hide Recover, LoggedAll, Recovery.HistoriesOf, Recovery.MessagesOf, History, HistoryOf;
    Recovery.RoomMessages(s, room);
  }
}
