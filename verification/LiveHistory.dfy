/** Rebuilding the rooms' histories from a log file at startup (server/history.go). */
module LiveHistory {
  import opened Messages
  import opened ServerState
  import opened LiveServer
  import opened Logs
  import opened LiveSteps

  function MessagesOf(history: seq<Event>): (ms: seq<Message>)
    ensures |ms| == |history| && forall i :: 0 <= i < |ms| ==> ms[i] == history[i].msg
  {
    seq(|history|, i requires 0 <= i < |history| => history[i].msg)
  }

  function HistoriesOf(s: Server): Histories { map room | room in s.rooms :: MessagesOf(s.rooms[room].history) }

  /** Only histories and the stamp counter differ. */
  ghost predicate SameButHistories(s: Server, t: Server) {
    && t == s.(rooms := t.rooms, stamps := t.stamps)
    && forall room :: Members(t, room) == Members(s, room) && Queue(t, room) == Queue(s, room)
  }

  lemma RecoverOneMore(s: Server, m: Message, t: Server)
    requires var r := RoomOf(s, m.room);
             t == WithRoom(s, m.room, r.(history := r.history + [Event(s.stamps, m)])).(stamps := s.stamps + 1)
    ensures HistoriesOf(t) == HistoriesOf(s)[m.room := HistoryOf(HistoriesOf(s), m.room) + [m]]
    ensures SameButHistories(s, t)
  {
    assert MessagesOf(History(s, m.room) + [Event(s.stamps, m)]) == MessagesOf(History(s, m.room)) + [m];
  }

  lemma RecoverNext(rooms: Histories, lines: seq<string>, i: nat)
    requires i < |lines|
    ensures RecoverLines(rooms, lines[..i + 1]) == RecoverLine(RecoverLines(rooms, lines[..i]), lines[i])
  {
    assert lines[..i + 1][..i] == lines[..i];
  }

  /** Every scanned line that parses and is not a server event is appended to its room, in order; all else stays. */
  method RecoverHistory(srv: LiveServer, text: string)
    requires srv.Valid()
    modifies srv, srv.rooms.Values
    ensures srv.Valid() && fresh(srv.rooms.Values - old(srv.rooms.Values))
    ensures HistoriesOf(srv.View()) == RecoverLines(HistoriesOf(old(srv.View())), ScanLines(text))
    ensures SameButHistories(old(srv.View()), srv.View())
  {
    hide HistoriesOf, ScanLines, RecoverLines, ParseLogLine, SameButHistories;
    var lines := ScanLines(text);
    ghost var s := srv.View();
    Unchanged(s, lines);
    for i := 0 to |lines|
      invariant srv.Valid() && fresh(srv.rooms.Values - old(srv.rooms.Values))
      invariant HistoriesOf(srv.View()) == RecoverLines(HistoriesOf(s), lines[..i])
      invariant SameButHistories(s, srv.View())
    {
      RecoverNext(HistoriesOf(s), lines, i);
      var line := lines[i];
      if |line| == 0 { continue; }
      var parsed := ParseLogLine(line);
      if parsed.Err? || parsed.value.kind == ServerEvent { continue; }
      var m := parsed.value;
      if m.room == "" { m := m.(room := DEFAULT_ROOM); }
      ghost var before := srv.View();
      Append(srv, m);
      RecoverOneMore(before, m, srv.View());
      Transitive(s, before, srv.View());
    }
    assert lines[..|lines|] == lines;
  }

  method Append(srv: LiveServer, m: Message)
    requires srv.Valid()
    modifies srv, srv.rooms.Values
    ensures srv.Valid() && fresh(srv.rooms.Values - old(srv.rooms.Values))
    ensures var s := old(srv.View());
            var r := RoomOf(s, m.room);
            srv.View() == WithRoom(s, m.room, r.(history := r.history + [Event(s.stamps, m)])).(stamps := s.stamps + 1)
  {
    var r := srv.RoomNow(m.room);
    srv.PutRoom(m.room, r.(history := r.history + [Event(srv.stamps, m)]));
    srv.stamps := srv.stamps + 1;
  }

  lemma Unchanged(s: Server, lines: seq<string>)
    ensures SameButHistories(s, s) && RecoverLines(HistoriesOf(s), lines[..0]) == HistoriesOf(s)
  {
  }

  lemma Transitive(s: Server, t: Server, u: Server)
    requires SameButHistories(s, t) && SameButHistories(t, u)
    ensures SameButHistories(s, u)
  {
  }

  /** A server that restarts over the day's log file is a fresh one but for its histories, and holds in each room what the
      day's messages leave there: all of them up to the first line that is too long. */
  method RestartAfter(known: set<string>, ms: seq<Message>, date: string) returns (srv: LiveServer)
    requires forall m <- ms :: Loggable(m) && Single(m)
    ensures fresh(srv) && srv.Valid()
    ensures SameButHistories(Fresh(known), srv.View())
    ensures HistoriesOf(srv.View()) == Recover(map[DEFAULT_ROOM := []], LoggedAll(map[], ms), date)
    ensures forall room :: MessagesOf(History(srv.View(), room)) == DayHistory(Readable(ms, date), date, room)
    ensures forall room :: MessagesOf(History(srv.View(), room)) == DayHistory(ms, date, room) <==> DayHistory(Lost(ms, date), date, room) == []
  {
    hide Loggable, Single, ScanLines, RecoverLines, FilePath, SameButHistories, LoggedAll, Lost;
    srv := new LiveServer(known);
    FreshHistories(known);
    var files := LoggedAll(map[], ms);
    RecoverHistory(srv, Contents(files, FilePath(date)));
    forall room
      ensures MessagesOf(History(srv.View(), room)) == DayHistory(Readable(ms, date), date, room)
      ensures MessagesOf(History(srv.View(), room)) == DayHistory(ms, date, room) <==> DayHistory(Lost(ms, date), date, room) == []
    {
      RoomMessages(srv.View(), room);
      BootHistories(ms, date, room);
    }
  }

  lemma RoomMessages(s: Server, room: string)
    ensures MessagesOf(History(s, room)) == HistoryOf(HistoriesOf(s), room)
  {
  }

  lemma FreshHistories(known: set<string>)
    ensures HistoriesOf(Fresh(known)) == map[DEFAULT_ROOM := []]
  {
    assert MessagesOf([]) == [];
  }

  lemma BootHistories(ms: seq<Message>, date: string, room: string)
    requires forall m <- ms :: Loggable(m) && Single(m)
    ensures var h := HistoryOf(Recover(map[DEFAULT_ROOM := []], LoggedAll(map[], ms), date), room);
            h == DayHistory(Readable(ms, date), date, room) && (h == DayHistory(ms, date, room) <==> DayHistory(Lost(ms, date), date, room) == [])
  {
    hide Loggable, Single, FilePath, LoggedAll, DayHistory, Readable, Lost;
    var boot: Histories := map[DEFAULT_ROOM := []];
    RecoveryIsComplete(boot, map[], ms, date, room);
    assert Contents(map[], FilePath(date)) == "" && ScanLines("") == [];
    assert Recover(boot, map[], date) == boot;
    assert forall d: seq<Message> :: [] + d == d;
  }
}
