/** The daily log files: writing them (logger/logger.go) and reading them back (server/history.go). */
module Logs {
  import opened Text
  import opened Messages
  import opened RoundTrip

  /** The log directory: path to contents. Opening and writing a file always succeed. */
  class Disk {
    var files: map<string, string>

    constructor ()
      ensures files == map[]
    {
      files := map[];
    }
  }

  function FilePath(date: string): string {
    "chat_" + date + ".log"
  }

  function Contents(files: map<string, string>, path: string): string {
    if path in files then files[path] else ""
  }

  function LogLine(m: Message): string {
    FormatLogLine(m) + "\n"
  }

  /** The files after one successful Log call. */
  function Logged(files: map<string, string>, m: Message): map<string, string> {
    var path := FilePath(FormatDate(m.timestamp));
    files[path := Contents(files, path) + LogLine(m)]
  }

  function LoggedAll(files: map<string, string>, ms: seq<Message>): map<string, string> {
    if ms == [] then files else Logged(LoggedAll(files, ms[..|ms| - 1]), ms[|ms| - 1])
  }

  class Logger {
    const disk: Disk
    var file: Option<string>
    var curDate: string
    var closed: bool

    /** The cached handle is the file of the cached date. */
    ghost predicate Valid()
      reads this, disk
    {
      file.Some? ==> file.value == FilePath(curDate) && file.value in disk.files
    }

    constructor (disk: Disk)
      ensures Valid() && this.disk == disk && !closed && file == None
    {
      this.disk := disk;
      file, curDate, closed := None, "", false;
    }

    /** Leaves the handle on the requested date's file; only an empty file may appear. */
    method EnsureFile(date: string)
      requires Valid()
      modifies this, disk
      ensures Valid() && file == Some(FilePath(date)) && closed == old(closed)
      ensures disk.files == old(disk.files)[FilePath(date) := Contents(old(disk.files), FilePath(date))]
    {
      if curDate == date && file.Some? {
        return;
      }
      var name := FilePath(date);
      if name !in disk.files {
        disk.files := disk.files[name := ""];
      }
      file, curDate := Some(name), date;
    }

    /** Appends to the message's own day, whatever day the open file belongs to. */
    method Log(m: Message)
      requires Valid()
      modifies this, disk
      ensures Valid() && closed == old(closed)
      ensures disk.files == if closed then old(disk.files) else Logged(old(disk.files), m)
    {
      if closed {
        return;
      }
      EnsureFile(FormatDate(m.timestamp));
      var path := file.value;
      disk.files := disk.files[path := disk.files[path] + LogLine(m)];
    }

    method Close()
      requires Valid()
      modifies this
      ensures Valid() && closed && file == None
    {
      closed := true;
      file := None;
    }
  }

  function Flatten(sessions: seq<seq<Message>>): seq<Message> {
    if sessions == [] then [] else Flatten(sessions[..|sessions| - 1]) + sessions[|sessions| - 1]
  }

  lemma {:induction false} LoggedAllConcat(files: map<string, string>, a: seq<Message>, b: seq<Message>)
    ensures LoggedAll(files, a + b) == LoggedAll(LoggedAll(files, a), b)
  {
    hide Logged;
    var s := a + b;
    if b == [] {
      assert s == a;
    } else {
      assert s[..|s| - 1] == a + b[..|b| - 1] && s[|s| - 1] == b[|b| - 1];
      LoggedAllConcat(files, a, b[..|b| - 1]);
    }
  }

  /** One logger per server run, each closed at shutdown: what is on disk depends only on the messages in order. */
  method LogSessions(disk: Disk, sessions: seq<seq<Message>>)
    modifies disk
    ensures disk.files == LoggedAll(old(disk.files), Flatten(sessions))
  {
    hide Logged, FilePath;
    for i := 0 to |sessions|
      invariant disk.files == LoggedAll(old(disk.files), Flatten(sessions[..i]))
    {
      var logger := new Logger(disk);
      ghost var start := disk.files;
      for j := 0 to |sessions[i]|
        invariant logger.Valid() && logger.disk == disk && !logger.closed && fresh(logger)
        invariant disk.files == LoggedAll(start, sessions[i][..j])
      {
        assert sessions[i][..j + 1][..j] == sessions[i][..j];
        logger.Log(sessions[i][j]);
      }
      logger.Close();
      assert sessions[i][..|sessions[i]|] == sessions[i];
      assert sessions[..i + 1][..i] == sessions[..i];
      LoggedAllConcat(old(disk.files), Flatten(sessions[..i]), sessions[i]);
    }
    assert sessions[..|sessions|] == sessions;
  }

  // ---------- scanning a file ----------

  /** Capacity of the scanner buffer; a line and its newline must fit. */
  const MAX_LINE := 1_048_576

  predicate Fits(line: string) { ByteLen(line) < MAX_LINE }

  function DropCR(line: string): string {
    if line != "" && line[|line| - 1] == '\r' then line[..|line| - 1] else line
  }

  /** The lines a scanner delivers; it stops for good at the first line that does not fit. */
  function ScanLines(text: string): (lines: seq<string>)
    decreases |text|
  {
    if text == "" then []
    else
      var k := IndexOf(text, '\n');
      if k < 0 then (if Fits(text) then [DropCR(text)] else [])
      else if !Fits(text[..k]) then []
      else [DropCR(text[..k])] + ScanLines(text[k + 1..])
  }

  /** Every line is terminated and fits. */
  predicate Complete(text: string)
    decreases |text|
  {
    text == "" ||
    var k := IndexOf(text, '\n');
    0 <= k && Fits(text[..k]) && Complete(text[k + 1..])
  }

  lemma ScanStep(line: string, rest: string)
    requires '\n' !in line && Fits(line)
    ensures ScanLines(line + ("\n" + rest)) == [DropCR(line)] + ScanLines(rest)
    ensures Complete(rest) ==> Complete(line + ("\n" + rest))
  {
    hide Fits, DropCR;
    var text := line + ("\n" + rest);
    IndexOfConcat(line, '\n', rest);
    Assoc(line, "\n", rest);
    Cut(line, "\n", rest);
    assert text == line + "\n" + rest;
  }

  lemma {:induction false} ScanConcat(a: string, b: string)
    requires Complete(a)
    ensures ScanLines(a + b) == ScanLines(a) + ScanLines(b)
    ensures Complete(b) ==> Complete(a + b)
    decreases |a|
  {
    hide Fits, DropCR, ScanLines, Complete;
    if a == "" {
      ScanNothing(b);
    } else {
      var line, rest := FirstLine(a);
      ScanConcat(rest, b);
      ScanConcatStep(line, rest, b);
    }
  }

  lemma ScanNothing(b: string)
    ensures "" + b == b && ScanLines(b) == ScanLines("") + ScanLines(b)
  {
    assert ScanLines("") == [];
  }

  lemma FirstLine(a: string) returns (line: string, rest: string)
    requires Complete(a) && a != ""
    ensures '\n' !in line && Fits(line) && Complete(rest) && |rest| < |a|
    ensures a == line + ("\n" + rest)
  {
    hide Fits, IndexOf;
    var k := IndexOf(a, '\n');
    line, rest := a[..k], a[k + 1..];
    SplitAt(a, k);
  }

  lemma ScanConcatStep(line: string, rest: string, b: string)
    requires '\n' !in line && Fits(line)
    requires ScanLines(rest + b) == ScanLines(rest) + ScanLines(b) && (Complete(b) ==> Complete(rest + b))
    ensures var a := line + ("\n" + rest);
            ScanLines(a + b) == ScanLines(a) + ScanLines(b) && (Complete(b) ==> Complete(a + b))
  {
    hide ScanLines, Complete, Fits, DropCR;
    ScanStep(line, rest);
    ScanStep(line, rest + b);
    Assoc(line, "\n" + rest, b);
    Assoc("\n", rest, b);
    AssocLines([DropCR(line)], ScanLines(rest), ScanLines(b));
  }

  lemma AssocLines(a: seq<string>, b: seq<string>, c: seq<string>)
    ensures (a + b) + c == a + (b + c)
  {
  }

  lemma ScanOneLine(line: string)
    requires '\n' !in line && Fits(line)
    ensures Complete(line + "\n")
    ensures ScanLines(line + "\n") == [DropCR(line)]
  {
    hide Fits, DropCR;
    ScanStep(line, "");
    assert "\n" + "" == "\n";
  }

  // ---------- recovery ----------

  type Histories = map<string, seq<Message>>

  function HistoryOf(rooms: Histories, room: string): seq<Message> {
    if room in rooms then rooms[room] else []
  }

  /** Untagged events belong to the default room. */
  function RecoveryRoom(room: string): string {
    if room == "" then DEFAULT_ROOM else room
  }

  function Filed(m: Message): Message {
    m.(room := RecoveryRoom(m.room))
  }

  /** The message one scanned line adds, if any. */
  function LineMessage(line: string): Option<Message> {
    if line == "" then None
    else
      match ParseLogLine(line)
      case Err(_) => None
      case Ok(m) => if m.kind == ServerEvent then None else Some(Filed(m))
  }

  function RecoverLine(rooms: Histories, line: string): Histories {
    match LineMessage(line)
    case None => rooms
    case Some(m) => rooms[m.room := HistoryOf(rooms, m.room) + [m]]
  }

  function RecoverLines(rooms: Histories, lines: seq<string>): Histories {
    if lines == [] then rooms else RecoverLine(RecoverLines(rooms, lines[..|lines| - 1]), lines[|lines| - 1])
  }

  /** What RecoverHistory leaves in memory when the server starts on the given date. */
  function Recover(rooms: Histories, files: map<string, string>, date: string): Histories {
    RecoverLines(rooms, ScanLines(Contents(files, FilePath(date))))
  }

  lemma {:induction false} RecoverConcat(rooms: Histories, a: seq<string>, b: seq<string>)
    ensures RecoverLines(rooms, a + b) == RecoverLines(RecoverLines(rooms, a), b)
  {
    hide RecoverLine;
    var s := a + b;
    if b == [] {
      assert s == a;
    } else {
      assert s[..|s| - 1] == a + b[..|b| - 1] && s[|s| - 1] == b[|b| - 1];
      RecoverConcat(rooms, a, b[..|b| - 1]);
    }
  }

  /** Lines the parser rejects can be inserted anywhere without changing any room. */
  lemma RejectedLinesAreInvisible(rooms: Histories, a: seq<string>, bad: seq<string>, b: seq<string>)
    requires forall line <- bad :: ParseLogLine(line).Err?
    ensures RecoverLines(rooms, a + bad + b) == RecoverLines(rooms, a + b)
  {
    RecoverConcat(rooms, a, b);
    RecoverConcat(rooms, a + bad, b);
    RecoverConcat(rooms, a, bad);
    RejectedOnly(RecoverLines(rooms, a), bad);
  }

  lemma {:induction false} RejectedOnly(rooms: Histories, bad: seq<string>)
    requires forall line <- bad :: ParseLogLine(line).Err?
    ensures RecoverLines(rooms, bad) == rooms
  {
    hide ParseLogLine;
    if bad != [] {
      RejectedOnly(rooms, bad[..|bad| - 1]);
      assert bad[|bad| - 1] in bad;
    }
  }

  // ---------- end to end ----------

  /** Messages whose line is one line. */
  predicate Single(m: Message) { '\n' !in FormatLogLine(m) }

  /** Messages whose line is one scannable line. */
  predicate OneLine(m: Message) { Single(m) && Fits(FormatLogLine(m)) }

  /** A message of the date whose line is too long: the scanner of that date's file gives up there. */
  predicate Blocks(m: Message, date: string) { FormatDate(m.timestamp) == date && !Fits(FormatLogLine(m)) }

  /** The messages logged before the first one that blocks the date's file. */
  function Readable(ms: seq<Message>, date: string): (r: seq<Message>)
    ensures r <= ms
  {
    if ms == [] then []
    else
      var init := ms[..|ms| - 1];
      var r := Readable(init, date);
      if r == init && !Blocks(ms[|ms| - 1], date) then ms else r
  }

  /** What one logged message contributes to a room's history on the given date. */
  function DayEntry(m: Message, date: string, room: string): seq<Message> {
    if FormatDate(m.timestamp) == date && m.kind != ServerEvent && RecoveryRoom(m.room) == room
    then [Filed(Recovered(m))] else []
  }

  /** The messages of one date and room, as the log gives them back, in logging order. */
  function DayHistory(ms: seq<Message>, date: string, room: string): seq<Message> {
    if ms == [] then [] else DayHistory(ms[..|ms| - 1], date, room) + DayEntry(ms[|ms| - 1], date, room)
  }

  lemma SamePath(a: string, b: string)
    requires FilePath(a) == FilePath(b)
    ensures a == b
  {
    Cut("chat_", a, ".log");
    Cut("chat_", b, ".log");
    assert |FilePath(a)| == |FilePath(b)|;
  }

  /** The scanner strips a carriage return, which the parser would have trimmed anyway. */
  lemma ParseWithoutCR(line: string)
    requires line != "" && line[0] == '['
    ensures DropCR(line) != "" && ParseLogLine(DropCR(line)) == ParseLogLine(line)
  {
    hide ParseTrimmed;
    if line[|line| - 1] == '\r' {
      assert TrimRight(line) == TrimRight(DropCR(line));
    }
    TrimSpaceIsTrimRight(line);
    TrimSpaceIsTrimRight(DropCR(line));
  }

  lemma RecoveredKind(m: Message)
    ensures Recovered(m).kind == m.kind && (m.kind != ServerEvent ==> Recovered(m).room == m.room)
  {
    hide Resplit, LeaveReason, TrimRight;
  }

  lemma LoggedLineMessage(m: Message)
    requires Loggable(m)
    ensures LineMessage(DropCR(FormatLogLine(m))) == if m.kind == ServerEvent then None else Some(Filed(Recovered(m)))
    ensures m.kind != ServerEvent ==> Filed(Recovered(m)).room == RecoveryRoom(m.room)
  {
    hide FormatLogLine, ParseLogLine, Loggable, Recovered, DropCR;
    LineShape(m);
    ParseWithoutCR(FormatLogLine(m));
    ParseUndoesFormat(m);
    RecoveredKind(m);
  }

  /** One more logged message adds exactly one line to its day's file and none to the others. */
  lemma LoggedOneMore(files: map<string, string>, m: Message, date: string)
    requires Loggable(m) && Single(m) && !Blocks(m, date)
    requires Complete(Contents(files, FilePath(date)))
    ensures var before, after := Contents(files, FilePath(date)), Contents(Logged(files, m), FilePath(date));
            Complete(after) && ScanLines(after) == ScanLines(before)
              + (if FormatDate(m.timestamp) == date then [DropCR(FormatLogLine(m))] else [])
  {
    hide FormatLogLine, Loggable, FormatDate, ScanLines, Complete;
    if FormatDate(m.timestamp) == date {
      ScanOneLine(FormatLogLine(m));
      ScanConcat(Contents(files, FilePath(date)), LogLine(m));
    } else if FilePath(FormatDate(m.timestamp)) == FilePath(date) {
      SamePath(FormatDate(m.timestamp), date);
    }
  }

  /** Whatever is appended, the scanner delivers no more lines. */
  ghost predicate Stuck(text: string) { forall more :: ScanLines(text + more) == ScanLines(text) }

  lemma ScanBlocked(a: string, line: string)
    requires Complete(a) && '\n' !in line && !Fits(line)
    ensures Stuck(a + (line + "\n")) && ScanLines(a + (line + "\n")) == ScanLines(a)
  {
    hide Fits, DropCR, Complete;
    forall more ensures ScanLines(a + (line + "\n") + more) == ScanLines(a) {
      var tail := line + "\n" + more;
      assert a + (line + "\n") + more == a + tail;
      ScanConcat(a, tail);
      IndexOfConcat(line, '\n', more);
      Cut(line, "\n", more);
      assert ScanLines(a) + [] == ScanLines(a);
    }
    assert a + (line + "\n") + "" == a + (line + "\n");
  }

  lemma StuckStays(text: string, more: string)
    requires Stuck(text)
    ensures Stuck(text + more) && ScanLines(text + more) == ScanLines(text)
  {
    hide ScanLines;
    forall x ensures ScanLines(text + more + x) == ScanLines(text) { Assoc(text, more, x); }
  }

  /** A message that blocks the file, and every message after one, adds nothing. */
  lemma BlockedOneMore(files: map<string, string>, m: Message, date: string)
    requires Single(m)
    requires var before := Contents(files, FilePath(date)); Stuck(before) || (Complete(before) && Blocks(m, date))
    ensures var before, after := Contents(files, FilePath(date)), Contents(Logged(files, m), FilePath(date));
            Stuck(after) && ScanLines(after) == ScanLines(before)
  {
    hide FormatLogLine, FormatDate, ScanLines, Complete, Stuck, Fits;
    var before := Contents(files, FilePath(date));
    if Stuck(before) {
      StuckStays(before, LogLine(m));
    } else {
      ScanBlocked(before, FormatLogLine(m));
    }
  }

  lemma RecoverOneMore(rooms: Histories, lines: seq<string>, line: string, room: string)
    ensures HistoryOf(RecoverLines(rooms, lines + [line]), room)
         == HistoryOf(RecoverLines(rooms, lines), room)
            + (match LineMessage(line) case None => [] case Some(m) => if m.room == room then [m] else [])
  {
    hide LineMessage;
    var all := lines + [line];
    assert all[..|all| - 1] == lines;
  }

  lemma RecoverOneMessage(rooms: Histories, files: map<string, string>, m: Message, date: string, room: string)
    requires Loggable(m) && Single(m) && !Blocks(m, date)
    requires Complete(Contents(files, FilePath(date)))
    ensures Complete(Contents(Logged(files, m), FilePath(date)))
    ensures HistoryOf(Recover(rooms, Logged(files, m), date), room)
         == HistoryOf(Recover(rooms, files, date), room) + DayEntry(m, date, room)
  {
    hide FormatLogLine, Loggable, FormatDate, ScanLines, Complete, Single, Blocks, Logged, LineMessage, Filed, Recovered, FilePath,
         RecoverLines, HistoryOf, DropCR, Contents;
    LoggedOneMore(files, m, date);
    LoggedLineMessage(m);
    var lines := ScanLines(Contents(files, FilePath(date)));
    RecoverOneMore(rooms, lines, DropCR(FormatLogLine(m)), room);
    assert lines + [] == lines;
  }

  /** Recovery rebuilds, room by room and in order, what was logged that day on top of what the file already held, up to
      the first line that is too long. */
  lemma {:induction false} RecoveryReads(rooms: Histories, files: map<string, string>, ms: seq<Message>, date: string, room: string)
    requires forall m <- ms :: Loggable(m) && Single(m)
    requires Complete(Contents(files, FilePath(date)))
    ensures var text := Contents(LoggedAll(files, ms), FilePath(date));
            if Readable(ms, date) == ms then Complete(text) else Stuck(text)
    ensures HistoryOf(Recover(rooms, LoggedAll(files, ms), date), room)
         == HistoryOf(Recover(rooms, files, date), room) + DayHistory(Readable(ms, date), date, room)
  {
    hide Loggable, Complete, Single, Blocks, Logged, FilePath, RecoverLines, HistoryOf, Contents, DayEntry, Stuck, ScanLines;
    if ms == [] {
      var h := HistoryOf(Recover(rooms, files, date), room);
      assert h + [] == h;
    } else {
      var init, m := ms[..|ms| - 1], ms[|ms| - 1];
      assert m in ms;
      RecoveryReads(rooms, files, init, date, room);
      if Readable(init, date) == init && !Blocks(m, date) {
        RecoverOneMessage(rooms, LoggedAll(files, init), m, date, room);
        var h := HistoryOf(Recover(rooms, files, date), room);
        assert h + DayHistory(init, date, room) + DayEntry(m, date, room) == h + (DayHistory(init, date, room) + DayEntry(m, date, room));
      } else {
        BlockedOneMore(LoggedAll(files, init), m, date);
      }
    }
  }

  lemma {:induction false} DayConcat(a: seq<Message>, b: seq<Message>, date: string, room: string)
    ensures DayHistory(a + b, date, room) == DayHistory(a, date, room) + DayHistory(b, date, room)
  {
    hide DayEntry;
    var s := a + b;
    if b == [] {
      assert s == a;
    } else {
      assert s[..|s| - 1] == a + b[..|b| - 1] && s[|s| - 1] == b[|b| - 1];
      DayConcat(a, b[..|b| - 1], date, room);
    }
  }

  /** The messages recovery cannot reach. */
  function Lost(ms: seq<Message>, date: string): seq<Message> { ms[|Readable(ms, date)|..] }

  /** Recovery adds to a room all that was logged for it on the date, in logging order, if and only if nothing of the
      date was logged for the room from the first line on that is too long. */
  lemma RecoveryIsComplete(rooms: Histories, files: map<string, string>, ms: seq<Message>, date: string, room: string)
    requires forall m <- ms :: Loggable(m) && Single(m)
    requires Complete(Contents(files, FilePath(date)))
    ensures var before, after := HistoryOf(Recover(rooms, files, date), room), HistoryOf(Recover(rooms, LoggedAll(files, ms), date), room);
            && after == before + DayHistory(Readable(ms, date), date, room)
            && (after == before + DayHistory(ms, date, room) <==> DayHistory(Lost(ms, date), date, room) == [])
  {
    hide Loggable, Complete, Single, LoggedAll, FilePath, Recover, HistoryOf, Contents, DayHistory, Readable;
    RecoveryReads(rooms, files, ms, date, room);
    assert ms == Readable(ms, date) + Lost(ms, date);
    DayConcat(Readable(ms, date), Lost(ms, date), date, room);
  }

  /** Nothing is lost if and only if every line of the date fits. */
  lemma {:induction false} ReadableIsAll(ms: seq<Message>, date: string)
    ensures Readable(ms, date) == ms <==> forall m <- ms :: !Blocks(m, date)
  {
    hide Blocks;
    if ms != [] {
      var init, m := ms[..|ms| - 1], ms[|ms| - 1];
      ReadableIsAll(init, date);
      assert |Readable(init, date)| <= |init|;
      assert forall x :: x in ms <==> x in init || x == m by { assert ms == init + [m]; }
    }
  }

  /** Every room gets all of the date back if and only if the date's messages from the first too long line on are server
      events. */
  lemma DayIsWhole(ms: seq<Message>, date: string)
    ensures (forall room :: DayHistory(Lost(ms, date), date, room) == [])
       <==> forall m <- Lost(ms, date) :: FormatDate(m.timestamp) == date ==> m.kind == ServerEvent
  {
    hide FormatDate, Lost, DayHistory;
    var lost := Lost(ms, date);
    if exists m :: m in lost && FormatDate(m.timestamp) == date && m.kind != ServerEvent {
      var m :| m in lost && FormatDate(m.timestamp) == date && m.kind != ServerEvent;
      DayHolds(lost, m, date);
    } else {
      forall room ensures DayHistory(lost, date, room) == [] { DayEmpty(lost, date, room); }
    }
  }

  lemma {:induction false} DayHolds(ms: seq<Message>, m: Message, date: string)
    requires m in ms && FormatDate(m.timestamp) == date && m.kind != ServerEvent
    ensures DayHistory(ms, date, RecoveryRoom(m.room)) != []
  {
    hide FormatDate, Recovered;
    if ms[|ms| - 1] != m { DayHolds(ms[..|ms| - 1], m, date); }
  }

  lemma {:induction false} DayEmpty(ms: seq<Message>, date: string, room: string)
    requires forall m <- ms :: FormatDate(m.timestamp) == date ==> m.kind == ServerEvent
    ensures DayHistory(ms, date, room) == []
  {
    hide FormatDate, Recovered;
    if ms != [] {
      assert ms[|ms| - 1] in ms;
      DayEmpty(ms[..|ms| - 1], date, room);
    }
  }

  /** From an empty log directory, a restart on any date gives every room exactly that day's messages up to the first
      line that is too long, and all of them if and only if none for the room comes from there on. */
  lemma RestartRebuildsTheDay(ms: seq<Message>, date: string, room: string)
    requires forall m <- ms :: Loggable(m) && Single(m)
    ensures var after := HistoryOf(Recover(map[], LoggedAll(map[], ms), date), room);
            && after == DayHistory(Readable(ms, date), date, room)
            && (after == DayHistory(ms, date, room) <==> DayHistory(Lost(ms, date), date, room) == [])
  {
    hide Loggable, Single, DayHistory, Readable, Lost, LoggedAll;
    RecoveryIsComplete(map[], map[], ms, date, room);
    assert HistoryOf(Recover(map[], map[], date), room) == [] by { assert ScanLines("") == []; }
    assert forall d: seq<Message> :: [] + d == d;
  }
}
