/** The write side of a connection: the bounded channel, the write loop and its copy of the input line, and the handler
    that reads one byte at a time (client/client.go). */
module Terminal {
  import opened LineReader
  import Messages

  const CHANNEL_SIZE := 4096
  const MAX_INTERACTIVE := 4096
  const CLEAR_LINE: seq<byte> := [0x0D, 0x1B, 0x5B, 0x4B]

  /** What the write loop believes to be on the user's line. */
  datatype Screen = Screen(prompt: seq<byte>, input: seq<byte>)

  datatype Wire = Wire(channel: seq<WriteMsg>, screen: Screen, echo: bool, closed: bool, output: seq<seq<byte>>)

  predicate Accepts(w: Wire) { !w.closed && |w.channel| < CHANNEL_SIZE }

  /** A message is dropped when the connection is closed or the channel is full. */
  function Put(w: Wire, m: WriteMsg): Wire { if Accepts(w) then w.(channel := w.channel + [m]) else w }

  function PutAll(w: Wire, ms: seq<WriteMsg>): Wire {
    if ms == [] then w else Put(PutAll(w, ms[..|ms| - 1]), ms[|ms| - 1])
  }

  lemma {:induction false} PutConcat(w: Wire, a: seq<WriteMsg>, b: seq<WriteMsg>)
    ensures PutAll(w, a + b) == PutAll(PutAll(w, a), b)
  {
    if b == [] {
      assert a + b == a;
    } else {
      assert (a + b)[..|a + b| - 1] == a + b[..|b| - 1];
      PutConcat(w, a, b[..|b| - 1]);
    }
  }

  function Draw(sc: Screen, m: WriteMsg): Screen {
    match m
    case Text(_) => sc
    case Prompt(data) => Screen(data, [])
    case Echo(b) => if |sc.input| < MAX_INTERACTIVE then sc.(input := sc.input + [b]) else sc
    case Backspace => if sc.input == [] then sc else sc.(input := sc.input[..|sc.input| - 1])
    case Newline => Screen([], [])
  }

  function Data(m: WriteMsg): seq<byte> {
    match m case Text(data) => data case Prompt(data) => data case Echo(b) => [b] case Backspace => [] case Newline => []
  }

  /** A message between the cleared line and the redrawn one. */
  function Rendered(msg: seq<byte>, sc: Screen): seq<byte> {
    (if sc == Screen([], []) then [] else CLEAR_LINE) + msg + sc.prompt + sc.input
  }

  /** What the write loop writes for a message. */
  function Written(w: Wire, m: WriteMsg): seq<seq<byte>> {
    if !w.echo || m.Prompt? then [Data(m)] else if m.Text? then [Rendered(m.data, w.screen)] else []
  }

  /** One message through the write loop. */
  function Drain(w: Wire): Wire
    requires w.channel != []
  {
    var m := w.channel[0];
    w.(channel := w.channel[1..], screen := if w.echo then Draw(w.screen, m) else w.screen, output := w.output + Written(w, m))
  }

  // ---------- the connection ----------

  class Client {
    var msgChan: seq<WriteMsg>
    var done: bool
    var echoMode: bool
    var inputBuf: seq<byte>
    var prompt: seq<byte>
    var skipLF: bool
    var inbound: seq<byte>           // bytes still to arrive before the read error
    var outbound: seq<seq<byte>>     // writes made so far

    ghost function View(): Wire
      reads this
    {
      Wire(msgChan, Screen(prompt, inputBuf), echoMode, done, outbound)
    }

    constructor (bytes: seq<byte>)
      ensures View() == Wire([], Screen([], []), false, false, []) && !skipLF && inbound == bytes
    {
      msgChan, done, echoMode, inputBuf, prompt, skipLF, inbound, outbound := [], false, false, [], [], false, bytes, [];
    }

    method Enqueue(m: WriteMsg)
      modifies this`msgChan
      ensures View() == Put(old(View()), m)
    {
      if done { return; }
      if |msgChan| < CHANNEL_SIZE { msgChan := msgChan + [m]; }
    }

    method Send(msg: seq<byte>)
      modifies this`msgChan
      ensures View() == Put(old(View()), Text(msg))
    {
      Enqueue(Text(msg));
    }

    method SendPrompt(text: seq<byte>)
      modifies this`msgChan
      ensures View() == Put(old(View()), Prompt(text))
    {
      Enqueue(Prompt(text));
    }

    method SetEchoMode(enabled: bool)
      modifies this`echoMode
      ensures View() == old(View()).(echo := enabled)
    {
      echoMode := enabled;
    }

    method Close()
      modifies this`done
      ensures View() == old(View()).(closed := true)
    {
      done := true;
    }

    method Write(data: seq<byte>)
      modifies this`outbound
      ensures outbound == old(outbound) + [data]
    {
      outbound := outbound + [data];
    }

    method WriteWithContinuity(msg: seq<byte>)
      modifies this`outbound
      ensures outbound == old(outbound) + [Rendered(msg, Screen(prompt, inputBuf))]
    {
      var hasPrompt := |prompt| > 0;
      var hasInput := |inputBuf| > 0;
      var buf: seq<byte> := [];
      if hasPrompt || hasInput { buf := buf + [CR]; buf := buf + CLEAR_LINE[1..]; }
      ghost var clear: seq<byte> := if prompt == [] && inputBuf == [] then [] else CLEAR_LINE;
      assert buf == clear;
      buf := buf + msg;
      if hasPrompt { buf := buf + prompt; }
      assert buf == clear + msg + prompt;
      if hasInput { buf := buf + inputBuf; }
      assert buf == clear + msg + prompt + inputBuf;
      Write(buf);
    }

    /** The write loop's turn for one message. */
    method WriteLoopTurn()
      requires msgChan != []
      modifies this`msgChan, this`inputBuf, this`prompt, this`outbound
      ensures View() == Drain(old(View()))
    {
      var msg := msgChan[0];
      msgChan := msgChan[1..];
      if !echoMode {
        Write(Data(msg));
        return;
      }
      match msg
      case Text(data) => WriteWithContinuity(data);
      case Prompt(data) =>
        prompt := data;
        inputBuf := [];
        Write(data);
      case Echo(b) => if |inputBuf| < MAX_INTERACTIVE { inputBuf := inputBuf + [b]; }
      case Backspace => if |inputBuf| > 0 { inputBuf := inputBuf[..|inputBuf| - 1]; }
      case Newline =>
        inputBuf := [];
        prompt := [];
    }

    /** The next line, or None when the connection fails first. Exactly the bytes of that line are consumed, and their
        edits are sent to the write loop in order. */
    method ReadLineInteractive() returns (line: Messages.Option<seq<byte>>)
      modifies this`msgChan, this`skipLF, this`inbound
      ensures |inbound| <= |old(inbound)|
      ensures ReadOne(old(View()), View(), old(inbound), inbound, old(skipLF), skipLF, line)
    {
      hide FeedAll, MailAll, PutAll, Put, ReadOne;
      var text: seq<byte> := [];
      ghost var start, before := Reader(skipLF, [], []), View();
      ghost var all, used: seq<byte> := inbound, [];
      StartReading(start, before);
      while inbound != []
        invariant all == used + inbound
        invariant FeedAll(start, used) == Reader(skipLF, text, [])
        invariant View() == PutAll(before, MailAll(start, used))
        decreases |inbound|
      {
        var b := inbound[0];
        ReadByte(start, used, b, Reader(skipLF, text, []), before);
        TakeFront(used, inbound);
        inbound, used := inbound[1..], used + [b];
        if skipLF && b == LF {
          skipLF := false;
          continue;
        }
        skipLF := false;
        if b == CR || b == LF {
          skipLF := b == CR;
          Enqueue(Newline);
          ReadEnds(before, View(), used, inbound, start, skipLF, Messages.Some(text));
          return Messages.Some(text);
        } else if b == DEL || b == BS {
          if |text| > 0 {
            text := text[..|text| - 1];
            Enqueue(Backspace);
          }
        } else if Printing(b) {
          text := text + [b];
          Enqueue(Echo(b));
        }
      }
      ReadEnds(before, View(), used, inbound, start, skipLF, Messages.None);
      return Messages.None;
    }

    /** All the lines of the session, one call after the other until the connection fails: one fold over the bytes. */
    method ReadSession() returns (lines: seq<seq<byte>>)
      modifies this`msgChan, this`skipLF, this`inbound
      ensures inbound == []
      ensures var end := FeedAll(Reader(old(skipLF), [], []), old(inbound)); lines == end.lines && skipLF == end.skipLF
      ensures View() == PutAll(old(View()), MailAll(Reader(old(skipLF), [], []), old(inbound)))
    {
      hide FeedAll, MailAll, PutAll, Put, ReadOne;
      lines := [];
      ghost var start, before := Reader(skipLF, [], []), View();
      ghost var all, used: seq<byte> := inbound, [];
      StartReading(start, before);
      while true
        invariant all == used + inbound
        invariant FeedAll(start, used) == Reader(skipLF, [], lines)
        invariant View() == PutAll(before, MailAll(start, used))
        decreases |inbound|
      {
        ghost var wire, rest, skip := View(), inbound, skipLF;
        var line := ReadLineInteractive();
        ghost var more := ReadMore(start, used, rest, inbound, skip, skipLF, lines, before, View(), line);
        used := used + more;
        if line.None? {
          assert used == all;
          return;
        }
        lines := lines + [line.value];
      }
    }
  }

  /** One call of ReadLineInteractive. */
  ghost predicate ReadOne(before: Wire, after: Wire, all: seq<byte>, left: seq<byte>, skipBefore: bool, skipAfter: bool,
                          line: Messages.Option<seq<byte>>)
  {
    exists used :: all == used + left && Reads(before, after, used, Reader(skipBefore, [], []), skipAfter, line)
      && (line.None? ==> left == []) && (line.Some? ==> used != [])
  }

  /** The bytes used form the returned line, or none, and their edits have been sent. */
  ghost predicate Reads(before: Wire, after: Wire, used: seq<byte>, start: Reader, skipAfter: bool, line: Messages.Option<seq<byte>>) {
    var end := FeedAll(start, used);
    && end.skipLF == skipAfter
    && after == PutAll(before, MailAll(start, used))
    && end.lines == (match line case Some(text) => [text] case None => [])
    && (line.Some? ==> end.line == [])
  }

  lemma ReadEnds(before: Wire, after: Wire, used: seq<byte>, left: seq<byte>, start: Reader, skipAfter: bool, line: Messages.Option<seq<byte>>)
    requires start.line == [] && start.lines == [] && Reads(before, after, used, start, skipAfter, line)
    requires (line.None? ==> left == []) && (line.Some? ==> used != [])
    ensures ReadOne(before, after, used + left, left, start.skipLF, skipAfter, line)
  {
  }

  lemma StartReading(start: Reader, before: Wire)
    ensures FeedAll(start, []) == start && PutAll(before, MailAll(start, [])) == before
  {
  }

  lemma TakeFront(a: seq<byte>, b: seq<byte>)
    requires b != []
    ensures a + b == (a + [b[0]]) + b[1..]
  {
  }

  /** Reading one more byte, from the point of view of the whole stretch read so far. */
  lemma ReadByte(start: Reader, used: seq<byte>, b: byte, r: Reader, w: Wire)
    requires FeedAll(start, used) == r
    ensures FeedAll(start, used + [b]) == Feed(r, b)
    ensures var now, mail := PutAll(w, MailAll(start, used)), Mail(r, b);
            PutAll(w, MailAll(start, used + [b])) == if mail == [] then now else Put(now, mail[0])
  {
    FeedConcat(start, used, [b]);
    FeedOne(r, b);
    PutConcat(w, MailAll(start, used), Mail(r, b));
    PutNoneOrOne(PutAll(w, MailAll(start, used)));
    if Mail(r, b) != [] { assert Mail(r, b) == [Mail(r, b)[0]]; }
  }

  lemma ReadMore(start: Reader, used: seq<byte>, rest: seq<byte>, left: seq<byte>, skip: bool, skipAfter: bool,
                 lines: seq<seq<byte>>, before: Wire, after: Wire, line: Messages.Option<seq<byte>>)
    returns (more: seq<byte>)
    requires FeedAll(start, used) == Reader(skip, [], lines)
    requires ReadOne(PutAll(before, MailAll(start, used)), after, rest, left, skip, skipAfter, line)
    ensures used + rest == (used + more) + left && (line.None? ==> left == []) && (line.Some? ==> |left| < |rest|)
    ensures var end := FeedAll(start, used + more);
            && end.skipLF == skipAfter && after == PutAll(before, MailAll(start, used + more))
            && end.lines == (match line case Some(text) => lines + [text] case None => lines)
            && (line.Some? ==> end.line == [])
  {
    hide FeedAll, MailAll, PutAll, Put;
    var here, middle := Reader(skip, [], []), PutAll(before, MailAll(start, used));
    more :| rest == more + left && Reads(middle, after, more, here, skipAfter, line)
            && (line.None? ==> left == []) && (line.Some? ==> more != []);
    Assoc3(used, more, left);
    JoinRead(start, used, more, here, lines, before);
  }

  lemma Assoc3(a: seq<byte>, b: seq<byte>, c: seq<byte>)
    ensures a + (b + c) == (a + b) + c
  {
  }

  lemma JoinRead(start: Reader, used: seq<byte>, more: seq<byte>, here: Reader, lines: seq<seq<byte>>, before: Wire)
    requires here.lines == [] && FeedAll(start, used) == here.(lines := lines)
    ensures var r := FeedAll(here, more); FeedAll(start, used + more) == r.(lines := lines + r.lines)
    ensures PutAll(before, MailAll(start, used + more)) == PutAll(PutAll(before, MailAll(start, used)), MailAll(here, more))
  {
    FeedConcat(start, used, more);
    LinesApart(here, lines, more);
    PutConcat(before, MailAll(start, used), MailAll(here, more));
  }

  lemma PutNoneOrOne(w: Wire)
    ensures PutAll(w, []) == w && forall m :: PutAll(w, [m]) == Put(w, m)
  {
    forall m ensures PutAll(w, [m]) == Put(w, m) {
      assert [m][..0] == [];
    }
  }
}
