/** The write loop's copy of the input line against the line itself, while keys, broadcasts, prompts and the write loop
    interleave freely (client/client.go). */
module Mirror {
  import opened LineReader
  import opened Terminal

  /** What the user's line was when a message was enqueued, and whether the copy was exact for it. */
  datatype Note = Note(prompt: seq<byte>, line: seq<byte>, exact: bool)

  datatype Redraw = Redraw(note: Note, msg: seq<byte>, output: seq<byte>)

  /** A session in echo mode. The line belongs to the handler, the wire to the write loop and all senders. */
  datatype Session = Session(
    skipLF: bool,
    line: seq<byte>,
    prompt: seq<byte>,         // the prompt the line was typed under
    wire: Wire,
    // observations
    clean: bool,               // no edit has been dropped since the last line end or prompt that was not
    over: bool,                // the line has passed the copy's limit since it was last empty
    notes: seq<Note>,          // one for each message in the channel
    redraws: seq<Redraw>
  )

  datatype Event = Key(b: byte) | Notice(msg: seq<byte>) | Ask(prompt: seq<byte>) | Turn | Shut

  /** The handler asks for input between two lines; the write loop's turn needs a message. */
  predicate Can(e: Session, v: Event) {
    match v case Ask(_) => e.line == [] case Turn => e.wire.channel != [] case _ => true
  }

  function Exact(e: Session): bool { e.clean && !e.over }

  /** Sends one message; the note describes the line as it is after this event. */
  function Sent(e: Session, m: WriteMsg): Session {
    if Accepts(e.wire) then e.(wire := Put(e.wire, m), notes := e.notes + [Note(e.prompt, e.line, Exact(e))]) else e
  }

  /** Whether the copy can be trusted after an edit was offered to the channel. */
  function CleanAfter(e: Session, m: WriteMsg): bool {
    Accepts(e.wire) && (e.clean || m.Newline? || m.Prompt?)
  }

  function OnKey(e: Session, b: byte): Session {
    var r := Reader(e.skipLF, e.line, []);
    var after := Feed(r, b);
    var typed := e.(skipLF := after.skipLF, line := after.line,
                    over := after.line != [] && (e.over || |after.line| > MAX_INTERACTIVE));
    if Mail(r, b) == [] then typed
    else
      var m := Mail(r, b)[0];
      Sent(typed.(prompt := if m.Newline? then [] else e.prompt, clean := CleanAfter(e, m)), m)
  }

  function OnTurn(e: Session): Session {
    if e.wire.channel == [] || e.notes == [] then e else
    var m := e.wire.channel[0];
    e.(wire := Drain(e.wire), notes := e.notes[1..],
       redraws := if m.Text? then e.redraws + [Redraw(e.notes[0], m.data, Written(e.wire, m)[0])] else e.redraws)
  }

  function On(e: Session, v: Event): Session {
    match v
    case Key(b) => OnKey(e, b)
    case Notice(msg) => Sent(e, Text(msg))
    case Ask(prompt) => Sent(e.(prompt := prompt, clean := CleanAfter(e, Prompt(prompt))), Prompt(prompt))
    case Turn => OnTurn(e)
    case Shut => e.(wire := e.wire.(closed := true))
  }

  /** Echo mode has just been switched on; broadcasts may be waiting. */
  predicate Opening(e: Session) {
    && e.line == [] && e.prompt == [] && !e.over && e.clean && e.redraws == []
    && e.wire.echo && e.wire.screen == Screen([], []) && (forall m <- e.wire.channel :: m.Text?)
    && |e.notes| == |e.wire.channel| && forall n <- e.notes :: n == Note([], [], true)
  }

  // ---------- the copy, once the pending messages have been played ----------

  function Play(sc: Screen, ms: seq<WriteMsg>): Screen {
    if ms == [] then sc else Draw(Play(sc, ms[..|ms| - 1]), ms[|ms| - 1])
  }

  lemma PlayOne(sc: Screen, ms: seq<WriteMsg>, m: WriteMsg)
    ensures Play(sc, ms + [m]) == Draw(Play(sc, ms), m)
  {
    assert (ms + [m])[..|ms|] == ms;
  }

  lemma {:induction false} PlayFront(sc: Screen, ms: seq<WriteMsg>)
    requires ms != []
    ensures Play(sc, ms) == Play(Draw(sc, ms[0]), ms[1..])
  {
    if |ms| == 1 {
      assert ms[..0] == [] && ms[1..] == [];
    } else {
      PlayFront(sc, ms[..|ms| - 1]);
      assert ms[1..][..|ms[1..]| - 1] == ms[..|ms| - 1][1..];
    }
  }

  /** The copy agrees with the line; past the limit it is strictly shorter. */
  predicate Agrees(e: Session, sc: Screen) {
    sc.prompt == e.prompt && if e.over then |sc.input| < |e.line| else sc.input == e.line
  }

  predicate NoteHolds(e: Session, i: nat)
    requires i < |e.notes| && |e.notes| == |e.wire.channel|
  {
    e.notes[i].exact ==> Play(e.wire.screen, e.wire.channel[..i + 1]) == Screen(e.notes[i].prompt, e.notes[i].line)
  }

  predicate Faithful(r: Redraw) { r.note.exact ==> r.output == Rendered(r.msg, Screen(r.note.prompt, r.note.line)) }

  ghost predicate Good(e: Session) {
    && e.wire.echo && |e.notes| == |e.wire.channel|
    && (e.over ==> e.line != []) && (|e.line| > MAX_INTERACTIVE ==> e.over)
    && (e.clean ==> Agrees(e, Play(e.wire.screen, e.wire.channel)))
    && (forall i: nat :: i < |e.notes| ==> NoteHolds(e, i))
    && (forall r <- e.redraws :: Faithful(r))
  }

  /** Appending a message, with the line as the message leaves it. */
  lemma SentGood(e: Session, m: WriteMsg)
    requires e.wire.echo && |e.notes| == |e.wire.channel|
    requires (e.over ==> e.line != []) && (|e.line| > MAX_INTERACTIVE ==> e.over)
    requires forall i: nat :: i < |e.notes| ==> NoteHolds(e, i)
    requires forall r <- e.redraws :: Faithful(r)
    requires e.clean ==> if Accepts(e.wire) then Agrees(e, Draw(Play(e.wire.screen, e.wire.channel), m))
                         else Agrees(e, Play(e.wire.screen, e.wire.channel))
    ensures Good(Sent(e, m))
  {
    hide Play;
    if Accepts(e.wire) {
      var d := Sent(e, m);
      PlayOne(e.wire.screen, e.wire.channel, m);
      forall i: nat | i < |d.notes| ensures NoteHolds(d, i) {
        if i < |e.notes| {
          assert NoteHolds(e, i);
          assert d.wire.channel[..i + 1] == e.wire.channel[..i + 1];
        } else {
          assert d.wire.channel[..i + 1] == e.wire.channel + [m];
        }
      }
    }
  }

  /** One edit on the line and on the copy. */
  lemma EditAgrees(e: Session, b: byte, sc: Screen)
    requires (e.over ==> e.line != []) && (|e.line| > MAX_INTERACTIVE ==> e.over)
    requires e.clean ==> Agrees(e, sc)
    ensures var r := Reader(e.skipLF, e.line, []);
            var after := Feed(r, b);
            var over := after.line != [] && (e.over || |after.line| > MAX_INTERACTIVE);
            if Mail(r, b) == [] then after.line == e.line && over == e.over
            else
              var m := Mail(r, b)[0];
              && (m.Newline? ==> after.line == [])
              && (e.clean || m.Newline? ==>
                   Agrees(e.(line := after.line, over := over, prompt := if m.Newline? then [] else e.prompt), Draw(sc, m)))
  {
  }

  lemma KeyGood(e: Session, b: byte)
    requires Good(e)
    ensures Good(OnKey(e, b))
  {
    hide Play, Faithful, NoteHolds;
    EditAgrees(e, b, Play(e.wire.screen, e.wire.channel));
    var r := Reader(e.skipLF, e.line, []);
    var after := Feed(r, b);
    var typed := e.(skipLF := after.skipLF, line := after.line,
                    over := after.line != [] && (e.over || |after.line| > MAX_INTERACTIVE));
    if Mail(r, b) == [] {
      SameNotes(e, typed);
    } else {
      var m := Mail(r, b)[0];
      var d := typed.(prompt := if m.Newline? then [] else e.prompt, clean := CleanAfter(e, m));
      SameNotes(e, d);
      SentGood(d, m);
    }
  }

  lemma SameNotes(e: Session, d: Session)
    requires |e.notes| == |e.wire.channel| && d.notes == e.notes && d.wire == e.wire
    requires forall i: nat :: i < |e.notes| ==> NoteHolds(e, i)
    ensures forall i: nat :: i < |d.notes| ==> NoteHolds(d, i)
  {
    forall i: nat | i < |d.notes| ensures NoteHolds(d, i) { assert NoteHolds(e, i); }
  }

  lemma TurnGood(e: Session)
    requires Good(e) && e.wire.channel != []
    ensures Good(OnTurn(e))
  {
    hide Play;
    var d, m := OnTurn(e), e.wire.channel[0];
    PlayFront(e.wire.screen, e.wire.channel);
    forall i: nat | i < |d.notes| ensures NoteHolds(d, i) {
      assert NoteHolds(e, i + 1);
      PlayFront(e.wire.screen, e.wire.channel[..i + 2]);
      assert e.wire.channel[..i + 2][1..] == d.wire.channel[..i + 1];
    }
    if m.Text? {
      assert NoteHolds(e, 0);
      assert e.wire.channel[..1] == [m];
      PlayOne(e.wire.screen, [], m);
      assert [] + [m] == [m];
      assert Play(e.wire.screen, []) == e.wire.screen by { PlayNothing(e.wire.screen); }
    }
  }

  lemma PlayNothing(sc: Screen)
    ensures Play(sc, []) == sc
  {
  }

  lemma OnGood(e: Session, v: Event)
    requires Good(e) && Can(e, v)
    ensures Good(On(e, v))
  {
    hide Play, Faithful, NoteHolds;
    match v
    case Key(b) => KeyGood(e, b);
    case Notice(msg) => SentGood(e, Text(msg));
    case Ask(prompt) =>
      var d := e.(prompt := prompt, clean := CleanAfter(e, Prompt(prompt)));
      SameNotes(e, d);
      SentGood(d, Prompt(prompt));
    case Turn => TurnGood(e);
    case Shut => ShutGood(e);
  }

  lemma ShutGood(e: Session)
    requires Good(e)
    ensures Good(e.(wire := e.wire.(closed := true)))
  {
    var d := e.(wire := e.wire.(closed := true));
    forall i: nat | i < |d.notes| ensures NoteHolds(d, i) { assert NoteHolds(e, i); }
  }

  lemma {:induction false} OpeningGood(e: Session)
    requires Opening(e)
    ensures Good(e)
  {
    TextsChangeNothing(e.wire.screen, e.wire.channel);
    forall i: nat | i < |e.notes| ensures NoteHolds(e, i) {
      assert e.notes[i] in e.notes;
      assert forall m <- e.wire.channel[..i + 1] :: m in e.wire.channel;
      TextsChangeNothing(e.wire.screen, e.wire.channel[..i + 1]);
    }
  }

  lemma {:induction false} TextsChangeNothing(sc: Screen, ms: seq<WriteMsg>)
    requires forall m <- ms :: m.Text?
    ensures Play(sc, ms) == sc
  {
    if ms != [] {
      assert ms[|ms| - 1] in ms && forall m <- ms[..|ms| - 1] :: m in ms;
      TextsChangeNothing(sc, ms[..|ms| - 1]);
    }
  }

  // ---------- whole sessions ----------

  predicate Possible(e: Session, events: seq<Event>)
    decreases |events|
  {
    events == [] || (Can(e, events[0]) && Possible(On(e, events[0]), events[1..]))
  }

  function After(e: Session, events: seq<Event>): Session
    decreases |events|
  {
    if events == [] then e else After(On(e, events[0]), events[1..])
  }

  lemma {:induction false} AfterGood(e: Session, events: seq<Event>)
    requires Good(e) && Possible(e, events)
    ensures Good(After(e, events))
    decreases |events|
  {
    hide Good, On;
    if events != [] {
      OnGood(e, events[0]);
      AfterGood(On(e, events[0]), events[1..]);
    }
  }

  /** While no edit is lost, playing the pending messages over the copy gives exactly the user's line, up to the moment
      the line passes the limit and again once it has been empty; in between the copy is strictly shorter. */
  lemma CopyIsTheLine(e: Session, events: seq<Event>)
    requires Opening(e) && Possible(e, events)
    ensures var d := After(e, events);
            d.clean ==> (Play(d.wire.screen, d.wire.channel) == Screen(d.prompt, d.line) <==> !d.over)
  {
    OpeningGood(e);
    AfterGood(e, events);
  }

  /** Every broadcast is redrawn with the prompt and the line as they were when it was enqueued. */
  lemma RedrawsShowTheLine(e: Session, events: seq<Event>, r: Redraw)
    requires Opening(e) && Possible(e, events) && r in After(e, events).redraws && r.note.exact
    ensures r.output == Rendered(r.msg, Screen(r.note.prompt, r.note.line))
  {
    OpeningGood(e);
    AfterGood(e, events);
    assert Faithful(r);
  }

  /** The events leave room in the channel and never type past the limit. */
  predicate Modest(e: Session, events: seq<Event>)
    decreases |events|
  {
    events == [] ||
    var d := On(e, events[0]);
    (events[0].Turn? || Accepts(e.wire)) && |d.line| <= MAX_INTERACTIVE && Modest(d, events[1..])
  }

  lemma {:induction false} ModestIsExact(e: Session, events: seq<Event>)
    requires Good(e) && Possible(e, events) && Modest(e, events) && Exact(e)
    ensures Exact(After(e, events))
    decreases |events|
  {
    hide Good, Possible;
    if events != [] {
      assert Can(e, events[0]) && Possible(On(e, events[0]), events[1..]) by { FirstPossible(e, events); }
      OnGood(e, events[0]);
      ModestIsExact(On(e, events[0]), events[1..]);
    }
  }

  lemma FirstPossible(e: Session, events: seq<Event>)
    requires events != [] && Possible(e, events)
    ensures Can(e, events[0]) && Possible(On(e, events[0]), events[1..])
  {
  }

  /** With room in the channel and lines within the limit, the copy is always the line. */
  lemma ModestSessionsAgree(e: Session, events: seq<Event>)
    requires Opening(e) && Possible(e, events) && Modest(e, events)
    ensures var d := After(e, events); Play(d.wire.screen, d.wire.channel) == Screen(d.prompt, d.line)
  {
    OpeningGood(e);
    ModestIsExact(e, events);
    CopyIsTheLine(e, events);
  }

  // ---------- the session's keys and the connection's reader are the same ----------

  function Keyed(e: Session, bytes: seq<byte>): Session {
    if bytes == [] then e else OnKey(Keyed(e, bytes[..|bytes| - 1]), bytes[|bytes| - 1])
  }

  /** Typing alone sends what ReadLineInteractive sends and leaves the line it leaves. */
  lemma {:induction false} KeyedIsRead(e: Session, bytes: seq<byte>)
    ensures var start, d := Reader(e.skipLF, e.line, []), Keyed(e, bytes);
            && d.skipLF == FeedAll(start, bytes).skipLF && d.line == FeedAll(start, bytes).line
            && d.wire == PutAll(e.wire, MailAll(start, bytes))
  {
    if bytes != [] {
      var init, b := bytes[..|bytes| - 1], bytes[|bytes| - 1];
      var start := Reader(e.skipLF, e.line, []);
      KeyedIsRead(e, init);
      var r, d := FeedAll(start, init), Keyed(e, init);
      FeedLine(r, b);
      PutConcat(e.wire, MailAll(start, init), Mail(r, b));
      PutNoneOrOne(d.wire);
      if Mail(r, b) != [] { assert Mail(r, b) == [Mail(r, b)[0]]; }
    }
  }

  /** Finished lines do not matter to the next byte. */
  lemma FeedLine(r: Reader, b: byte)
    ensures var q := r.(lines := []);
            Feed(q, b).skipLF == Feed(r, b).skipLF && Feed(q, b).line == Feed(r, b).line && Mail(q, b) == Mail(r, b)
  {
  }
}
