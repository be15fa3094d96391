/** What the user sees: the bytes of a redraw on a terminal (client/client.go). */
module Screens {
  import opened LineReader
  import opened Terminal
  import opened Mirror

  /** How much of an escape sequence has arrived. */
  datatype Escape = Normal | Escaped | Bracketed

  /** The finished rows, the bottom row, and the column of the next character on it. */
  datatype Display = Display(rows: seq<seq<byte>>, bottom: seq<byte>, column: nat, escape: Escape)

  /** The terminal between two writes. */
  predicate Ready(d: Display) { d.escape.Normal? && d.column <= |d.bottom| }

  /** One byte: carriage return, line feed, ESC [ K to clear the rest of the row, anything else overwrites one column. */
  function Show(d: Display, b: byte): (r: Display)
    requires d.column <= |d.bottom|
    ensures r.column <= |r.bottom|
  {
    match d.escape
    case Escaped => d.(escape := if b == 0x5B then Bracketed else Normal)
    case Bracketed => if b == 0x4B then d.(escape := Normal, bottom := d.bottom[..d.column]) else d.(escape := Normal)
    case Normal =>
      if b == 0x0D then d.(column := 0)
      else if b == 0x0A then Display(d.rows + [d.bottom], [], 0, Normal)
      else if b == 0x1B then d.(escape := Escaped)
      else
        var rest := if d.column < |d.bottom| then d.bottom[d.column + 1..] else [];
        d.(bottom := d.bottom[..d.column] + [b] + rest, column := d.column + 1)
  }

  function ShowAll(d: Display, bytes: seq<byte>): (r: Display)
    requires d.column <= |d.bottom|
    ensures r.column <= |r.bottom|
    decreases |bytes|
  {
    if bytes == [] then d else ShowAll(Show(d, bytes[0]), bytes[1..])
  }

  /** Bytes that take one column each. */
  predicate Visible(text: seq<byte>) { forall b <- text :: b != 0x0D && b != 0x0A && b != 0x1B }

  /** Whole rows of text. */
  function Rows(texts: seq<seq<byte>>): seq<byte> { if texts == [] then [] else texts[0] + [0x0A] + Rows(texts[1..]) }

  lemma {:induction false} ShowConcat(d: Display, a: seq<byte>, b: seq<byte>)
    requires d.column <= |d.bottom|
    ensures ShowAll(d, a + b) == ShowAll(ShowAll(d, a), b)
    decreases |a|
  {
    if a == [] {
      assert a + b == b;
    } else {
      assert (a + b)[1..] == a[1..] + b;
      ShowConcat(Show(d, a[0]), a[1..], b);
    }
  }

  /** At the end of the row, text is appended. */
  lemma {:induction false} ShowText(d: Display, text: seq<byte>)
    requires d.escape.Normal? && d.column == |d.bottom| && Visible(text)
    ensures ShowAll(d, text) == d.(bottom := d.bottom + text, column := |d.bottom| + |text|)
    decreases |text|
  {
    if text == [] {
      assert d.bottom + text == d.bottom;
    } else {
      var b := text[0];
      assert b in text && forall x <- text[1..] :: x in text;
      assert Show(d, b) == d.(bottom := d.bottom + [b], column := |d.bottom| + 1);
      ShowText(Show(d, b), text[1..]);
      assert d.bottom + [b] + text[1..] == d.bottom + text;
    }
  }

  lemma {:induction false} ShowRows(d: Display, texts: seq<seq<byte>>)
    requires d.escape.Normal? && d.bottom == [] && d.column == 0 && forall t <- texts :: Visible(t)
    ensures ShowAll(d, Rows(texts)) == d.(rows := d.rows + texts)
    decreases |texts|
  {
    if texts == [] {
      assert d.rows + texts == d.rows;
    } else {
      var t, rest := texts[0], texts[1..];
      assert t in texts && forall x <- rest :: x in texts;
      ShowConcat(d, t + [0x0A], Rows(rest));
      ShowConcat(d, t, [0x0A]);
      ShowText(d, t);
      assert [] + t == t;
      var e := d.(bottom := t, column := |t|);
      assert ShowAll(e, [0x0A]) == Show(e, 0x0A) by { OneByte(e, 0x0A); }
      ShowRows(d.(rows := d.rows + [t]), rest);
      assert d.rows + [t] + rest == d.rows + texts;
    }
  }

  lemma OneByte(d: Display, b: byte)
    requires d.column <= |d.bottom|
    ensures ShowAll(d, [b]) == Show(d, b)
  {
    assert [b][1..] == [];
    assert ShowAll(Show(d, b), []) == Show(d, b);
  }

  /** Carriage return and ESC [ K empty the bottom row, whatever was on it. */
  lemma ShowClear(d: Display)
    requires Ready(d)
    ensures ShowAll(d, [0x0D, 0x1B, 0x5B, 0x4B]) == d.(bottom := [], column := 0)
  {
    var a := d.(column := 0);
    var b, c := a.(escape := Escaped), a.(escape := Bracketed);
    assert [0x0D, 0x1B, 0x5B, 0x4B] == [0x0D] + ([0x1B] + ([0x5B] + [0x4B]));
    ShowConcat(d, [0x0D], [0x1B] + ([0x5B] + [0x4B]));
    OneByte(d, 0x0D);
    ShowConcat(a, [0x1B], [0x5B] + [0x4B]);
    OneByte(a, 0x1B);
    ShowConcat(b, [0x5B], [0x4B]);
    OneByte(b, 0x5B);
    OneByte(c, 0x4B);
    assert d.bottom[..0] == [];
  }

  /** A redraw whose copy of the line is exact, on any terminal that shows nothing on its bottom row when the copy is
      empty: the rows of the message stand above, and the bottom row is the prompt followed by what has been typed, with
      the cursor at its end. */
  lemma RedrawOnScreen(d: Display, texts: seq<seq<byte>>, prompt: seq<byte>, line: seq<byte>)
    requires Ready(d) && Visible(prompt) && Visible(line) && forall t <- texts :: Visible(t)
    requires prompt == [] && line == [] ==> d.bottom == []
    ensures ShowAll(d, Rendered(Rows(texts), Screen(prompt, line))) == Display(d.rows + texts, prompt + line, |prompt| + |line|, Normal)
  {
    hide ShowAll;
    var e := d.(bottom := [], column := 0);
    var clear: seq<byte> := if prompt == [] && line == [] then [] else CLEAR_LINE;
    assert ShowAll(d, clear) == e by { if clear == [] { NothingShown(d); } else { ShowClear(d); } }
    ShowConcat(d, clear + Rows(texts) + prompt, line);
    ShowConcat(d, clear + Rows(texts), prompt);
    ShowConcat(d, clear, Rows(texts));
    ShowRows(e, texts);
    var f := e.(rows := e.rows + texts);
    ShowText(f, prompt);
    assert [] + prompt == prompt;
    ShowText(f.(bottom := prompt, column := |prompt|), line);
  }

  lemma NothingShown(d: Display)
    requires d.column <= |d.bottom|
    ensures ShowAll(d, []) == d
  {
  }

  /** Over every session: after each broadcast that is redrawn while the copy is exact, the user sees the rows of the
      broadcast and below them the prompt and the line as they were when the broadcast was sent, nothing more and nothing
      less, whatever the bottom row showed before. */
  lemma UserSeesTheLine(e: Session, events: seq<Event>, r: Redraw, d: Display, texts: seq<seq<byte>>)
    requires Opening(e) && Possible(e, events) && r in After(e, events).redraws && r.note.exact
    requires r.msg == Rows(texts) && Visible(r.note.prompt) && forall t <- texts :: Visible(t)
    requires Ready(d) && (r.note.prompt == [] && r.note.line == [] ==> d.bottom == [])
    ensures ShowAll(d, r.output) == Display(d.rows + texts, r.note.prompt + r.note.line, |r.note.prompt| + |r.note.line|, Normal)
  {
    hide Possible, After, Opening;
    RedrawsShowTheLine(e, events, r);
    OpeningVisible(e);
    LinesAreVisible(e, events);
    RedrawOnScreen(d, texts, r.note.prompt, r.note.line);
  }

  /** A prompt on an empty bottom row stands there, and the copy starts afresh with it. */
  lemma PromptOnScreen(w: Wire, d: Display)
    requires w.echo && w.channel != [] && w.channel[0].Prompt? && Visible(w.channel[0].data)
    requires Ready(d) && d.bottom == []
    ensures var p, after := w.channel[0].data, Drain(w);
            && |after.output| == |w.output| + 1 && after.output[..|w.output|] == w.output
            && ShowAll(d, after.output[|w.output|]) == d.(bottom := p, column := |p|)
            && after.screen == Screen(p, [])
  {
    hide ShowAll;
    ShowText(d, w.channel[0].data);
    assert [] + w.channel[0].data == w.channel[0].data;
  }

  /** What the user types is shown by the user's own terminal: the write loop only keeps count of it. */
  lemma EditsAreSilent(w: Wire)
    requires w.echo && w.channel != [] && (w.channel[0].Echo? || w.channel[0].Backspace? || w.channel[0].Newline?)
    ensures Drain(w).output == w.output
  {
    assert w.output + [] == w.output;
  }

  /** Only printable keys get onto the line. */
  ghost predicate LinesVisible(e: Session) {
    Visible(e.line) && (forall n <- e.notes :: Visible(n.line)) && (forall r <- e.redraws :: Visible(r.note.line))
  }

  lemma OpeningVisible(e: Session)
    requires Opening(e)
    ensures LinesVisible(e)
  {
  }

  lemma {:induction false} LinesAreVisible(e: Session, events: seq<Event>)
    requires LinesVisible(e)
    ensures LinesVisible(After(e, events))
    decreases |events|
  {
    hide On, LinesVisible;
    if events != [] {
      OneEventVisible(e, events[0]);
      LinesAreVisible(On(e, events[0]), events[1..]);
    }
  }

  lemma OneEventVisible(e: Session, v: Event)
    requires LinesVisible(e)
    ensures LinesVisible(On(e, v))
  {
    hide Visible, Feed, Mail, Drain;
    match v
    case Key(b) => KeyVisible(Reader(e.skipLF, e.line, []), b);
    case Turn => if e.notes != [] { assert e.notes[0] in e.notes && forall n <- e.notes[1..] :: n in e.notes; }
    case _ =>
  }

  lemma KeyVisible(r: Reader, b: byte)
    requires Visible(r.line)
    ensures Visible(Feed(r, b).line)
  {
    forall x | x in Feed(r, b).line ensures x in r.line || Printing(x) { }
  }
}
