/** Interactive input: bytes typed by a user, the lines they form and the edits they cause (client/client.go). */
module LineReader {

  type byte = x: int | 0 <= x < 256

  const BS: byte := 0x08
  const LF: byte := 0x0A
  const CR: byte := 0x0D
  const DEL: byte := 0x7F

  predicate Printing(b: byte) { 0x20 <= b <= 0x7E }

  /** What travels through the write channel; Text is a broadcast or notice. */
  datatype WriteMsg = Text(data: seq<byte>) | Prompt(data: seq<byte>) | Echo(b: byte) | Backspace | Newline

  /** The reader between two bytes: the carriage return flag, the unfinished line, the finished lines. */
  datatype Reader = Reader(skipLF: bool, line: seq<byte>, lines: seq<seq<byte>>)

  /** The line feed of a carriage return and line feed pair. */
  predicate Skips(skipLF: bool, b: byte) { skipLF && b == LF }

  function Feed(r: Reader, b: byte): Reader {
    if Skips(r.skipLF, b) then r.(skipLF := false)
    else if b == CR || b == LF then Reader(b == CR, [], r.lines + [r.line])
    else if (b == DEL || b == BS) && r.line != [] then r.(skipLF := false, line := r.line[..|r.line| - 1])
    else if Printing(b) then r.(skipLF := false, line := r.line + [b])
    else r.(skipLF := false)
  }

  /** The message a byte sends to the write loop, if any. */
  function Mail(r: Reader, b: byte): seq<WriteMsg> {
    if Skips(r.skipLF, b) then []
    else if b == CR || b == LF then [Newline]
    else if b == DEL || b == BS then (if r.line != [] then [Backspace] else [])
    else if Printing(b) then [Echo(b)]
    else []
  }

  /** One fold over a stretch of input. */
  function FeedAll(r: Reader, input: seq<byte>): Reader {
    if input == [] then r else Feed(FeedAll(r, input[..|input| - 1]), input[|input| - 1])
  }

  function MailAll(r: Reader, input: seq<byte>): seq<WriteMsg> {
    if input == [] then []
    else MailAll(r, input[..|input| - 1]) + Mail(FeedAll(r, input[..|input| - 1]), input[|input| - 1])
  }

  lemma {:induction false} FeedConcat(r: Reader, a: seq<byte>, b: seq<byte>)
    ensures FeedAll(r, a + b) == FeedAll(FeedAll(r, a), b)
    ensures MailAll(r, a + b) == MailAll(r, a) + MailAll(FeedAll(r, a), b)
  {
    if b == [] {
      assert a + b == a;
    } else {
      var init := b[..|b| - 1];
      assert (a + b)[..|a + b| - 1] == a + init;
      FeedConcat(r, a, init);
    }
  }

  lemma FeedOne(r: Reader, b: byte)
    ensures FeedAll(r, [b]) == Feed(r, b) && MailAll(r, [b]) == Mail(r, b)
  {
    assert [b][..0] == [];
  }

  /** Lines already finished play no further part. */
  lemma {:induction false} LinesApart(r: Reader, before: seq<seq<byte>>, input: seq<byte>)
    requires r.lines == []
    ensures var a, b := FeedAll(r, input), FeedAll(r.(lines := before), input);
            b == a.(lines := before + a.lines) && MailAll(r, input) == MailAll(r.(lines := before), input)
  {
    if input == [] {
      assert before + [] == before;
    } else {
      LinesApart(r, before, input[..|input| - 1]);
      var a := FeedAll(r, input[..|input| - 1]);
      assert before + (a.lines + [a.line]) == before + a.lines + [a.line];
    }
  }

  // ---------- line endings ----------

  datatype Ending = ByLF | ByCR | ByCRLF

  function Mark(e: Ending): seq<byte> {
    match e case ByLF => [LF] case ByCR => [CR] case ByCRLF => [CR, LF]
  }

  predicate Plain(text: seq<byte>) { forall b <- text :: Printing(b) }

  datatype Typed = Typed(text: seq<byte>, ending: Ending)

  function Keys(ts: seq<Typed>): seq<byte> {
    if ts == [] then [] else Keys(ts[..|ts| - 1]) + ts[|ts| - 1].text + Mark(ts[|ts| - 1].ending)
  }

  /** An empty line ended by a line feed right after a carriage return is taken for one line ending. */
  predicate Swallowed(ts: seq<Typed>, i: nat)
    requires i < |ts|
  {
    i > 0 && ts[i - 1].ending.ByCR? && ts[i] == Typed([], ByLF)
  }

  function LinesOf(ts: seq<Typed>): seq<seq<byte>> {
    if ts == [] then []
    else LinesOf(ts[..|ts| - 1]) + if Swallowed(ts, |ts| - 1) then [] else [ts[|ts| - 1].text]
  }

  function Texts(ts: seq<Typed>): seq<seq<byte>> {
    if ts == [] then [] else Texts(ts[..|ts| - 1]) + [ts[|ts| - 1].text]
  }

  const START := Reader(false, [], [])

  lemma {:induction false} FeedPlain(r: Reader, text: seq<byte>)
    requires Plain(text)
    ensures FeedAll(r, text) == Reader(if text == [] then r.skipLF else false, r.line + text, r.lines)
  {
    if text != [] {
      var init, b := text[..|text| - 1], text[|text| - 1];
      assert Printing(b) by { assert b in text; }
      assert Plain(init) by { forall x | x in init ensures Printing(x) { assert x in text; } }
      FeedPlain(r, init);
      assert text == init + [b];
      assert r.line + text == r.line + init + [b];
    }
  }

  lemma FeedMark(r: Reader, e: Ending)
    requires !(r.skipLF && e.ByLF?)
    ensures FeedAll(r, Mark(e)) == Reader(e.ByCR?, [], r.lines + [r.line])
  {
    FeedOne(r, LF);
    FeedOne(r, CR);
    if e.ByCRLF? {
      assert [CR, LF] == [CR] + [LF];
      FeedConcat(r, [CR], [LF]);
      FeedOne(FeedAll(r, [CR]), LF);
    }
  }

  lemma FeedTyped(r: Reader, t: Typed)
    requires Plain(t.text) && r.line == []
    ensures FeedAll(r, t.text + Mark(t.ending))
         == Reader(t.ending.ByCR?, [], if r.skipLF && t == Typed([], ByLF) then r.lines else r.lines + [t.text])
  {
    FeedConcat(r, t.text, Mark(t.ending));
    FeedPlain(r, t.text);
    assert [] + t.text == t.text;
    if r.skipLF && t == Typed([], ByLF) {
      FeedOne(r, LF);
    } else {
      FeedMark(FeedAll(r, t.text), t.ending);
    }
  }

  /** Printable texts under any mixture of line endings. */
  lemma {:induction false} FeedKeys(ts: seq<Typed>)
    requires forall t <- ts :: Plain(t.text)
    ensures FeedAll(START, Keys(ts)) == Reader(ts != [] && ts[|ts| - 1].ending.ByCR?, [], LinesOf(ts))
  {
    if ts != [] {
      var init, t := ts[..|ts| - 1], ts[|ts| - 1];
      assert t in ts && forall x <- init :: x in ts;
      FeedKeys(init);
      assert Keys(ts) == Keys(init) + (t.text + Mark(t.ending));
      FeedConcat(START, Keys(init), t.text + Mark(t.ending));
      FeedTyped(FeedAll(START, Keys(init)), t);
    }
  }

  lemma {:induction false} LinesShorter(ts: seq<Typed>)
    ensures |Texts(ts)| == |ts| && |LinesOf(ts)| <= |ts|
    ensures |LinesOf(ts)| == |ts| <==> forall i: nat :: i < |ts| ==> !Swallowed(ts, i)
    ensures |LinesOf(ts)| == |ts| ==> LinesOf(ts) == Texts(ts)
  {
    if ts != [] {
      var init, n := ts[..|ts| - 1], |ts| - 1;
      LinesShorter(init);
      forall i: nat | i < n ensures Swallowed(ts, i) == Swallowed(init, i) { }
    }
  }

  /** Any mixture of LF, CR and CRLF gives back exactly the texts, unless an empty line ended by LF follows a CR. */
  lemma LineEndingsAgree(ts: seq<Typed>)
    requires forall t <- ts :: Plain(t.text)
    ensures FeedAll(START, Keys(ts)).lines == Texts(ts) <==> forall i: nat :: i < |ts| ==> !Swallowed(ts, i)
  {
    FeedKeys(ts);
    LinesShorter(ts);
  }

  /** In particular, texts all ended the same way always come back. */
  lemma UniformEndingsAgree(ts: seq<Typed>, e: Ending)
    requires forall t <- ts :: Plain(t.text) && t.ending == e
    ensures FeedAll(START, Keys(ts)).lines == Texts(ts)
  {
    forall i: nat | i < |ts| ensures !Swallowed(ts, i) {
      assert ts[i] in ts && (i > 0 ==> ts[i - 1] in ts);
    }
    LineEndingsAgree(ts);
  }

  // ---------- erasing ----------

  /** Backspace and Delete. */
  predicate Erases(b: byte) { b == 0x08 || b == 0x7F }

  /** A key and an erasure of it leave no trace in the lines read, wherever they come, unless a carriage return was just
      read, whose line feed they separate from it. */
  lemma ErasedKeysLeaveNoTrace(before: seq<byte>, key: byte, erase: byte, after: seq<byte>)
    requires Printing(key) && Erases(erase) && !FeedAll(START, before).skipLF
    ensures FeedAll(START, before + [key, erase] + after) == FeedAll(START, before + after)
    ensures MailAll(START, before + [key, erase]) == MailAll(START, before) + [Echo(key), Backspace]
  {
    hide FeedAll, MailAll;
    var r := FeedAll(START, before);
    FeedConcat(START, before + [key, erase], after);
    FeedConcat(START, before, [key, erase]);
    FeedConcat(START, before, after);
    ErasedKey(r, key, erase);
  }

  lemma ErasedKey(r: Reader, key: byte, erase: byte)
    requires Printing(key) && Erases(erase) && !r.skipLF
    ensures FeedAll(r, [key, erase]) == r && MailAll(r, [key, erase]) == [Echo(key), Backspace]
  {
    hide FeedAll, MailAll;
    assert [key, erase] == [key] + [erase];
    FeedConcat(r, [key], [erase]);
    FeedOne(r, key);
    FeedOne(Feed(r, key), erase);
    assert (r.line + [key])[..|r.line|] == r.line;
  }

  /** On an empty line an erasure does nothing, and is not passed on. */
  lemma NothingToErase(before: seq<byte>, erase: byte, after: seq<byte>)
    requires Erases(erase) && !FeedAll(START, before).skipLF && FeedAll(START, before).line == []
    ensures FeedAll(START, before + [erase] + after) == FeedAll(START, before + after)
    ensures MailAll(START, before + [erase]) == MailAll(START, before)
  {
    hide FeedAll, MailAll;
    var r := FeedAll(START, before);
    FeedConcat(START, before + [erase], after);
    FeedConcat(START, before, [erase]);
    FeedConcat(START, before, after);
    FeedOne(r, erase);
    assert MailAll(START, before) + [] == MailAll(START, before);
  }
}
