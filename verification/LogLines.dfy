/** Every message the server writes takes one line of the log, and only an announcement's line can be too long for the
    recovery scanner (models/message.go, server/history.go). */
module LogLines {
  import opened Text
  import opened Messages
  import opened Logs

  predicate Brief(s: string, n: nat) { '\n' !in s && ByteLen(s) <= n }

  lemma {:induction false} BytesConcat(a: string, b: string)
    ensures ByteLen(a + b) == ByteLen(a) + ByteLen(b)
  {
    if a == "" {
      assert a + b == b;
    } else {
      BytesConcat(a[1..], b);
      assert (a + b)[1..] == a[1..] + b;
    }
  }

  lemma BriefConcat(a: string, m: nat, b: string, n: nat)
    requires Brief(a, m) && Brief(b, n)
    ensures Brief(a + b, m + n)
  {
    BytesConcat(a, b);
  }

  lemma {:induction false} AsciiBrief(s: string)
    requires forall c <- s :: (c as int) < 0x80 && c != '\n'
    ensures Brief(s, |s|)
  {
    if s != "" {
      assert s[0] in s && forall c <- s[1..] :: c in s;
      AsciiBrief(s[1..]);
      assert s == [s[0]] + s[1..];
    }
  }

  lemma NameBrief(name: string)
    requires name == "" || ValidName(name)
    ensures Brief(name, 32)
  {
    AsciiBrief(name);
  }

  lemma DecimalLength(n: nat)
    requires n < 10000
    ensures |Decimal(n)| <= 4
  {
    assert n / 10 / 10 / 10 < 10 && |Decimal(n / 10 / 10 / 10)| == 1;
    assert |Decimal(n / 10 / 10)| <= 2 && |Decimal(n / 10)| <= 3;
  }

  lemma PaddedBrief(n: nat, width: nat)
    requires n < 10000 && width <= 4
    ensures Brief(Padded(n, width), 4)
  {
    DecimalLength(n);
    AsciiBrief(Padded(n, width));
  }

  lemma {:induction false} FieldsBrief(values: seq<nat>, widths: seq<nat>, separators: string)
    requires |values| == |widths| == |separators| + 1
    requires (forall v <- values :: v < 10000) && (forall w <- widths :: w <= 4)
    requires forall c <- separators :: (c as int) < 0x80 && c != '\n'
    ensures Brief(FormatFields(values, widths, separators), 5 * |values|)
    decreases |separators|
  {
    hide Brief, Padded;
    assert values[0] in values && widths[0] in widths;
    PaddedBrief(values[0], widths[0]);
    if separators != "" {
      assert separators[0] in separators && (forall c <- separators[1..] :: c in separators);
      assert (forall v <- values[1..] :: v in values) && (forall w <- widths[1..] :: w in widths);
      FieldsBrief(values[1..], widths[1..], separators[1..]);
      AsciiBrief([separators[0]]);
      BriefConcat([separators[0]], 1, FormatFields(values[1..], widths[1..], separators[1..]), 5 * |values[1..]|);
      BriefConcat(Padded(values[0], widths[0]), 4, [separators[0]] + FormatFields(values[1..], widths[1..], separators[1..]), 5 * |values[1..]| + 1);
    } else {
      LooseBrief(Padded(values[0], widths[0]), 4, 5);
    }
  }

  lemma LooseBrief(s: string, m: nat, n: nat)
    requires Brief(s, m) && m <= n
    ensures Brief(s, n)
  {
  }

  lemma TimestampBrief(t: Time)
    requires t.Valid() && t.year < 10000
    ensures Brief(FormatTimestamp(t), 30)
  {
    var values: seq<nat> := [t.year, t.month, t.day, t.hour, t.minute, t.second];
    assert forall v <- values :: v < 10000;
    FieldsBrief(values, [4, 2, 2, 2, 2, 2], TIME_SEPARATORS);
  }

  /** What the server writes: no server events, four digits for the year, text that comes from one line of input, and
      chats within their limit. */
  predicate Plain(m: Message) {
    && m.kind != ServerEvent && m.timestamp.year < 10000
    && (m.kind.Chat? ==> Brief(m.content, 2048))
    && (m.kind.Announcement? ==> '\n' !in m.content)
    && (m.kind.Leave? ==> Brief(m.extra, 32))
  }

  /** Bytes of the text of a chat or announcement. */
  function TextBytes(m: Message): nat { if m.kind.Chat? || m.kind.Announcement? then ByteLen(m.content) else 0 }

  lemma Marks()
    ensures Brief("[", 1) && Brief("]:", 2) && Brief(" ", 1) && Brief("voluntary", 32)
  {
    hide ByteLen;
    AsciiBrief("["); AsciiBrief("]:"); AsciiBrief(" "); AsciiBrief("voluntary");
  }

  lemma BracketedBrief(name: string, text: string, n: nat)
    requires Brief(name, 32) && Brief(text, n)
    ensures Brief("[" + name + "]:" + text, n + 100)
  {
    hide Brief;
    Marks();
    BriefConcat("[", 1, name, 32);
    BriefConcat("[" + name, 33, "]:", 2);
    BriefConcat("[" + name + "]:", 35, text, n);
    LooseBrief("[" + name + "]:" + text, n + 35, n + 100);
  }

  lemma WordsBrief(a: string, b: string, n: nat)
    requires Brief(a, n) && Brief(b, 32)
    ensures Brief(a + " " + b, n + 33)
  {
    hide Brief;
    Marks();
    BriefConcat(a, n, " ", 1);
    BriefConcat(a + " ", n + 1, b, 32);
  }

  lemma PayloadBrief(m: Message)
    requires Plain(m) && Loggable(m)
    ensures Brief(Payload(m), TextBytes(m) + 100)
  {
    hide ValidName, Brief, Time.Valid;
    match m.kind
    case Chat => NameBrief(m.sender); TextBrief(m); BracketedBrief(m.sender, m.content, TextBytes(m));
    case Join => NameBrief(m.sender); LooseBrief(m.sender, 32, 100);
    case Leave =>
      NameBrief(m.sender); Marks();
      WordsBrief(m.sender, LeaveReason(m.extra), 32); LooseBrief(Payload(m), 65, 100);
    case NameChange =>
      NameBrief(m.sender); NameBrief(m.extra);
      WordsBrief(m.extra, m.sender, 32); LooseBrief(Payload(m), 65, 100);
    case Announcement => NameBrief(m.extra); TextBrief(m); BracketedBrief(m.extra, m.content, TextBytes(m));
    case Moderation =>
      NameBrief(m.content); NameBrief(m.sender); NameBrief(m.extra);
      WordsBrief(m.content, m.sender, 32); WordsBrief(m.content + " " + m.sender, m.extra, 65);
      LooseBrief(Payload(m), 98, 100);
  }

  lemma TextBrief(m: Message)
    requires Plain(m) && (m.kind.Chat? || m.kind.Announcement?)
    ensures Brief(m.content, TextBytes(m))
  {
    hide ByteLen;
  }

  lemma KeywordBrief(kind: Kind)
    ensures Brief(Keyword(kind), 10)
  {
    AsciiBrief(Keyword(kind));
  }

  lemma TagBrief(m: Message)
    requires m.room == "" || ValidName(m.room)
    ensures Brief(RoomTag(m), 34)
  {
    hide ValidName;
    assert Brief("@", 1) && Brief(" ", 1) && Brief("", 34) by { AsciiBrief("@"); AsciiBrief(" "); }
    NameBrief(m.room);
    BriefConcat("@", 1, m.room, 32);
    BriefConcat("@" + m.room, 33, " ", 1);
  }

  lemma LineBrief(m: Message)
    requires Plain(m) && Loggable(m)
    ensures Brief(FormatLogLine(m), TextBytes(m) + 178)
  {
    hide Brief, Payload, Keyword, RoomTag, FormatTimestamp, Plain, TextBytes;
    assert m.timestamp.year < 10000 by { PlainYear(m); }
    TimestampBrief(m.timestamp); TagBrief(m); KeywordBrief(m.kind); PayloadBrief(m);
    assert Brief("[", 1) && Brief("] ", 2) && Brief(" ", 1) by { AsciiBrief("["); AsciiBrief("] "); AsciiBrief(" "); }
    var a := "[" + FormatTimestamp(m.timestamp);
    BriefConcat("[", 1, FormatTimestamp(m.timestamp), 30);
    BriefConcat(a, 31, "] ", 2);
    BriefConcat(a + "] ", 33, RoomTag(m), 34);
    BriefConcat(a + "] " + RoomTag(m), 67, Keyword(m.kind), 10);
    BriefConcat(a + "] " + RoomTag(m) + Keyword(m.kind), 77, " ", 1);
    BriefConcat(a + "] " + RoomTag(m) + Keyword(m.kind) + " ", 78, Payload(m), TextBytes(m) + 100);
  }

  lemma PlainYear(m: Message)
    requires Plain(m)
    ensures m.timestamp.year < 10000
  {
  }

  /** Such a message takes exactly one line, and the recovery scanner can read it unless it is a long announcement. */
  lemma PlainIsOneLine(m: Message)
    requires Plain(m) && Loggable(m)
    ensures Single(m) && (!m.kind.Announcement? ==> OneLine(m))
  {
    hide FormatLogLine, Loggable;
    LineBrief(m);
  }

  /** What stands before the payload. */
  function Lead(m: Message): string { "[" + FormatTimestamp(m.timestamp) + "] " + RoomTag(m) + Keyword(m.kind) + " " }

  lemma LineOf(m: Message)
    ensures FormatLogLine(m) == Lead(m) + Payload(m)
  {
    hide FormatTimestamp, RoomTag, Keyword, Payload;
  }

  lemma AnnouncementPayload(m: Message)
    requires m.kind.Announcement?
    ensures var header := m.(content := ""); Lead(header) == Lead(m) && Payload(m) == Payload(header) + m.content
  {
    hide FormatTimestamp;
    assert "[" + m.extra + "]:" + "" == "[" + m.extra + "]:";
  }

  /** When exactly an announcement's line can be read: its text and what the log puts before it stay below the limit. */
  lemma AnnouncementFits(m: Message)
    requires m.kind.Announcement?
    ensures Fits(FormatLogLine(m)) <==> ByteLen(FormatLogLine(m.(content := ""))) + ByteLen(m.content) < MAX_LINE
  {
    hide FormatLogLine, Lead, Payload, ByteLen;
    var header := m.(content := "");
    LineOf(m);
    LineOf(header);
    AnnouncementPayload(m);
    Assoc(Lead(m), Payload(header), m.content);
    BytesConcat(FormatLogLine(header), m.content);
  }
}
