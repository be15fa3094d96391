/** ParseLogLine undoes FormatLogLine, and exactly when (models/message.go). */
module RoundTrip {
  import opened Text
  import opened Messages

  // ---------- the fixed part of a line ----------

  function TagOf(room: string): string {
    if room == "" then "" else "@" + room + " "
  }

  function Prefix(t: Time, room: string, keyword: string): string {
    "[" + FormatTimestamp(t) + "] " + TagOf(room) + keyword + " "
  }

  lemma PrintableHasNoSpace(s: string)
    requires Printable(s)
    ensures ' ' !in s
    ensures TrimRight(s) == s
  {
    assert s != "" ==> s[|s| - 1] in s;
  }

  lemma ParsePrefix(t: Time, rest: string)
    requires t.Valid() && rest != ""
    ensures ParseTimestamp("[" + FormatTimestamp(t) + "] " + rest) == Ok((t.Seconds(), rest))
  {
    hide FormatTimestamp, ReadTimestamp, ParseTimestamp;
    TimestampShape(t);
    TimestampRoundTrip(t);
    ParseStamp(FormatTimestamp(t), rest);
  }

  lemma ParseStamp(ts: string, rest: string)
    requires ts != "" && ']' !in ts && rest != ""
    ensures ParseTimestamp("[" + ts + "] " + rest)
         == (match ReadTimestamp(ts) case None => Err(InvalidTimestamp) case Some(t) => Ok((t, rest)))
  {
    hide ReadTimestamp;
    BracketShape(ts, rest);
    IndexOfConcat("[" + ts, ']', " " + rest);
  }

  lemma BracketShape(ts: string, rest: string)
    ensures var line := "[" + ts + "] " + rest;
            line == ("[" + ts) + [']'] + (" " + rest) && line[1..|ts| + 1] == ts && line[|ts| + 3..] == rest
  {
    Cut("[", ts, "] " + rest);
    Cut("[" + ts, "] ", rest);
    Assoc("[" + ts, "] ", rest);
    Assoc("]", " ", rest);
    Assoc("[" + ts, "]", " " + rest);
    assert "] " == "]" + " ";
  }

  lemma ParseTag(room: string, rest: string)
    requires room == "" || ValidName(room)
    requires rest != "" && rest[0] != '@'
    ensures ParseRoomTag(TagOf(room) + rest) == Ok((room, rest))
  {
    var s := TagOf(room) + rest;
    if room == "" {
      assert s == rest;
    } else {
      PrintableHasNoSpace(room);
      IndexOfConcat("@" + room, ' ', rest);
      Cut("@", room, " " + rest);
      Cut("@" + room, " ", rest);
      Assoc("@" + room, " ", rest);
    }
  }

  lemma TwoWords(a: string, b: string)
    requires ' ' !in a
    ensures IndexOf(a + " " + b, ' ') == |a|
    ensures (a + " " + b)[..|a|] == a && (a + " " + b)[|a| + 1..] == b
  {
    IndexOfConcat(a, ' ', b);
    Cut(a, " ", b);
  }

  lemma KeywordSelectsItsParser(kind: Kind)
    ensures KindOf(Keyword(kind)) == Some(kind)
    ensures ' ' !in Keyword(kind) && Keyword(kind) != "" && Keyword(kind)[0] != '@'
  {
  }

  /** Everything before the payload parses back, for any payload. */
  lemma ParseFixedPart(t: Time, room: string, kind: Kind, payload: string)
    requires t.Valid() && (room == "" || ValidName(room))
    ensures Prefix(t, room, Keyword(kind)) + payload != ""
    ensures ParseTrimmed(Prefix(t, room, Keyword(kind)) + payload) == ParsePayload(kind, t.Seconds(), payload, room)
  {
    hide FormatTimestamp, ReadTimestamp, Keyword, KindOf, ParseTimestamp, ParseRoomTag, ParsePayload, TagOf;
    KeywordSelectsItsParser(kind);
    var keyword := Keyword(kind);
    var body := keyword + " " + payload;
    TwoWords(keyword, payload);
    ParseTag(room, body);
    ParsePrefix(t, TagOf(room) + body);
    assert Prefix(t, room, keyword) + payload == "[" + FormatTimestamp(t) + "] " + (TagOf(room) + body);
  }

  lemma ParseBareKeyword(t: Time, kind: Kind)
    requires t.Valid()
    ensures ParseTrimmed("[" + FormatTimestamp(t) + "] " + Keyword(kind)) == ParsePayload(kind, t.Seconds(), "", "")
  {
    hide FormatTimestamp, ReadTimestamp, Keyword, KindOf, ParseTimestamp, ParsePayload;
    KeywordSelectsItsParser(kind);
    ParsePrefix(t, Keyword(kind));
  }

  // ---------- the payload ----------

  lemma FirstCloseAfterBracket(u: string)
    requires IndexOfClose(u) != -1
    ensures IndexOfClose("[" + u) == IndexOfClose(u) + 1
  {
    var k, j := IndexOfClose(u), IndexOfClose("[" + u);
    assert forall i {:trigger ClosesAt(u, i)} :: ClosesAt(u, i) ==> ClosesAt("[" + u, i + 1);
    assert ClosesAt(u, k);
    assert forall i {:trigger ClosesAt("[" + u, i)} :: ClosesAt("[" + u, i) ==> ClosesAt(u, i - 1);
    assert ClosesAt("[" + u, j);
  }

  lemma BracketedParse(name: string, text: string, keyword: string)
    ensures TrimRight("[" + name + "]:" + text) == "[" + name + "]:" + TrimRight(text)
    ensures ParseBracketed("[" + name + "]:" + TrimRight(text), keyword) == Ok(Resplit(name, text))
  {
    hide TrimRight;
    TrimRightConcat("[" + name + "]:", text);
    var kept := name + "]:" + TrimRight(text);
    assert ClosesAt(kept, |name|);
    FirstCloseAfterBracket(kept);
    assert "[" + name + "]:" + TrimRight(text) == "[" + kept;
    var k := IndexOfClose(kept);
    assert ("[" + kept)[1..k + 1] == kept[..k];
    assert ("[" + kept)[k + 3..] == kept[k + 2..];
  }

  lemma LeavePayload(sender: string, extra: string)
    requires ValidName(sender)
    ensures var kept := TrimRight(sender + " " + LeaveReason(extra));
            var k := IndexOf(kept, ' ');
            if TrimRight(LeaveReason(extra)) == "" then kept == sender && k == -1
            else 0 <= k && kept[..k] == sender && kept[k + 1..] == TrimRight(LeaveReason(extra))
  {
    hide LeaveReason, IsSpace;
    var reason := LeaveReason(extra);
    PrintableHasNoSpace(sender);
    if TrimRight(reason) == "" {
      BlankIsTrimmed();
      TrimRightBlanks(" ", reason);
      TrimRightBlanks(sender, " " + reason);
      assert sender + " " + reason == sender + (" " + reason);
    } else {
      TrimRightTail(sender + " ", reason);
      TwoWords(sender, TrimRight(reason));
    }
  }

  lemma LeaveReasonTrims(extra: string)
    ensures LeaveReason(TrimRight(extra))
         == (if TrimRight(LeaveReason(extra)) == "" then "voluntary" else TrimRight(LeaveReason(extra)))
  {
    PrintableHasNoSpace("voluntary");
  }

  lemma ModerationPayload(content: string, sender: string, extra: string)
    requires ValidName(content) && ValidName(sender) && ValidName(extra)
    ensures var p := content + " " + sender + " " + extra;
            TrimRight(p) == p && IndexOf(p, ' ') == |content| && p[..|content|] == content
            && p[|content| + 1..] == sender + " " + extra
    ensures var q := sender + " " + extra; IndexOf(q, ' ') == |sender| && q[..|sender|] == sender && q[|sender| + 1..] == extra
  {
    PrintableHasNoSpace(sender);
    PrintableHasNoSpace(content);
    PrintableHasNoSpace(extra);
    TrimRightTail(content + " " + sender + " ", extra);
    TwoWords(content, sender + " " + extra);
    TwoWords(sender, extra);
    Assoc(content + " ", sender, " " + extra);
    Assoc(sender, " ", extra);
    Assoc(content + " " + sender, " ", extra);
  }

  function LoggedRoom(m: Message): string {
    if m.kind == ServerEvent then "" else m.room
  }

  /** Parsing the trimmed payload of a loggable message gives the recovered message. */
  lemma PayloadRoundTrip(m: Message)
    requires Loggable(m)
    ensures ParsePayload(m.kind, m.timestamp.Seconds(), TrimRight(Payload(m)), LoggedRoom(m)) == Ok(Recovered(m))
    ensures m.kind != ServerEvent ==> TrimRight(Payload(m)) != ""
  {
    hide TrimRight, IndexOf, ParseBracketed, Resplit, LeaveReason, Time.Valid;
    match m.kind
    case Chat => BracketedParse(m.sender, m.content, "CHAT");
    case Join => PrintableHasNoSpace(m.sender);
    case Leave =>
      LeavePayload(m.sender, m.extra);
      LeaveReasonTrims(m.extra);
      LeavePayloadNotBlank(m.sender, m.extra);
    case NameChange =>
      PrintableHasNoSpace(m.sender);
      PrintableHasNoSpace(m.extra);
      TrimRightTail(m.extra + " ", m.sender);
      TwoWords(m.extra, m.sender);
    case Announcement => BracketedParse(m.extra, m.content, "ANNOUNCE");
    case Moderation => ModerationPayload(m.content, m.sender, m.extra);
    case ServerEvent =>
  }

  lemma LeavePayloadNotBlank(sender: string, extra: string)
    requires ValidName(sender)
    ensures TrimRight(sender + " " + LeaveReason(extra)) != ""
  {
    PrintableHasNoSpace(sender);
    assert sender + " " + LeaveReason(extra) == sender + (" " + LeaveReason(extra));
    TrimRightConcat(sender, " " + LeaveReason(extra));
  }

  // ---------- main results ----------

  lemma LineShape(m: Message)
    ensures FormatLogLine(m) == Prefix(m.timestamp, LoggedRoom(m), Keyword(m.kind)) + Payload(m)
    ensures FormatLogLine(m) != "" && FormatLogLine(m)[0] == '['
  {
    hide FormatTimestamp, Keyword, Payload;
    var lead := "[" + FormatTimestamp(m.timestamp) + "] ";
    assert RoomTag(m) == TagOf(LoggedRoom(m));
    assert FormatLogLine(m) == lead + RoomTag(m) + Keyword(m.kind) + " " + Payload(m);
  }

  /** A server event with a blank text: the line is trimmed to its keyword. */
  lemma BlankLine(m: Message)
    requires m.kind == ServerEvent && TrimRight(Payload(m)) == ""
    ensures TrimRight(FormatLogLine(m)) == "[" + FormatTimestamp(m.timestamp) + "] " + Keyword(m.kind)
  {
    hide FormatLogLine, Payload, Keyword, FormatTimestamp, TrimRight;
    LineShape(m);
    var bare := "[" + FormatTimestamp(m.timestamp) + "] " + Keyword(m.kind);
    TrimRightBlanks(" ", Payload(m));
    BlankIsTrimmed();
    TrimRightBlanks(bare, " " + Payload(m));
    assert FormatLogLine(m) == bare + (" " + Payload(m));
    KeywordEndsInLetter(m.kind);
    TrimRightTail("[" + FormatTimestamp(m.timestamp) + "] ", Keyword(m.kind));
  }

  /** Every loggable message is read back as Recovered says, even when its name field contains `]:`. */
  lemma ParseUndoesFormat(m: Message)
    requires Loggable(m)
    ensures ParseLogLine(FormatLogLine(m)) == Ok(Recovered(m))
  {
    hide FormatLogLine, Payload, Recovered, ParseTrimmed, ParsePayload, Keyword, FormatTimestamp, TrimRight, Time.Valid, Prefix;
    LineShape(m);
    TrimSpaceIsTrimRight(FormatLogLine(m));
    PayloadRoundTrip(m);
    if TrimRight(Payload(m)) != "" {
      TrimRightTail(Prefix(m.timestamp, LoggedRoom(m), Keyword(m.kind)), Payload(m));
      ParseFixedPart(m.timestamp, LoggedRoom(m), m.kind, TrimRight(Payload(m)));
    } else {
      BlankLine(m);
      ParseBareKeyword(m.timestamp, m.kind);
    }
  }

  lemma BlankIsTrimmed()
    ensures TrimRight(" ") == ""
  {
  }

  lemma KeywordEndsInLetter(kind: Kind)
    ensures TrimRight(Keyword(kind)) == Keyword(kind) != ""
  {
  }

  /** The field written before `]:` in a chat or announcement line. */
  function BracketedName(m: Message): string {
    if m.kind == Chat then m.sender else if m.kind == Announcement then m.extra else ""
  }

  lemma ResplitExactly(name: string, text: string)
    ensures Resplit(name, text) == (name, TrimRight(text)) <==> !HasClose(name)
  {
    var all := name + "]:" + TrimRight(text);
    if HasClose(name) {
      IndexOfCloseEarly(name, TrimRight(text));
    } else {
      IndexOfCloseConcat(name, TrimRight(text));
      assert all[..|name|] == name && all[|name| + 2..] == TrimRight(text);
    }
  }

  /** The parser is the exact inverse, up to the intended losses, if and only if no sender or announcer contains `]:`. */
  lemma RoundTripExactly(m: Message)
    requires Loggable(m)
    ensures ParseLogLine(FormatLogLine(m)) == Ok(Normalised(m)) <==> !HasClose(BracketedName(m))
  {
    hide FormatLogLine, ParseLogLine, Resplit, Loggable;
    ParseUndoesFormat(m);
    ResplitExactly(BracketedName(m), m.content);
    assert !HasClose("");
  }

  /** Splitting a bracketed text at its first `]:` and joining it again only trims it. */
  lemma SplitAndJoin(lead: string, name: string, text: string)
    ensures var (n, c) := Resplit(name, text); lead + n + "]:" + c == TrimRight(lead + name + "]:" + text)
  {
    hide Resplit, TrimRight;
    var (n, c) := Resplit(name, text);
    TrimRightConcat(lead + name + "]:", text);
    Assoc(lead, n, "]:");
    Assoc(lead, n + "]:", c);
    Assoc(lead, name, "]:");
    Assoc(lead, name + "]:", TrimRight(text));
  }

  /** A recovered chat looks exactly like the original up to trailing blanks, whatever its sender is called. */
  lemma RecoveredChatLooksTheSame(m: Message)
    requires Loggable(m) && m.kind == Chat
    ensures ParseLogLine(FormatLogLine(m)) == Ok(Recovered(m))
    ensures Display(Recovered(m)) == TrimRight(Display(m))
  {
    hide FormatTimestamp, FormatLogLine, ParseLogLine, Resplit, TrimRight, Loggable;
    ParseUndoesFormat(m);
    SecondsPrintTheSame(m.timestamp);
    SplitAndJoin("[" + FormatTimestamp(m.timestamp) + "][", m.sender, m.content);
  }

  lemma SecondsPrintTheSame(t: Time)
    ensures FormatTimestamp(t.Seconds()) == FormatTimestamp(t)
  {
  }

  /** Printing what was parsed reproduces the line up to trailing blanks, with no condition on names. */
  lemma ReprintedLine(m: Message)
    requires Loggable(m) && m.kind in {Chat, Announcement}
    ensures FormatLogLine(Recovered(m)) == TrimRight(FormatLogLine(m))
  {
    hide FormatTimestamp, FormatLogLine, Resplit, TrimRight, Loggable, Keyword, Prefix;
    var name := BracketedName(m);
    LineShape(m);
    LineShape(Recovered(m));
    PrefixOfSeconds(m.timestamp, m.room, Keyword(m.kind));
    SplitAndJoin("[", name, m.content);
    BracketedNotBlank(name, m.content);
    TrimRightTail(Prefix(m.timestamp, m.room, Keyword(m.kind)), Payload(m));
  }

  lemma BracketedNotBlank(name: string, text: string)
    ensures TrimRight("[" + name + "]:" + text) != ""
  {
    TrimRightConcat("[" + name + "]:", text);
  }

  lemma PrefixOfSeconds(t: Time, room: string, keyword: string)
    ensures Prefix(t.Seconds(), room, keyword) == Prefix(t, room, keyword)
  {
    hide FormatTimestamp;
    SecondsPrintTheSame(t);
  }

  // ---------- what the lines look like ----------

  const REFERENCE: Time := Time(2026, 2, 20, 15, 48, 41, 0)

  lemma TwoDigits(n: nat)
    requires n < 100
    ensures Padded(n, 2) == [DigitChar(n / 10), DigitChar(n % 10)]
  {
    if n < 10 { assert Decimal(n) == [DigitChar(n)]; } else { assert Decimal(n / 10) == [DigitChar(n / 10)]; }
  }

  lemma FourDigits(n: nat)
    requires 1000 <= n < 10000
    ensures Padded(n, 4) == [DigitChar(n / 1000), DigitChar(n / 100 % 10), DigitChar(n / 10 % 10), DigitChar(n % 10)]
  {
    assert n / 10 / 10 / 10 == n / 1000 && n / 10 / 10 == n / 100 && 1 <= n / 1000 < 10;
    assert Decimal(n / 1000) == [DigitChar(n / 1000)];
    assert Decimal(n / 100) == [DigitChar(n / 1000), DigitChar(n / 100 % 10)];
    assert Decimal(n / 10) == [DigitChar(n / 1000), DigitChar(n / 100 % 10), DigitChar(n / 10 % 10)];
  }

  /** A date is written year first, a time of day hours first, with the marks of the documentation. */
  lemma ReferenceTime()
    ensures FormatDate(REFERENCE) == "2026" + ("-" + ("02" + ("-" + "20")))
    ensures FormatTimestamp(REFERENCE) == "2026" + ("-" + ("02" + ("-" + ("20" + (" " + ("15" + (":" + ("48" + (":" + "41")))))))))
  {
    hide FormatFields, Padded;
    ReferenceDigits();
    MoreFields([41], [2], "", [], [], "");
    MoreFields([48, 41], [2, 2], ":", [41], [2], "");
    MoreFields([15, 48, 41], [2, 2, 2], "::", [48, 41], [2, 2], ":");
    MoreFields([20, 15, 48, 41], [2, 2, 2, 2], " ::", [15, 48, 41], [2, 2, 2], "::");
    MoreFields([2, 20, 15, 48, 41], [2, 2, 2, 2, 2], "- ::", [20, 15, 48, 41], [2, 2, 2, 2], " ::");
    MoreFields([2026, 2, 20, 15, 48, 41], [4, 2, 2, 2, 2, 2], "-- ::", [2, 20, 15, 48, 41], [2, 2, 2, 2, 2], "- ::");
    MoreFields([20], [2], "", [], [], "");
    MoreFields([2, 20], [2, 2], "-", [20], [2], "");
    MoreFields([2026, 2, 20], [4, 2, 2], "--", [2, 20], [2, 2], "-");
  }

  lemma ReferenceDigits()
    ensures Padded(2026, 4) == "2026" && Padded(2, 2) == "02" && Padded(20, 2) == "20"
    ensures Padded(15, 2) == "15" && Padded(48, 2) == "48" && Padded(41, 2) == "41"
  {
    hide Padded;
    FourDigits(2026);
    TwoDigits(2); TwoDigits(20); TwoDigits(15); TwoDigits(48); TwoDigits(41);
  }

  lemma MoreFields(values: seq<nat>, widths: seq<nat>, separators: string, moreValues: seq<nat>, moreWidths: seq<nat>, more: string)
    requires |values| == |widths| == |separators| + 1 && values[1..] == moreValues && widths[1..] == moreWidths
    requires separators != "" ==> separators[1..] == more && |moreValues| == |moreWidths| == |more| + 1
    ensures FormatFields(values, widths, separators)
         == if separators == "" then Padded(values[0], widths[0])
            else Padded(values[0], widths[0]) + ([separators[0]] + FormatFields(moreValues, moreWidths, more))
  {
  }

  // ---------- the documented forms ----------

  /** What users see for each kind. */
  lemma DocumentedNotices(m: Message)
    ensures m.kind.Chat? ==> Display(m) == "[" + FormatTimestamp(m.timestamp) + "][" + m.sender + "]:" + m.content
    ensures m.kind.Join? ==> Display(m) == m.sender + " has joined our chat..."
    ensures m.kind.Leave? ==> Display(m) == m.sender + " has left our chat..."
    ensures m.kind.NameChange? ==> Display(m) == m.extra + " changed their name to " + m.sender
    ensures m.kind.Announcement? ==> Display(m) == "[ANNOUNCEMENT]: " + m.content
    ensures m.kind.Moderation? ==> Display(m) == m.sender + " was " + m.content + " by " + m.extra
  {
    hide FormatTimestamp;
  }

  /** The log line of each kind, for a message of a room. */
  lemma DocumentedLines(m: Message)
    requires m.room != "" && m.kind != ServerEvent
    ensures var lead := "[" + FormatTimestamp(m.timestamp) + "] " + ("@" + m.room + " ");
            FormatLogLine(m) ==
              match m.kind
              case Chat => lead + "CHAT" + " " + ("[" + m.sender + "]:" + m.content)
              case Join => lead + "JOIN" + " " + m.sender
              case Leave => lead + "LEAVE" + " " + (m.sender + " " + if m.extra == "" then "voluntary" else m.extra)
              case NameChange => lead + "NAMECHANGE" + " " + (m.extra + " " + m.sender)
              case Announcement => lead + "ANNOUNCE" + " " + ("[" + m.extra + "]:" + m.content)
              case Moderation => lead + "MOD" + " " + (m.content + " " + m.sender + " " + m.extra)
              case ServerEvent => lead
  {
    hide FormatTimestamp;
  }
}
