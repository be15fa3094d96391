/** Chat events, the text clients see for them, and the daily log line format (models/message.go). */
module Messages {
  import opened Text

  datatype Option<+T> = None | Some(value: T)
  datatype Result<+T, +E> = Ok(value: T) | Err(error: E)

  /** Local civil time. */
  datatype Time = Time(year: nat, month: nat, day: nat, hour: nat, minute: nat, second: nat, nanos: nat) {
    predicate Valid() {
      1 <= month <= 12 && 1 <= day <= DaysIn(year, month)
      && hour < 24 && minute < 60 && second < 60 && nanos < 1_000_000_000
    }

    /** The log keeps whole seconds only. */
    function Seconds(): Time { this.(nanos := 0) }
  }

  function DaysIn(year: nat, month: nat): nat {
    if month == 2 then (if year % 4 == 0 && (year % 100 != 0 || year % 400 == 0) then 29 else 28)
    else if month in {4, 6, 9, 11} then 30 else 31
  }

  datatype Kind = Chat | Join | Leave | NameChange | Announcement | Moderation | ServerEvent

  datatype Message = Message(timestamp: Time, sender: string, content: string, kind: Kind, extra: string, room: string)

  datatype ParseError =
    | EmptyLine | MissingBracket | MalformedTimestamp | InvalidTimestamp | NoContent
    | RoomTagWithoutKeyword | MissingKeyword | UnknownKeyword | InvalidPayload(keyword: string)

  // ---------- names (server/handler.go) ----------

  predicate Printable(s: string) {
    forall c <- s :: 0x21 <= c as int <= 0x7E
  }

  /** What both validateName and validateRoomName accept. */
  predicate ValidName(s: string) {
    s != "" && |s| <= 32 && Printable(s)
  }

  /** The room that always exists (server/server.go). */
  const DEFAULT_ROOM := "general"

  // ---------- rendering ----------

  function FormatFields(values: seq<nat>, widths: seq<nat>, separators: string): string
    requires |values| == |widths| == |separators| + 1
  {
    if separators == "" then Padded(values[0], widths[0])
    else Padded(values[0], widths[0]) + ([separators[0]] + FormatFields(values[1..], widths[1..], separators[1..]))
  }

  const TIME_SEPARATORS := "-- ::"

  function FormatTimestamp(t: Time): string {
    FormatFields([t.year, t.month, t.day, t.hour, t.minute, t.second], [4, 2, 2, 2, 2, 2], TIME_SEPARATORS)
  }

  function FormatDate(t: Time): string {
    FormatFields([t.year, t.month, t.day], [4, 2, 2], "--")
  }

  function FormatChat(t: Time, username: string, content: string): string {
    "[" + FormatTimestamp(t) + "][" + username + "]:" + content
  }

  function FormatJoin(username: string): string { username + " has joined our chat..." }

  function FormatLeave(username: string): string { username + " has left our chat..." }

  function FormatNameChange(oldName: string, newName: string): string { oldName + " changed their name to " + newName }

  function FormatAnnouncement(message: string): string { "[ANNOUNCEMENT]: " + message }

  function FormatModeration(target: string, action: string, admin: string): string {
    target + " was " + action + " by " + admin
  }

  /** What a client sees. */
  function Display(m: Message): string {
    match m.kind
    case Chat => FormatChat(m.timestamp, m.sender, m.content)
    case Join => FormatJoin(m.sender)
    case Leave => FormatLeave(m.sender)
    case NameChange => FormatNameChange(m.extra, m.sender)
    case Announcement => FormatAnnouncement(m.content)
    case Moderation => FormatModeration(m.sender, m.content, m.extra)
    case ServerEvent => m.content
  }

  function Keyword(kind: Kind): string {
    match kind
    case Chat => "CHAT"
    case Join => "JOIN"
    case Leave => "LEAVE"
    case NameChange => "NAMECHANGE"
    case Announcement => "ANNOUNCE"
    case Moderation => "MOD"
    case ServerEvent => "SERVER"
  }

  function RoomTag(m: Message): string {
    if m.kind != ServerEvent && m.room != "" then "@" + m.room + " " else ""
  }

  function LeaveReason(extra: string): string {
    if extra != "" then extra else "voluntary"
  }

  /** The part of a log line behind the keyword and its blank. */
  function Payload(m: Message): string {
    match m.kind
    case Chat => "[" + m.sender + "]:" + m.content
    case Join => m.sender
    case Leave => m.sender + " " + LeaveReason(m.extra)
    case NameChange => m.extra + " " + m.sender
    case Announcement => "[" + m.extra + "]:" + m.content
    case Moderation => m.content + " " + m.sender + " " + m.extra
    case ServerEvent => m.content
  }

  function FormatLogLine(m: Message): string {
    "[" + FormatTimestamp(m.timestamp) + "] " + RoomTag(m) + Keyword(m.kind) + " " + Payload(m)
  }

  // ---------- parsing ----------

  function ReadFields(s: string, separators: string): (r: Option<(seq<nat>, string)>)
    ensures r.Some? ==> |r.value.0| == |separators| + 1
    decreases |separators|
  {
    var k := DigitRun(s);
    if k == 0 then None
    else if separators == "" then Some(([Value(s[..k])], s[k..]))
    else if k == |s| || s[k] != separators[0] then None
    else
      match ReadFields(s[k + 1..], separators[1..])
      case None => None
      case Some((values, rest)) => Some(([Value(s[..k])] + values, rest))
  }

  function ReadTimestamp(s: string): Option<Time> {
    match ReadFields(s, TIME_SEPARATORS)
    case None => None
    case Some((v, _)) =>
      var t := Time(v[0], v[1], v[2], v[3], v[4], v[5], 0);
      if t.Valid() then Some(t) else None
  }

  function ParseTimestamp(line: string): Result<(Time, string), ParseError>
    requires line != ""
  {
    if line[0] != '[' then Err(MissingBracket)
    else
      var close := IndexOf(line, ']');
      if close < 2 then Err(MalformedTimestamp)
      else
        match ReadTimestamp(line[1..close])
        case None => Err(InvalidTimestamp)
        case Some(t) => if close + 2 >= |line| then Err(NoContent) else Ok((t, line[close + 2..]))
  }

  function ParseRoomTag(rest: string): Result<(string, string), ParseError> {
    if rest == "" || rest[0] != '@' then Ok(("", rest))
    else
      var blank := IndexOf(rest, ' ');
      if blank < 0 then Err(RoomTagWithoutKeyword) else Ok((rest[1..blank], rest[blank + 1..]))
  }

  function SplitKeyword(rest: string): Result<(string, string), ParseError> {
    if rest == "" then Err(MissingKeyword)
    else
      var blank := IndexOf(rest, ' ');
      if blank < 0 then Ok((rest, "")) else Ok((rest[..blank], rest[blank + 1..]))
  }

  function ParseBracketed(payload: string, keyword: string): Result<(string, string), ParseError> {
    if |payload| < 3 || payload[0] != '[' then Err(InvalidPayload(keyword))
    else
      var k := IndexOfClose(payload);
      if k < 0 then Err(InvalidPayload(keyword)) else Ok((payload[1..k], payload[k + 2..]))
  }

  /** Which parser a keyword selects. */
  function KindOf(keyword: string): Option<Kind> {
    if keyword == "CHAT" then Some(Chat)
    else if keyword == "JOIN" then Some(Join)
    else if keyword == "LEAVE" then Some(Leave)
    else if keyword == "NAMECHANGE" then Some(NameChange)
    else if keyword == "ANNOUNCE" then Some(Announcement)
    else if keyword == "MOD" then Some(Moderation)
    else if keyword == "SERVER" then Some(ServerEvent)
    else None
  }

  function ParsePayload(kind: Kind, t: Time, payload: string, room: string): Result<Message, ParseError> {
    match kind
    case Chat =>
      (match ParseBracketed(payload, "CHAT")
       case Err(e) => Err(e)
       case Ok((sender, content)) => Ok(Message(t, sender, content, Chat, "", room)))
    case Join => Ok(Message(t, payload, "", Join, "", room))
    case Leave =>
      var k := IndexOf(payload, ' ');
      Ok(if k < 0 then Message(t, payload, "", Leave, "voluntary", room)
         else Message(t, payload[..k], "", Leave, payload[k + 1..], room))
    case NameChange =>
      var k := IndexOf(payload, ' ');
      if k < 0 then Err(InvalidPayload("NAMECHANGE"))
      else Ok(Message(t, payload[k + 1..], "", NameChange, payload[..k], room))
    case Announcement =>
      (match ParseBracketed(payload, "ANNOUNCE")
       case Err(e) => Err(e)
       case Ok((announcer, content)) => Ok(Message(t, "", content, Announcement, announcer, room)))
    case Moderation =>
      var k := IndexOf(payload, ' ');
      if k < 0 then Err(InvalidPayload("MOD"))
      else
        var tail := payload[k + 1..];
        var j := IndexOf(tail, ' ');
        if j < 0 then Err(InvalidPayload("MOD"))
        else Ok(Message(t, tail[..j], payload[..k], Moderation, tail[j + 1..], room))
    case ServerEvent => Ok(Message(t, "", payload, ServerEvent, "", ""))
  }

  function ParseTrimmed(line: string): Result<Message, ParseError>
    requires line != ""
  {
    match ParseTimestamp(line)
    case Err(e) => Err(e)
    case Ok((t, rest)) =>
      match ParseRoomTag(rest)
      case Err(e) => Err(e)
      case Ok((room, tagged)) =>
        match SplitKeyword(tagged)
        case Err(e) => Err(e)
        case Ok((keyword, payload)) =>
          match KindOf(keyword)
          case None => Err(UnknownKeyword)
          case Some(kind) => ParsePayload(kind, t, payload, room)
  }

  function ParseLogLine(text: string): Result<Message, ParseError> {
    var line := TrimSpace(text);
    if line == "" then Err(EmptyLine) else ParseTrimmed(line)
  }

  // ---------- what survives the log ----------

  /** Messages the server produces: valid names, a room tag that is empty or valid, and no empty log fields. */
  predicate Loggable(m: Message) {
    m.timestamp.Valid() && (m.room == "" || ValidName(m.room))
    && match m.kind
       case Chat => ValidName(m.sender)
       case Join => ValidName(m.sender)
       case Leave => ValidName(m.sender)
       case NameChange => ValidName(m.sender) && ValidName(m.extra)
       case Announcement => ValidName(m.extra)
       case Moderation => ValidName(m.sender) && ValidName(m.content) && ValidName(m.extra)
       case ServerEvent => true
  }

  /** The name and text the parser sees in a trimmed `name]:text`: it splits at the first `]:`. */
  function Resplit(name: string, text: string): (r: (string, string))
    ensures r.0 + "]:" + r.1 == name + "]:" + TrimRight(text)
  {
    var all := name + "]:" + TrimRight(text);
    var k := IndexOfClose(all);
    assert ClosesAt(all, |name|);
    (all[..k], all[k + 2..])
  }

  /** The message the log gives back. */
  function Recovered(m: Message): Message {
    var t := m.timestamp.Seconds();
    match m.kind
    case Chat =>
      var (sender, content) := Resplit(m.sender, m.content);
      Message(t, sender, content, Chat, "", m.room)
    case Join => Message(t, m.sender, "", Join, "", m.room)
    case Leave =>
      var reason := TrimRight(m.extra);
      Message(t, m.sender, "", Leave, LeaveReason(reason), m.room)
    case NameChange => Message(t, m.sender, "", NameChange, m.extra, m.room)
    case Announcement =>
      var (announcer, content) := Resplit(m.extra, m.content);
      Message(t, "", content, Announcement, announcer, m.room)
    case Moderation => Message(t, m.sender, m.content, Moderation, m.extra, m.room)
    case ServerEvent => Message(t, "", TrimRight(m.content), ServerEvent, "", "")
  }

  /** The message with only the losses the format intends: fractions of a second, trailing blanks, unused fields. */
  function Normalised(m: Message): Message {
    var t := m.timestamp.Seconds();
    match m.kind
    case Chat => Message(t, m.sender, TrimRight(m.content), Chat, "", m.room)
    case Announcement => Message(t, "", TrimRight(m.content), Announcement, m.extra, m.room)
    case Join => Recovered(m)
    case Leave => Recovered(m)
    case NameChange => Recovered(m)
    case Moderation => Recovered(m)
    case ServerEvent => Recovered(m)
  }

  // ---------- the timestamp ----------

  lemma {:induction false} FormattedChars(values: seq<nat>, widths: seq<nat>, separators: string)
    requires |values| == |widths| == |separators| + 1
    ensures forall c <- FormatFields(values, widths, separators) :: IsDigit(c) || c in separators
  {
    if separators != "" {
      FormattedChars(values[1..], widths[1..], separators[1..]);
    }
  }

  /** Reading zero-padded fields back gives the numbers printed, whatever their widths. */
  lemma {:induction false} ReadFormatted(values: seq<nat>, widths: seq<nat>, separators: string, rest: string)
    requires |values| == |widths| == |separators| + 1
    requires forall c <- separators :: !IsDigit(c)
    requires rest == "" || !IsDigit(rest[0])
    ensures ReadFields(FormatFields(values, widths, separators) + rest, separators) == Some((values, rest))
  {
    var head := Padded(values[0], widths[0]);
    ValueOfPadded(values[0], widths[0]);
    hide Padded, Value, DigitRun;
    if separators == "" {
      ReadLast(values[0], head, rest);
      assert values == [values[0]];
    } else {
      var more := FormatFields(values[1..], widths[1..], separators[1..]);
      ReadFormatted(values[1..], widths[1..], separators[1..], rest);
      ReadNext(head, separators, more + rest);
      Assoc([separators[0]], more, rest);
      Assoc(head, [separators[0]] + more, rest);
      assert values == [values[0]] + values[1..];
    }
  }

  lemma ReadLast(value: nat, digits: string, rest: string)
    requires digits != "" && (forall c <- digits :: IsDigit(c)) && Value(digits) == value
    requires rest == "" || !IsDigit(rest[0])
    ensures ReadFields(digits + rest, "") == Some(([value], rest))
  {
    DigitRunConcat(digits, rest);
    Cut(digits, "", rest);
    assert digits + "" == digits;
  }

  lemma ReadNext(digits: string, separators: string, rest: string)
    requires digits != "" && forall c <- digits :: IsDigit(c)
    requires separators != "" && !IsDigit(separators[0])
    ensures ReadFields(digits + ([separators[0]] + rest), separators)
         == (match ReadFields(rest, separators[1..])
             case None => None
             case Some((values, more)) => Some(([Value(digits)] + values, more)))
  {
    hide Value;
    var tail := [separators[0]] + rest;
    DigitRunConcat(digits, tail);
    Cut(digits, [separators[0]], rest);
    Assoc(digits, [separators[0]], rest);
  }

  /** A printed timestamp reads back to the second. */
  lemma TimestampRoundTrip(t: Time)
    requires t.Valid()
    ensures ReadTimestamp(FormatTimestamp(t)) == Some(t.Seconds())
  {
    var s := FormatTimestamp(t);
    ReadFormatted([t.year, t.month, t.day, t.hour, t.minute, t.second], [4, 2, 2, 2, 2, 2], TIME_SEPARATORS, "");
    assert s + "" == s;
  }

  lemma TimestampShape(t: Time)
    ensures |FormatTimestamp(t)| >= 6
    ensures forall c <- FormatTimestamp(t) :: IsDigit(c) || c in TIME_SEPARATORS
  {
    var values, widths := [t.year, t.month, t.day, t.hour, t.minute, t.second], [4, 2, 2, 2, 2, 2];
    FormattedChars(values, widths, TIME_SEPARATORS);
    FormatFieldsNonEmpty(values, widths, TIME_SEPARATORS);
  }

  lemma FormatFieldsNonEmpty(values: seq<nat>, widths: seq<nat>, separators: string)
    requires |values| == |widths| == |separators| + 1
    ensures |FormatFields(values, widths, separators)| >= 2 * |separators| + 1
  {
  }
}
