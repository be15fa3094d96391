/** Who is heard: exactly which lines become chats, who gets them, and who has been silenced (server/commands.go,
    operator.go). */
module Speech {
  import opened Text
  import opened Messages
  import opened ServerState
  import opened Commands
  import opened Sections
  import opened Scripts
  import opened Capacity
  import opened Atomic
  import opened Lift

  predicate Blank(line: string) { forall c <- line :: IsSpace(c) }

  lemma {:induction false} LeftBlank(s: string)
    ensures TrimLeft(s) == "" <==> Blank(s)
  {
    hide IsSpace;
    if s != "" {
      assert s == [s[0]] + s[1..];
      LeftBlank(s[1..]);
      assert s[0] in s;
    }
  }

  lemma {:induction false} RightBlank(s: string)
    ensures TrimRight(s) == "" <==> Blank(s)
  {
    hide IsSpace;
    if s != "" {
      assert s == s[..|s| - 1] + [s[|s| - 1]];
      RightBlank(s[..|s| - 1]);
      assert s[|s| - 1] in s;
    }
  }

  /** Trimming leaves nothing exactly of a blank line. */
  lemma TrimmedBlank(s: string)
    ensures TrimSpace(s) == "" <==> Blank(s)
  {
    hide IsSpace;
    LeftBlank(s);
    RightBlank(TrimLeft(s));
    if TrimLeft(s) != "" { assert TrimLeft(s)[0] in TrimLeft(s); }
  }

  /** The line is a chat: not blank, at most 2048 bytes, and its writer not muted. */
  predicate Heard(s: Server, id: ConnId, line: string) {
    !ClientOf(s, id).muted && !Blank(line) && ByteLen(line) <= 2048
  }

  /** A line in a session: if it is a chat, exactly one event is added, to the history of the writer's room and to the
      log, with the writer's name and the line as typed, and exactly the members of that room but those under the
      writer's name are sent it; otherwise nothing changes at all. */
  lemma SayExactly(s: Server, id: ConnId, line: string, now: Moment)
    ensures var c, t := ClientOf(s, id), Step(s, Say(id, line), now);
            var e := Event(s.stamps, Message(now.time, c.username, line, Chat, "", c.room));
            if Heard(s, id, line) then
              && (forall room :: History(t, room) == History(s, room) + if room == c.room then [e] else [])
              && t.log == s.log + [e.msg]
              && (forall x, d :: (x, d) in t.heard <==>
                   (x, d) in s.heard || (d == e && exists name :: name in Members(s, c.room) && name != c.username && Members(s, c.room)[name] == x))
              && (forall room :: Members(t, room) == Members(s, room) && Queue(t, room) == Queue(s, room))
              && t.conns == s.conns && t.clients == s.clients && t.admitted == s.admitted
            else t == s
  {
    hide TrimSpace, ByteLen, Blank;
    TrimmedBlank(line);
    if Heard(s, id, line) { SaidOnce(s, id, line, now); }
  }

  lemma SaidOnce(s: Server, id: ConnId, line: string, now: Moment)
    ensures var c := ClientOf(s, id);
            var t := Publish(s, c.room, Note(now, Chat, c.username, line, ""), c.username);
            var e := Event(s.stamps, Message(now.time, c.username, line, Chat, "", c.room));
            && (forall room :: History(t, room) == History(s, room) + if room == c.room then [e] else [])
            && t.log == s.log + [e.msg]
            && (forall x, d :: (x, d) in t.heard <==>
                 (x, d) in s.heard || (d == e && exists name :: name in Members(s, c.room) && name != c.username && Members(s, c.room)[name] == x))
            && (forall room :: Members(t, room) == Members(s, room) && Queue(t, room) == Queue(s, room))
            && t.conns == s.conns && t.clients == s.clients && t.admitted == s.admitted
  {
    var c := ClientOf(s, id);
    var m := Note(now, Chat, c.username, line, "");
    var r := Record(s, c.room, m);
    assert Members(r, c.room) == Members(s, c.room);
    HeardBy(r, c.room, EventOf(s, c.room, m), c.username);
  }

  lemma HeardBy(s: Server, room: string, e: Event, exclude: string)
    ensures var t := BroadcastRoom(s, room, e, exclude);
            && t == s.(heard := t.heard)
            && forall x, d :: (x, d) in t.heard <==>
                 (x, d) in s.heard || (d == e && exists name :: name in Members(s, room) && name != exclude && Members(s, room)[name] == x)
  {
    hide Members;
  }

  // ---------- muting ----------

  /** The step mutes or unmutes this connection, an admin's or the operator's command naming it. */
  predicate Mutes(s: Server, a: Action, id: ConnId) {
    match a
    case SetMute(who, args, _) => ClientOf(s, who).admin && args != "" && args in s.clients && s.clients[args] == id
    case OperatorSetMute(args, _) => args != "" && args in s.clients && s.clients[args] == id
    case _ => false
  }

  predicate Word(a: Action) { (a.SetMute? || a.OperatorSetMute?) && a.on }

  /** Nobody's mute changes. */
  ghost predicate SameMutes(s: Server, t: Server) { forall id :: ClientOf(t, id).muted == ClientOf(s, id).muted }

  lemma EffectMutes(s: Server, w: Work, choice: Choice)
    ensures SameMutes(s, Effect(s, w, choice))
  {
    hide Effect, CanRekey;
    EffectConns(s, w, choice);
  }

  lemma {:induction false} RunMutes(s: Server, ws: seq<Work>, choices: seq<Choice>, now: Moment)
    ensures SameMutes(s, RunSections(s, ws, choices, now).0)
    decreases |choices|
  {
    hide Effect, Next;
    if choices != [] && ws != [] {
      EffectMutes(s, ws[0], choices[0]);
      RunMutes(Effect(s, ws[0], choices[0]), Next(s, ws[0], choices[0], now) + ws[1..], choices[1..], now);
    }
  }

  lemma OneMute(s: Server, t: Server, id: ConnId)
    requires t.conns == s.conns[id := ClientOf(t, id)] && ClientOf(t, id).muted == ClientOf(s, id).muted
    ensures SameMutes(s, t)
  {
    forall x ensures ClientOf(t, x).muted == ClientOf(s, x).muted { }
  }

  lemma ArrivalMutes(s: Server, a: Action, now: Moment)
    requires Enabled(s, a, now) && (a.Connect? || a.EnterName? || a.Answer?)
    ensures SameMutes(s, StartEffect(s, a, now))
  {
    hide SameMutes, ValidName, IsBlocked, GiveUpStep, TrimSpace, Reserved;
    var t := StartEffect(s, a, now);
    if a.Connect? { Unblocked(s, a.host, now.clock); }
    assert t.conns == s.conns ==> SameMutes(s, t) by { if t.conns == s.conns { AllMute(s, t); } }
    if t.conns != s.conns { OneMute(s, t, a.id); }
  }

  lemma Unblocked(s: Server, host: string, clock: int)
    ensures IsBlocked(s, host, clock).0.conns == s.conns
  {
  }

  lemma AllMute(s: Server, t: Server)
    requires t.conns == s.conns
    ensures SameMutes(s, t)
  {
  }

  lemma FlagMutes(s: Server, name: string, on: bool)
    requires name in s.clients
    ensures SameMutes(s, SetAdmin(s, name, on))
    ensures forall id :: ClientOf(SetMuted(s, name, on), id).muted == if id == s.clients[name] then on else ClientOf(s, id).muted
  {
  }

  lemma FlagStartMutes(s: Server, a: Action, now: Moment, id: ConnId)
    requires a.SetMute? || a.OperatorSetMute? || a.OperatorPromote? || a.OperatorDemote?
    ensures ClientOf(StartEffect(s, a, now), id).muted == if Mutes(s, a, id) then Word(a) else ClientOf(s, id).muted
  {
    hide SetMuted, SetAdmin;
    var on := if a.OperatorPromote? then true else if a.OperatorDemote? then false else a.on;
    if a.args in s.clients { FlagMutes(s, a.args, on); }
  }

  lemma StartMutes(s: Server, a: Action, now: Moment, id: ConnId)
    requires Enabled(s, a, now)
    ensures ClientOf(StartEffect(s, a, now), id).muted == if Mutes(s, a, id) then Word(a) else ClientOf(s, id).muted
  {
    if a.SetMute? || a.OperatorSetMute? || a.OperatorPromote? || a.OperatorDemote? {
      hide *;
      FlagStartMutes(s, a, now, id);
    } else if a.Connect? || a.EnterName? || a.Answer? {
      hide StartEffect, Enabled;
      ArrivalMutes(s, a, now);
    } else if a.Leave? || a.Sever? {
      hide Enabled;
      EndMutes(s, a, now, id);
    } else {
      hide Enabled;
      PlainMutes(s, a, now);
    }
  }

  lemma EndMutes(s: Server, a: Action, now: Moment, id: ConnId)
    requires a.Leave? || a.Sever?
    ensures ClientOf(StartEffect(s, a, now), id).muted == ClientOf(s, id).muted
  {
    hide SetReason;
    SameVoice(ClientOf(s, a.id), a.drop);
  }

  lemma PlainMutes(s: Server, a: Action, now: Moment)
    requires !a.SetMute? && !a.OperatorSetMute? && !a.OperatorPromote? && !a.OperatorDemote?
    requires !a.Connect? && !a.EnterName? && !a.Answer? && !a.Leave? && !a.Sever?
    ensures SameMutes(s, StartEffect(s, a, now)) && forall id :: !Mutes(s, a, id)
  {
    hide ClearHistory;
    if a.Midnight? { ClearConns(s); }
  }

  lemma ClearConns(s: Server)
    ensures ClearHistory(s).conns == s.conns
  {
  }

  lemma SameVoice(c: Client, drop: bool)
    ensures SetReason(c, drop).muted == c.muted
  {
  }

  /** In every step exactly the mute commands change who is muted, and each exactly the connection it names. */
  lemma StepMutes(s: Server, a: Action, now: Moment, id: ConnId)
    requires Enabled(s, a, now)
    ensures ClientOf(Step(s, a, now), id).muted == if Mutes(s, a, id) then Word(a) else ClientOf(s, id).muted
  {
    hide Enabled, Step, StartEffect, StartWork, RunSections, LegalRun;
    SectionsMakeStep(s, a, now);
    var choices :| LegalRun(StartEffect(s, a, now), StartWork(s, a, now), choices, now)
                   && RunSections(StartEffect(s, a, now), StartWork(s, a, now), choices, now) == (Step(s, a, now), []);
    StartMutes(s, a, now, id);
    RunMutes(StartEffect(s, a, now), StartWork(s, a, now), choices, now);
  }

  /** What the last mute command of the run for this connection said. */
  function LastWord(s: Server, run: Run, id: ConnId, before: bool): bool
    decreases |run|
  {
    if run == [] then before
    else LastWord(Step(s, run[0].0, run[0].1), run[1..], id, if Mutes(s, run[0].0, id) then Word(run[0].0) else before)
  }

  lemma {:induction false} MutedExactly(s: Server, run: Run, id: ConnId)
    requires Possible(s, run)
    ensures ClientOf(After(s, run), id).muted == LastWord(s, run, id, ClientOf(s, id).muted)
    decreases |run|
  {
    hide Enabled, Step, Mutes, Word;
    if run != [] {
      StepMutes(s, run[0].0, run[0].1, id);
      MutedExactly(Step(s, run[0].0, run[0].1), run[1..], id);
    }
  }

  /** From a fresh server, over any run: a line is a chat if and only if it is not blank, has at most 2048 bytes, and the
      last mute command for its writer, if any, was an unmute. Then exactly one event is added anywhere; otherwise none. */
  lemma WhoIsHeard(admins: set<string>, run: Run, id: ConnId, line: string, now: Moment)
    requires Possible(Fresh(admins), run) && Enabled(After(Fresh(admins), run), Say(id, line), now)
    ensures var s := After(Fresh(admins), run);
            var t := Step(s, Say(id, line), now);
            var chat := !LastWord(Fresh(admins), run, id, false) && !Blank(line) && ByteLen(line) <= 2048;
            && (chat <==> exists room :: History(t, room) != History(s, room))
            && t.log == s.log + (if chat then [Message(now.time, ClientOf(s, id).username, line, Chat, "", ClientOf(s, id).room)] else [])
            && (!chat ==> t == s)
  {
    hide Possible, After, Enabled, Step, Blank, ByteLen, LastWord;
    var s := After(Fresh(admins), run);
    MutedExactly(Fresh(admins), run, id);
    assert !ClientOf(Fresh(admins), id).muted;
    SayExactly(s, id, line, now);
    var t, room := Step(s, Say(id, line), now), ClientOf(s, id).room;
    if Heard(s, id, line) { assert |History(t, room)| == |History(s, room)| + 1; } else { assert s.log + [] == s.log; }
  }
}
