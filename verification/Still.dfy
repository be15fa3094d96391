/** Commands that take nobody out: they admit nobody, delete no room and touch no address block (server/commands.go,
    handler.go, operator.go). */
module Still {
  import opened Text
  import opened Messages
  import opened ServerState
  import opened Commands
  import opened Ownership
  import opened Sections
  import opened Scripts
  import opened Capacity
  import opened Lift
  import opened Atomic

  /** A section of a command that takes nobody out. */
  predicate Calm(w: Work) {
    !w.Tidy? && !w.CheckSwitch? && !w.CheckCreate? && !w.Refill? && !w.RefillAny? && !w.Gather? && !w.Collateral? && !w.Cool? && !w.Forbid?
    && !w.Mark? && !w.Sweep?
  }

  predicate AllCalm(ws: seq<Work>) { forall w <- ws :: Calm(w) }

  predicate Removes(a: Action) {
    a.Switch? || a.Create? || a.Leave? || a.Kick? || a.Ban? || a.OperatorKick? || a.OperatorBan?
  }

  predicate SameBlocks(s: Server, t: Server) { t.banned == s.banned && t.kicked == s.kicked && t.shuttingDown == s.shuttingDown }

  /** Nobody is admitted, no room goes, no block changes. */
  predicate Keeps(s: Server, t: Server) { SameBlocks(s, t) && t.admitted == s.admitted && s.rooms.Keys <= t.rooms.Keys }

  lemma CalmConcat(a: seq<Work>, b: seq<Work>)
    requires AllCalm(a) && AllCalm(b)
    ensures AllCalm(a + b)
  {
    hide Calm;
  }

  lemma CalmTail(ws: seq<Work>)
    requires ws != [] && AllCalm(ws)
    ensures Calm(ws[0]) && AllCalm(ws[1..])
  {
    hide Calm;
    assert ws[0] in ws && forall w <- ws[1..] :: w in ws;
  }

  lemma CalmNext(s: Server, w: Work, choice: Choice, now: Moment)
    requires Calm(w)
    ensures AllCalm(Next(s, w, choice, now))
  {
    hide HasCapacity, CanRekey, Note, EventOf;
  }

  lemma IndexesKeep(s: Server, id: ConnId, room: string, name: string)
    ensures Keeps(s, JoinRoom(s, id, room)) && Keeps(s, RemoveClient(s, name)) && Keeps(s, RenameAdmin(s, name, room))
  {
  }

  lemma RekeyKeeps(s: Server, id: ConnId, name: string)
    ensures Keeps(s, RenameClient(s, id, ClientOf(s, id).username, name).0)
  {
    hide Reserved;
  }

  lemma QueuesKeep(s: Server, id: ConnId, room: string, ticket: nat)
    ensures Keeps(s, Enqueue(s, id, room)) && Keeps(s, RemoveFromQueue(s, room, ticket))
  {
    hide Renumber, WithoutTicket;
  }

  lemma CalmEffect(s: Server, w: Work, choice: Choice)
    requires Calm(w)
    ensures Keeps(s, Effect(s, w, choice))
  {
    hide Enqueue, RemoveFromQueue, JoinRoom, RemoveClient, RenameClient, RenameAdmin;
    if w.Move? { IndexesKeep(s, w.id, w.room, ""); }
    else if w.Rekey? { RekeyKeeps(s, w.id, w.name); }
    else if w.Unregister? { IndexesKeep(s, 0, "", w.name); }
    else if w.AdminRekey? { IndexesKeep(s, 0, w.newName, w.oldName); }
    else if w.Line? { QueuesKeep(s, w.id, w.room, 0); }
    else if w.Dequeue? { QueuesKeep(s, 0, w.room, w.ticket); }
  }

  lemma {:induction false} CalmRun(s: Server, ws: seq<Work>, choices: seq<Choice>, now: Moment)
    requires AllCalm(ws)
    ensures Keeps(s, RunSections(s, ws, choices, now).0)
    decreases |choices|
  {
    hide AllCalm, Effect, Next, Calm;
    if choices != [] && ws != [] {
      CalmTail(ws);
      CalmEffect(s, ws[0], choices[0]);
      CalmNext(s, ws[0], choices[0], now);
      var more := Next(s, ws[0], choices[0], now);
      CalmConcat(more, ws[1..]);
      CalmRun(Effect(s, ws[0], choices[0]), more + ws[1..], choices[1..], now);
    }
  }

  lemma {:induction false} CalmJots(rooms: seq<string>, m: Message)
    ensures AllCalm(Jots(rooms, m))
  {
    if rooms != [] { CalmJots(rooms[..|rooms| - 1], m); }
  }

  lemma CalmLists(s: Server, id: ConnId, room: string, now: Moment)
    ensures AllCalm(Entering(s, id, room, now)) && AllCalm(GivingUp(s, id)) && AllCalm([])
  {
    hide Note;
  }

  lemma CalmFlagged(s: Server, args: string, same: bool, verb: string, issuer: string, now: Moment)
    requires args in s.clients
    ensures AllCalm(Flagged(s, args, same, verb, issuer, now))
  {
    hide Note;
  }

  lemma CalmSingle(w: Work)
    requires Calm(w)
    ensures AllCalm([w])
  {
  }

  lemma CalmStart(s: Server, a: Action, now: Moment)
    requires !Removes(a)
    ensures AllCalm(StartWork(s, a, now))
  {
    hide AllCalm, Entering, GivingUp, Flagged, Jots, Note, TrimSpace, ValidName, ByteLen, Reserved;
    CalmLists(s, 0, "", now);
    match a
    case ChooseRoom(id, line) =>
      CalmLists(s, id, "", now);
      CalmSingle(Check(id, if TrimSpace(line) == "" then DEFAULT_ROOM else TrimSpace(line)));
    case Answer(id, line) => CalmLists(s, id, "", now);
    case TakeSlot(id) => if ClientOf(s, id).stage.Waiting? { CalmLists(s, id, ClientOf(s, id).stage.room, now); }
    case GiveUp(id) => CalmLists(s, id, "", now);
    case Say(id, line) => var c := ClientOf(s, id); CalmSingle(Post(c.room, Note(now, Chat, c.username, line, ""), c.username));
    case Rename(id, args) => CalmSingle(Rekey(id, args));
    case SetMute(id, args, on) =>
      if args in s.clients { CalmFlagged(s, args, ClientOf(s, s.clients[args]).muted == on, if on then "muted" else "unmuted", ClientOf(s, id).username, now); }
    case OperatorSetMute(args, on) =>
      if args in s.clients { CalmFlagged(s, args, ClientOf(s, s.clients[args]).muted == on, if on then "muted" else "unmuted", "Server", now); }
    case OperatorPromote(args) => if args in s.clients { CalmFlagged(s, args, ClientOf(s, s.clients[args]).admin, "promoted", "Server", now); }
    case OperatorDemote(args) => if args in s.clients { CalmFlagged(s, args, !ClientOf(s, s.clients[args]).admin, "demoted", "Server", now); }
    case Announce(id, args, names) => CalmJots(names, Note(now, Announcement, "", args, ClientOf(s, id).username));
    case OperatorAnnounce(args, names) => CalmJots(names, Note(now, Announcement, "", args, "Server"));
    case _ =>
  }

  /** Reading a command changes no block but an expired cooldown of the host that connects, and only the shutdown sets its
      flag. */
  lemma StartKeeps(s: Server, a: Action, now: Moment)
    requires Enabled(s, a, now)
    ensures var t := StartEffect(s, a, now);
            && t.banned == s.banned && t.admitted == s.admitted && s.rooms.Keys <= t.rooms.Keys
            && t.shuttingDown == (s.shuttingDown || a.BeginShutdown?)
            && t.kicked == if a.Connect? then IsBlocked(s, a.host, now.clock).0.kicked else s.kicked
  {
    hide SubmitName, AcceptConnection, AnswerStep, ClearHistory, TrimSpace, SetReason, PossibleOrder, Enumerates, IsBlocked, SetMuted, SetAdmin, WithClient;
    match a
    case Connect(id, host) => ConnectKeeps(s, id, host, now);
    case EnterName(id, name) => NameKeeps(s, id, name);
    case Answer(id, line) => YesKeeps(s, id, line);
    case Midnight => ClearKeeps(s);
    case SetMute(_, args, on) => if args in s.clients { FlagKeeps(s, args, on); }
    case OperatorSetMute(args, on) => if args in s.clients { FlagKeeps(s, args, on); }
    case OperatorPromote(args) => if args in s.clients { FlagKeeps(s, args, true); }
    case OperatorDemote(args) => if args in s.clients { FlagKeeps(s, args, false); }
    case Leave(id, drop) => OneClientKeeps(s, id, SetReason(ClientOf(s, id), drop));
    case Sever(id, drop) => OneClientKeeps(s, id, SetReason(ClientOf(s, id), drop).(closed := true));
    case _ =>
  }

  lemma FlagKeeps(s: Server, name: string, on: bool)
    requires name in s.clients
    ensures Keeps(s, SetMuted(s, name, on)) && Keeps(s, SetAdmin(s, name, on))
  {
  }

  lemma OneClientKeeps(s: Server, id: ConnId, c: Client)
    ensures Keeps(s, WithClient(s, id, c))
  {
  }

  lemma ConnectKeeps(s: Server, id: ConnId, host: string, now: Moment)
    ensures var t := AcceptConnection(s, id, host, now);
            t.banned == s.banned && t.kicked == IsBlocked(s, host, now.clock).0.kicked && t.admitted == s.admitted && t.rooms == s.rooms
            && t.shuttingDown == s.shuttingDown
  {
  }

  lemma NameKeeps(s: Server, id: ConnId, name: string)
    ensures Keeps(s, SubmitName(s, id, name))
  {
    hide ValidName;
  }

  lemma YesKeeps(s: Server, id: ConnId, line: string)
    ensures TrimSpace(line) == "yes" ==> Keeps(s, AnswerStep(s, id, line))
  {
    hide TrimSpace, GiveUpStep;
  }

  lemma ClearKeeps(s: Server)
    ensures Keeps(s, ClearHistory(s))
  {
  }

  /** Every other command keeps admissions, rooms and blocks; a connect may delete its own host's expired cooldown, and the
      shutdown sets its flag. */
  lemma StillStep(s: Server, a: Action, now: Moment)
    requires Enabled(s, a, now) && !Removes(a)
    ensures var t := Step(s, a, now);
            && t.banned == s.banned && t.admitted == s.admitted && s.rooms.Keys <= t.rooms.Keys
            && t.shuttingDown == (s.shuttingDown || a.BeginShutdown?)
            && t.kicked == if a.Connect? then IsBlocked(s, a.host, now.clock).0.kicked else s.kicked
  {
    hide Enabled, Step, StartEffect, StartWork, RunSections, LegalRun, AllCalm, IsBlocked;
    SectionsMakeStep(s, a, now);
    var choices :| LegalRun(StartEffect(s, a, now), StartWork(s, a, now), choices, now)
                   && RunSections(StartEffect(s, a, now), StartWork(s, a, now), choices, now) == (Step(s, a, now), []);
    CalmStart(s, a, now);
    StartKeeps(s, a, now);
    CalmRun(StartEffect(s, a, now), StartWork(s, a, now), choices, now);
  }
}
