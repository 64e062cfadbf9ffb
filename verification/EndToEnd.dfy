/** The game server together with the control plane it calls: match rows, resume tokens and
    stored games. When players are who their tickets say, join under the colour they were
    given, and do not crowd one another's seats, what is stored is what was broadcast. */
module EndToEnd {
  import opened Wrappers
  import opened ChessRules
  import opened Seats
  import opened Session
  import opened SessionFrames
  import opened SessionInvariants
  import opened SessionHistory
  import opened Seating
  import opened Announcements
  import Tokens = ResumeTokens
  import Records = GameRecords
  import Strings

  type MatchRow = Records.MatchRow
  type GameRow = Records.GameRow

  /** `joins` counts the tokens made for joins; `filed` are the reports behind the stored
      games, one for each. */
  datatype System = System(
    session: State,
    store: Tokens.Store,
    joins: nat,
    tables: Records.Tables,
    filed: seq<Job>)

  const Start := System(Initial, Tokens.EmptyStore, 0, Records.Empty, [])

  /** A call can be lost before it is served (`served` false) or on the way back
      (`answered` false); the game server then sees a failure and does not try again. */
  datatype SystemEvent =
    | NewMatch(id: string, white: string, black: string, control: string)
    | Loop(event: Event)
    | Verify(k: nat, reply: Option<(string, string)>)
    | Resolve(k: nat, served: bool, answered: bool)
    | MakeToken(k: nat, token: string, served: bool, answered: bool)
    | ReportEnd(k: nat, persisted: bool)
    | TokenExpires(token: string)

  /** `create_match` refuses equal players; ids and users are UUIDs, so never empty. */
  predicate Enabled(y: System, e: SystemEvent) {
    match e
    case NewMatch(id, white, black, _) =>
      id != "" && id !in y.tables.matches && white != "" && black != "" && white != black
    case Loop(ev) => Local(ev) && Session.Enabled(y.session, ev)
    case Verify(k, reply) => Session.Enabled(y.session, VerifyReturned(k, reply))
    case Resolve(k, _, _) => Session.Enabled(y.session, ResolveReturned(k, None))
    case MakeToken(k, token, _, _) => Session.Enabled(y.session, TokenReturned(k, token)) && token !in y.store.created
    case ReportEnd(k, _) => Session.Enabled(y.session, ReportReturned(k))
    case TokenExpires(token) => token in y.store.values
  }

  // ---------------------------------------------------------------- steps

  function WithMatch(t: Records.Tables, id: string, row: MatchRow): Records.Tables {
    t.(matches := t.matches[id := row])
  }

  function TokenOf(y: System, k: nat): string
    requires Session.Enabled(y.session, ResolveReturned(k, None))
  {
    y.session.running[k].job.token
  }

  function SeatOf(t: Task): Seat
    requires !t.Begun?
  {
    Seat(t.gameId, t.userId, t.color)
  }

  function Step(r: Rules, y: System, e: SystemEvent): System
    requires Enabled(y, e)
  {
    match e
    case NewMatch(id, white, black, control) =>
      y.(tables := WithMatch(y.tables, id, Records.MatchRow(white, black, control)))
    case Loop(ev) => y.(session := Session.Step(r, y.session, ev))
    case Verify(k, reply) => y.(session := OnVerify(y.session, k, reply))
    case Resolve(k, served, answered) =>
      var token := TokenOf(y, k);
      var reply := if served && answered then Tokens.Answer(y.store, token) else None;
      y.(session := OnResolve(y.session, k, reply),
         store := if served then Tokens.Step(y.store, Tokens.Resolve(token)) else y.store)
    case MakeToken(k, token, served, answered) =>
      var t := y.session.running[k];
      y.(session := OnToken(y.session, k, if served && answered then token else ""),
         store := if served then Tokens.Step(y.store, Tokens.Create(token, SeatOf(t))) else y.store,
         joins := if served && t.Verified? then y.joins + 1 else y.joins)
    case ReportEnd(k, persisted) =>
      var j := y.session.running[k].job;
      y.(session := OnReport(y.session, k),
         tables := Records.Report(y.tables, j.gameId, j.winner, j.moves, persisted),
         filed := if persisted && j.gameId in y.tables.matches then y.filed + [j] else y.filed)
    case TokenExpires(token) => y.(store := Tokens.Step(y.store, Tokens.Expires(token)))
  }

  predicate IsRun(r: Rules, es: seq<SystemEvent>)
    decreases |es|, 0
  {
    es == [] || (IsRun(r, es[..|es| - 1]) && Enabled(Exec(r, es[..|es| - 1]), es[|es| - 1]))
  }

  function Exec(r: Rules, es: seq<SystemEvent>): System
    requires IsRun(r, es)
    decreases |es|, 1
  {
    if es == [] then Start else Step(r, Exec(r, es[..|es| - 1]), es[|es| - 1])
  }

  // ---------------------------------------------------------------- the hypotheses

  /** The seat is one of the match row's two, under its own colour. */
  predicate HonestSeat(matches: map<string, MatchRow>, seat: Seat) {
    && seat.gameId in matches
    && seat.userId == if seat.color == "white" then matches[seat.gameId].white else matches[seat.gameId].black
  }

  /** What clients must do for the result to be right: take a seat only when holding no
      other, take no seat somebody else claims, and present one's own ticket under the
      colour one was given. */
  datatype Rule = FreeHands | SoleClaim | HonestColour

  ghost predicate Obeys(y: System, e: SystemEvent, rule: Rule)
    requires Enabled(y, e)
  {
    match rule
    case FreeHands => e.Loop? ==> SeatDiscipline(y.session, e.event)
    case SoleClaim => e.Loop? && SeatsOne(y.session, e.event) ==>
      var cb := y.session.deferred[e.event.k];
      Unclaimed(y.session, cb.sid, cb.seat.value.gameId, cb.seat.value.color)
    case HonestColour => e.Verify? && e.reply.Some? ==>
      HonestSeat(y.tables.matches, Seat(e.reply.value.0, e.reply.value.1, y.session.running[e.k].job.color))
  }

  ghost predicate ObeysThroughout(r: Rules, es: seq<SystemEvent>, rule: Rule)
    requires IsRun(r, es)
    decreases |es|
  {
    es != [] ==>
      && ObeysThroughout(r, es[..|es| - 1], rule)
      && Obeys(Exec(r, es[..|es| - 1]), es[|es| - 1], rule)
  }

  ghost predicate Disciplined(y: System, e: SystemEvent)
    requires Enabled(y, e)
  {
    Obeys(y, e, FreeHands) && Obeys(y, e, SoleClaim) && Obeys(y, e, HonestColour)
  }

  ghost predicate DisciplinedRun(r: Rules, es: seq<SystemEvent>)
    requires IsRun(r, es)
  {
    && ObeysThroughout(r, es, FreeHands)
    && ObeysThroughout(r, es, SoleClaim)
    && ObeysThroughout(r, es, HonestColour)
  }

  // ---------------------------------------------------------------- what then holds

  ghost predicate MatchesSound(matches: map<string, MatchRow>) {
    && "" !in matches
    && forall g :: g in matches ==>
         matches[g].white != "" && matches[g].black != "" && matches[g].white != matches[g].black
  }

  ghost predicate TokensHonest(matches: map<string, MatchRow>, tokens: map<string, string>) {
    forall t :: t in tokens ==> TokenHonest(matches, tokens[t])
  }

  ghost predicate TokenHonest(matches: map<string, MatchRow>, value: string) {
    Tokens.Decode(value).Some? ==> HonestSeat(matches, Tokens.Decode(value).value)
  }

  ghost predicate TaskHonest(matches: map<string, MatchRow>, t: Task) {
    !t.Begun? ==> HonestSeat(matches, Seat(t.gameId, t.userId, t.color))
  }

  ghost predicate CallbackHonest(matches: map<string, MatchRow>, c: Callback) {
    c.seat.Some? ==> HonestSeat(matches, c.seat.value)
  }

  ghost predicate WorkHonest(matches: map<string, MatchRow>, running: seq<Task>, deferred: seq<Callback>) {
    && (forall t :: t in running ==> TaskHonest(matches, t))
    && (forall c :: c in deferred ==> CallbackHonest(matches, c))
  }

  ghost predicate ConnHonest(matches: map<string, MatchRow>, c: Conn) {
    c.gameId != "" ==> HonestSeat(matches, Seat(c.gameId, c.userId, c.color))
  }

  ghost predicate ConnsHonest(matches: map<string, MatchRow>, conns: map<SocketId, Conn>) {
    forall i :: i in conns ==> ConnHonest(matches, conns[i])
  }

  /** The announced result and the reported winner agree, and the winner made the last move. */
  ghost predicate EndRight(matches: map<string, MatchRow>, f: Fate) {
    f.Ended? ==>
      && f.gameId in matches
      && (f.result == "white_wins" || f.result == "black_wins" || f.result == "draw")
      && (f.result == "white_wins" ==>
            f.moverIsWhite && f.winner == matches[f.gameId].white && f.moverUser == f.winner)
      && (f.result == "black_wins" ==>
            !f.moverIsWhite && f.winner == matches[f.gameId].black && f.moverUser == f.winner)
      && (f.result == "draw" ==> f.winner == "")
  }

  ghost predicate EndsRight(matches: map<string, MatchRow>, fates: seq<Fate>) {
    forall n :: 0 <= n < |fates| ==> EndRight(matches, fates[n])
  }

  predicate Corresponds(announced: string, stored: string) {
    || (announced == "white_wins" && stored == "white_win")
    || (announced == "black_wins" && stored == "black_win")
    || (announced == "draw" && stored == "draw")
  }

  /** The stored game is the announced one. */
  ghost predicate Tells(row: GameRow, f: Fate) {
    && f.Ended?
    && row.matchId == f.gameId
    && Corresponds(f.result, row.result)
    && row.moves == |f.moves|
    && row.pgn == Strings.Join(f.moves, ' ')
  }

  ghost predicate Honest(y: System) {
    && MatchesSound(y.tables.matches)
    && TokensHonest(y.tables.matches, y.store.values)
    && WorkHonest(y.tables.matches, y.session.running, y.session.deferred)
    && ConnsHonest(y.tables.matches, y.session.conns)
    && EndsRight(y.tables.matches, y.session.fates)
  }

  ghost predicate SessionGood(r: Rules, s: State) {
    Sound(s) && Recorded(r, s) && SeatingExact(s)
  }

  // ---------------------------------------------------------------- fates only get decided

  lemma RightKept(matches: map<string, MatchRow>, a: seq<Fate>, b: seq<Fate>)
    requires SameEnds(a, b) && EndsRight(matches, a)
    ensures EndsRight(matches, b)
  {
  }

  // ---------------------------------------------------------------- the finishing move

  /** With exact seating the mover sits in the winner's slot. */
  lemma WinnerIsMover(r: Rules, s: State, sid: SocketId, text: string)
    requires Lawful(r) && SeatingExact(s) && sid in s.live && sid in s.conns && Accepted(r, s, sid, text)
    ensures var g := s.conns[sid].gameId;
            var p := Played(r, s, g, text);
            && WinnerId(r, p, p.rooms[g])
               == (if r.over(p.rooms[g].board).1 == Lose then s.conns[sid].userId else "")
            && (r.over(p.rooms[g].board).1 == Lose ==>
                  ResultText(r, p.rooms[g].board)
                  == if s.conns[sid].color == "white" then "white_wins" else "black_wins")
  {
  }

  lemma FinishRight(r: Rules, matches: map<string, MatchRow>, s: State, sid: SocketId, text: string)
    requires Lawful(r) && SeatingExact(s) && sid in s.live && sid in s.conns && Accepted(r, s, sid, text)
    requires ConnsHonest(matches, s.conns) && EndsRight(matches, s.fates)
    ensures EndsRight(matches, OnMove(r, s, sid, text).fates)
  {
    var g := s.conns[sid].gameId;
    var p := Played(r, s, g, text);
    PlayedFrame(r, s, g, text);
    if r.over(p.rooms[g].board).1 != NoResult {
      FinishFrame(r, p, sid, g);
      WinnerIsMover(r, s, sid, text);
      assert SameConn(s.conns[sid], p.conns[sid]);
      assert ConnHonest(matches, s.conns[sid]);
      EndOfFinish(r, matches, p, sid, g);
    }
  }

  lemma EndOfFinish(r: Rules, matches: map<string, MatchRow>, p: State, sid: SocketId, g: string)
    requires sid in p.conns && g in p.rooms && g != "" && p.conns[sid].gameId == g
    requires ConnHonest(matches, p.conns[sid]) && EndsRight(matches, p.fates)
    requires WinnerId(r, p, p.rooms[g]) == (if r.over(p.rooms[g].board).1 == Lose then p.conns[sid].userId else "")
    requires r.over(p.rooms[g].board).1 == Lose ==>
               ResultText(r, p.rooms[g].board)
               == if p.conns[sid].color == "white" then "white_wins" else "black_wins"
    ensures EndsRight(matches, Finish(r, p, sid, g).fates)
  {
    FinishFrame(r, p, sid, g);
    var t := Finish(r, p, sid, g);
    forall n | 0 <= n < |t.fates|
      ensures EndRight(matches, t.fates[n])
    {
      assert n < |p.fates| && EndRight(matches, p.fates[n]);
    }
  }

  // ---------------------------------------------------------------- the loop's events

  lemma ConnsKept(matches: map<string, MatchRow>, s: State, t: State)
    requires SameButInboxes(s, s.(conns := t.conns)) && ConnsHonest(matches, s.conns)
    ensures ConnsHonest(matches, t.conns)
  {
  }

  /** What a step of the session must keep for the rest to hold. */
  ghost predicate Keeps(matches: map<string, MatchRow>, t: State) {
    && WorkHonest(matches, t.running, t.deferred)
    && ConnsHonest(matches, t.conns)
    && EndsRight(matches, t.fates)
  }

  ghost predicate Fine(matches: map<string, MatchRow>, s: State) {
    && MatchesSound(matches)
    && WorkHonest(matches, s.running, s.deferred)
    && ConnsHonest(matches, s.conns)
    && EndsRight(matches, s.fates)
  }

  lemma SettleAbandoned(r: Rules, s: State, g: string, moves: seq<string>)
    requires Recorded(r, s) && g in s.rooms
    ensures SameEnds(s.fates, Settle(s, s.rooms[g].number, Abandoned(g, moves)).fates)
  {
  }

  lemma KeepsClose(r: Rules, matches: map<string, MatchRow>, s: State, sid: SocketId)
    requires Fine(matches, s) && Recorded(r, s) && sid in s.conns
    ensures Keeps(matches, OnClose(s, sid))
  {
    var t := OnClose(s, sid);
    var g := s.conns[sid].gameId;
    CloseFrame(s, sid);
    ConnsKept(matches, s, t);
    if g in s.rooms {
      SettleAbandoned(r, s, g, s.rooms[g].history);
    }
    RightKept(matches, s.fates, t.fates);
  }

  lemma KeepsTold(matches: map<string, MatchRow>, s: State, sid: SocketId, text: string)
    requires Fine(matches, s)
    ensures Keeps(matches, Send(s, sid, ErrorText(text)))
  {
  }

  /** An accepted move changes no connection's seat and hands no worker a seat. */
  lemma MoveFrame(r: Rules, s: State, sid: SocketId, text: string)
    requires sid in s.conns && Accepted(r, s, sid, text)
    ensures var t := OnMove(r, s, sid, text);
            && t.running == s.running && t.deferred == s.deferred
            && SameButInboxes(s, s.(conns := t.conns))
  {
    var g := s.conns[sid].gameId;
    var p := Played(r, s, g, text);
    PlayedFrame(r, s, g, text);
    if r.over(p.rooms[g].board).1 != NoResult {
      var f := Finish(r, p, sid, g);
      FinishFrame(r, p, sid, g);
      SameTrans(s, s.(conns := p.conns), s.(conns := f.conns));
    }
  }

  lemma KeepsMove(r: Rules, matches: map<string, MatchRow>, s: State, sid: SocketId, text: string)
    requires Lawful(r) && Fine(matches, s) && SessionGood(r, s) && sid in s.live
    ensures Keeps(matches, OnMove(r, s, sid, text))
  {
    if Accepted(r, s, sid, text) {
      MoveFrame(r, s, sid, text);
      ConnsKept(matches, s, OnMove(r, s, sid, text));
      FinishRight(r, matches, s, sid, text);
    } else {
      KeepsTold(matches, s, sid, "not your turn");
      KeepsTold(matches, s, sid, "illegal move");
    }
  }

  lemma CountGood(r: Rules, matches: map<string, MatchRow>, s: State, sid: SocketId, now: int)
    requires Fine(matches, s) && SessionGood(r, s) && sid in s.live
    ensures Fine(matches, Count(s, sid, now)) && SessionGood(r, Count(s, sid, now))
  {
    var s1 := Count(s, sid, now);
    assert s1.conns.Keys == s.conns.Keys;
    SoundParts(s, s1);
    RecordedSame(r, s, s1);
    SeatingCounted(s, sid, now);
    forall i | i in s1.conns
      ensures ConnHonest(matches, s1.conns[i])
    {
      assert ConnHonest(matches, s.conns[i]);
    }
  }

  lemma KeepsFrame(r: Rules, matches: map<string, MatchRow>, s: State, sid: SocketId, now: int, frame: Frame)
    requires Lawful(r) && Fine(matches, s) && SessionGood(r, s) && sid in s.live
    ensures Keeps(matches, OnFrame(r, s, sid, now, frame))
  {
    if frame.TooLarge? {
      KeepsTold(matches, s, sid, "message too large");
    } else {
      var s1 := Count(s, sid, now);
      CountGood(r, matches, s, sid, now);
      if !Limiter.Passes(s.conns[sid].window, now) {
        KeepsTold(matches, s1, sid, "rate limit exceeded");
      } else if frame.NotJson? {
        KeepsTold(matches, s1, sid, "invalid json");
      } else {
        match frame.payload
        case JoinMatch(ticket, color) => assert Keeps(matches, Enqueue(s1, JoinJob(sid, ticket, color)));
        case PlayMove(move) => KeepsMove(r, matches, s1, sid, move);
        case ResumeMatch(token) => assert Keeps(matches, Enqueue(s1, ResumeJob(sid, token)));
        case UnknownType => KeepsTold(matches, s1, sid, "unknown message type");
      }
    }
  }

  lemma KeepsSit(r: Rules, matches: map<string, MatchRow>, s: State, sid: SocketId, seat: Seat)
    requires Fine(matches, s) && sid in s.conns && HonestSeat(matches, seat)
    ensures Keeps(matches, Sit(r, s, sid, seat))
  {
    var t := Sit(r, s, sid, seat);
    forall i | i in t.conns
      ensures ConnHonest(matches, t.conns[i])
    {
      assert i != sid ==> ConnHonest(matches, s.conns[i]);
    }
    RightKept(matches, s.fates, t.fates);
  }

  lemma KeepsHandle(r: Rules, matches: map<string, MatchRow>, s: State, cb: Callback)
    requires Fine(matches, s) && Recorded(r, s) && CallbackHonest(matches, cb)
    ensures Keeps(matches, Handle(r, s, cb))
  {
    if cb.sid in s.live && cb.sid in s.conns {
      if Refusal(s, cb).Some? {
        var text := Refusal(s, cb).value;
        KeepsTold(matches, s, cb.sid, text);
        RecordedSame(r, s, Send(s, cb.sid, ErrorText(text)));
        KeepsClose(r, matches, Send(s, cb.sid, ErrorText(text)), cb.sid);
      } else {
        var t := Sit(r, s, cb.sid, cb.seat.value);
        KeepsSit(r, matches, s, cb.sid, cb.seat.value);
        AdmitFrame(r, s, cb);
        ConnsKept(matches, t, Admit(r, s, cb));
      }
    }
  }

  lemma WorkRemoved(matches: map<string, MatchRow>, s: State, k: nat)
    requires WorkHonest(matches, s.running, s.deferred)
    ensures k < |s.deferred| ==>
              CallbackHonest(matches, s.deferred[k]) && WorkHonest(matches, s.running, RemoveAt(s.deferred, k))
    ensures k < |s.running| ==>
              TaskHonest(matches, s.running[k]) && WorkHonest(matches, RemoveAt(s.running, k), s.deferred)
  {
  }

  lemma KeepsLocal(r: Rules, matches: map<string, MatchRow>, s: State, e: Event)
    requires Lawful(r) && Fine(matches, s) && SessionGood(r, s)
    requires Session.Enabled(s, e) && Local(e)
    ensures Keeps(matches, Session.Step(r, s, e))
  {
    match e
    case Opened =>
      var t := OnOpen(s);
      forall i | i in t.conns
        ensures ConnHonest(matches, t.conns[i])
      {
        assert i in s.conns ==> ConnHonest(matches, s.conns[i]);
      }
    case Received(sid, now, frame) => KeepsFrame(r, matches, s, sid, now, frame);
    case Closed(sid) => KeepsClose(r, matches, s, sid);
    case Taken =>
    case CallbackRun(k) =>
      WorkRemoved(matches, s, k);
      var s1 := s.(deferred := RemoveAt(s.deferred, k));
      RecordedSame(r, s, s1);
      KeepsHandle(r, matches, s1, s.deferred[k]);
  }

  // ---------------------------------------------------------------- the workers' calls

  lemma GoodWorker(r: Rules, s: State, e: Event)
    requires SessionGood(r, s) && Session.Enabled(s, e) && WorkerEvent(e)
    ensures SessionGood(r, Session.Step(r, s, e))
  {
    SoundStep(r, s, e);
    RecordedWorker(r, s, e);
    ExactStep(r, s, e);
  }

  ghost predicate Good(r: Rules, y: System) {
    SessionGood(r, y.session) && Honest(y)
  }

  lemma StepLoop(r: Rules, y: System, ev: Event)
    requires Lawful(r) && Good(r, y) && Enabled(y, Loop(ev)) && Disciplined(y, Loop(ev))
    ensures Good(r, Step(r, y, Loop(ev)))
  {
    SoundStep(r, y.session, ev);
    RecordedStep(r, y.session, ev);
    ExactStep(r, y.session, ev);
    KeepsLocal(r, y.tables.matches, y.session, ev);
  }

  lemma MoreMatches(y: System, id: string, row: MatchRow)
    requires Honest(y) && id !in y.tables.matches
    requires id != "" && row.white != "" && row.black != "" && row.white != row.black
    ensures Honest(y.(tables := WithMatch(y.tables, id, row)))
  {
    var more := y.tables.matches[id := row];
    forall t | t in y.store.values
      ensures TokenHonest(more, y.store.values[t])
    {
      assert TokenHonest(y.tables.matches, y.store.values[t]);
    }
    forall t | t in y.session.running
      ensures TaskHonest(more, t)
    {
      assert TaskHonest(y.tables.matches, t);
    }
    forall c | c in y.session.deferred
      ensures CallbackHonest(more, c)
    {
      assert CallbackHonest(y.tables.matches, c);
    }
    forall i | i in y.session.conns
      ensures ConnHonest(more, y.session.conns[i])
    {
      assert ConnHonest(y.tables.matches, y.session.conns[i]);
    }
    forall n | 0 <= n < |y.session.fates|
      ensures EndRight(more, y.session.fates[n])
    {
      assert EndRight(y.tables.matches, y.session.fates[n]);
    }
  }

  lemma StepVerify(r: Rules, y: System, k: nat, reply: Option<(string, string)>)
    requires Good(r, y) && Enabled(y, Verify(k, reply)) && Disciplined(y, Verify(k, reply))
    ensures Good(r, Step(r, y, Verify(k, reply)))
  {
    GoodWorker(r, y.session, VerifyReturned(k, reply));
    WorkRemoved(y.tables.matches, y.session, k);
  }

  /** What is read back from an honest store is honest. */
  lemma AnswerHonest(matches: map<string, MatchRow>, store: Tokens.Store, token: string)
    requires TokensHonest(matches, store.values)
    ensures Tokens.Answer(store, token).Some? ==> HonestSeat(matches, Tokens.Answer(store, token).value)
    ensures TokensHonest(matches, store.values - {token})
  {
    assert token in store.values ==> TokenHonest(matches, store.values[token]);
    forall t | t in store.values - {token}
      ensures TokenHonest(matches, store.values[t])
    {
    }
  }

  lemma ResolveHonest(matches: map<string, MatchRow>, s: State, k: nat, reply: Option<Seat>)
    requires WorkHonest(matches, s.running, s.deferred) && Session.Enabled(s, ResolveReturned(k, reply))
    requires reply.Some? ==> HonestSeat(matches, reply.value)
    ensures WorkHonest(matches, OnResolve(s, k, reply).running, OnResolve(s, k, reply).deferred)
  {
    WorkRemoved(matches, s, k);
  }

  lemma StepResolve(r: Rules, y: System, k: nat, served: bool, answered: bool)
    requires Good(r, y) && Enabled(y, Resolve(k, served, answered))
    ensures Good(r, Step(r, y, Resolve(k, served, answered)))
  {
    var token := TokenOf(y, k);
    var reply := if served && answered then Tokens.Answer(y.store, token) else None;
    GoodWorker(r, y.session, ResolveReturned(k, reply));
    AnswerHonest(y.tables.matches, y.store, token);
    ResolveHonest(y.tables.matches, y.session, k, reply);
  }

  /** A token made for an honest seat can only give that seat back. */
  lemma CreateHonest(matches: map<string, MatchRow>, values: map<string, string>, token: string, seat: Seat)
    requires TokensHonest(matches, values) && HonestSeat(matches, seat)
    ensures TokensHonest(matches, values[token := Tokens.Encode(seat)])
  {
    var stored := values[token := Tokens.Encode(seat)];
    Tokens.RoundTrip(seat);
    forall t | t in stored
      ensures TokenHonest(matches, stored[t])
    {
      assert t != token ==> TokenHonest(matches, values[t]);
    }
  }

  lemma StepToken(r: Rules, y: System, k: nat, token: string, served: bool, answered: bool)
    requires Good(r, y) && Enabled(y, MakeToken(k, token, served, answered))
    ensures Good(r, Step(r, y, MakeToken(k, token, served, answered)))
  {
    GoodWorker(r, y.session, TokenReturned(k, if served && answered then token else ""));
    WorkRemoved(y.tables.matches, y.session, k);
    CreateHonest(y.tables.matches, y.store.values, token, SeatOf(y.session.running[k]));
  }

  lemma StepReport(r: Rules, y: System, k: nat, persisted: bool)
    requires Good(r, y) && Enabled(y, ReportEnd(k, persisted))
    ensures Good(r, Step(r, y, ReportEnd(k, persisted)))
  {
    GoodWorker(r, y.session, ReportReturned(k));
    WorkRemoved(y.tables.matches, y.session, k);
  }

  lemma StepGood(r: Rules, y: System, e: SystemEvent)
    requires Lawful(r) && Good(r, y) && Enabled(y, e) && Disciplined(y, e)
    ensures Good(r, Step(r, y, e))
  {
    match e
    case NewMatch(id, white, black, control) => MoreMatches(y, id, Records.MatchRow(white, black, control));
    case Loop(ev) => StepLoop(r, y, ev);
    case Verify(k, reply) => StepVerify(r, y, k, reply);
    case Resolve(k, served, answered) => StepResolve(r, y, k, served, answered);
    case MakeToken(k, token, served, answered) => StepToken(r, y, k, token, served, answered);
    case ReportEnd(k, persisted) => StepReport(r, y, k, persisted);
    case TokenExpires(token) => AnswerHonest(y.tables.matches, y.store, token);
  }

  lemma {:induction false} GoodAlways(r: Rules, es: seq<SystemEvent>)
    requires Lawful(r) && IsRun(r, es) && DisciplinedRun(r, es)
    ensures Good(r, Exec(r, es))
    decreases |es|
  {
    if es != [] {
      GoodAlways(r, es[..|es| - 1]);
      StepGood(r, Exec(r, es[..|es| - 1]), es[|es| - 1]);
    }
  }

  // ---------------------------------------------------------------- the result

  lemma EndAnnounced(r: Rules, p: State, sid: SocketId, g: string, i: SocketId)
    requires sid in p.conns && g in p.rooms && p.rooms[g].number < |p.fates| && i in p.conns
    requires p.rooms[g].white == Some(i) || p.rooms[g].black == Some(i)
    requires p.rooms[g].white.Some? ==> p.rooms[g].white != p.rooms[g].black
    ensures var t := Finish(r, p, sid, g);
            var f := t.fates[p.rooms[g].number];
            && f.Ended?
            && i in t.conns
            && t.conns[i].inbox
               == p.conns[i].inbox + [GameOver(f.result, ReasonText(r.over(p.rooms[g].board).0))]
  {
  }

  /** The move would end the game. */
  predicate Decisive(r: Rules, s: State, sid: SocketId, text: string)
    requires sid in s.conns && s.conns[sid].gameId in s.rooms
  {
    Terminal(r, RoomAfter(r, s.rooms[s.conns[sid].gameId], text).board)
  }

  /** The last thing the connection was told is how room `n` ended. */
  predicate ToldResult(t: State, n: nat, i: SocketId) {
    && n < |t.fates| && t.fates[n].Ended?
    && i in t.conns && t.conns[i].inbox != []
    && var last := t.conns[i].inbox[|t.conns[i].inbox| - 1];
    && last.GameOver? && last.result == t.fates[n].result
  }

  /** The result recorded for a room is the one its players were told last. */
  lemma ResultIsAnnounced(r: Rules, s: State, sid: SocketId, text: string, i: SocketId)
    requires Lawful(r) && SessionGood(r, s) && sid in s.live && Accepted(r, s, sid, text)
    requires var room := s.rooms[s.conns[sid].gameId]; room.white == Some(i) || room.black == Some(i)
    requires Decisive(r, s, sid, text)
    ensures ToldResult(OnMove(r, s, sid, text), s.rooms[s.conns[sid].gameId].number, i)
  {
    var g := s.conns[sid].gameId;
    var p := Played(r, s, g, text);
    MoveEnds(r, s, sid, text);
    ReadyToEnd(r, s, g, text, i);
    EndIsTold(r, p, sid, g, i);
  }

  lemma EndIsTold(r: Rules, p: State, sid: SocketId, g: string, i: SocketId)
    requires sid in p.conns && g in p.rooms && p.rooms[g].number < |p.fates| && i in p.conns
    requires p.rooms[g].white == Some(i) || p.rooms[g].black == Some(i)
    requires p.rooms[g].white.Some? ==> p.rooms[g].white != p.rooms[g].black
    ensures ToldResult(Finish(r, p, sid, g), p.rooms[g].number, i)
  {
    EndAnnounced(r, p, sid, g, i);
    FinishFrame(r, p, sid, g);
  }

  lemma MoveEnds(r: Rules, s: State, sid: SocketId, text: string)
    requires sid in s.conns && Accepted(r, s, sid, text)
    requires Decisive(r, s, sid, text)
    ensures var p := Played(r, s, s.conns[sid].gameId, text);
            sid in p.conns && OnMove(r, s, sid, text) == Finish(r, p, sid, s.conns[sid].gameId)
  {
  }

  lemma ReadyToEnd(r: Rules, s: State, g: string, text: string, i: SocketId)
    requires SessionGood(r, s) && g in s.rooms
    requires s.rooms[g].white == Some(i) || s.rooms[g].black == Some(i)
    ensures var p := Played(r, s, g, text);
            && p.rooms[g] == RoomAfter(r, s.rooms[g], text)
            && p.rooms[g].number < |p.fates| && i in p.conns
            && (p.rooms[g].white.Some? ==> p.rooms[g].white != p.rooms[g].black)
  {
    PlayedFrame(r, s, g, text);
    assert RoomListed(s.rooms, s.fates, g) && SlotsTrue(s, g);
  }

  /** The player the match row gives a colour to. */
  function PlayerOf(row: MatchRow, color: string): string {
    if color == "white" then row.white else row.black
  }

  /** The mate, if it is one, is delivered while the mover's own slot holds the player whom
      the match row gives that colour. All of it can be read off before the move. */
  predicate MateIsHonest(r: Rules, s: State, sid: SocketId, text: string, row: MatchRow)
    requires sid in s.conns && s.conns[sid].gameId in s.rooms
  {
    var room, color := s.rooms[s.conns[sid].gameId], s.conns[sid].color;
    r.over(RoomAfter(r, room, text).board).1 == Lose ==> SlotUser(s, Slot(room, color)) == PlayerOf(row, color)
  }

  /** Whatever the clients did before: a game's stored result agrees with the announced one
      exactly when the mate is honest in this sense. Draws always agree. */
  lemma StoredRightExactly(r: Rules, s: State, sid: SocketId, text: string, row: MatchRow)
    requires Lawful(r) && Sound(s) && Recorded(r, s) && sid in s.live && Accepted(r, s, sid, text)
    requires Decisive(r, s, sid, text)
    requires row.white != "" && row.black != "" && row.white != row.black
    ensures var n := s.rooms[s.conns[sid].gameId].number;
            var fates := OnMove(r, s, sid, text).fates;
            && n < |fates| && fates[n].Ended?
            && (Corresponds(fates[n].result, Records.StoredResult(row, fates[n].winner))
                <==> MateIsHonest(r, s, sid, text, row))
  {
    var room, color := s.rooms[s.conns[sid].gameId], s.conns[sid].color;
    var b := RoomAfter(r, room, text).board;
    MoveDecides(r, s, sid, text);
    MoverWins(r, s, sid, text);
    ResultsAgree(row, color, ResultText(r, b), WinnerId(r, s, RoomAfter(r, room, text)));
  }

  lemma ResultsAgree(row: MatchRow, color: string, announced: string, winner: string)
    requires row.white != "" && row.black != "" && row.white != row.black
    requires announced == "draw" || announced == if color == "white" then "white_wins" else "black_wins"
    requires announced == "draw" ==> winner == ""
    ensures Corresponds(announced, Records.StoredResult(row, winner))
            <==> announced == "draw" || winner == PlayerOf(row, color)
  {
  }

  /** A mate is announced for the mover's colour, and reported for whoever holds its slot. */
  lemma MoverWins(r: Rules, s: State, sid: SocketId, text: string)
    requires Lawful(r) && sid in s.conns && Accepted(r, s, sid, text)
    ensures var room := RoomAfter(r, s.rooms[s.conns[sid].gameId], text);
            var white := s.conns[sid].color == "white";
            if r.over(room.board).1 == Lose then
              && ResultText(r, room.board) == (if white then "white_wins" else "black_wins")
              && WinnerId(r, s, room) == SlotUser(s, Slot(room, s.conns[sid].color))
            else ResultText(r, room.board) == "draw" && WinnerId(r, s, room) == ""
  {
  }

  lemma MoveDecides(r: Rules, s: State, sid: SocketId, text: string)
    requires Recorded(r, s) && sid in s.conns && Accepted(r, s, sid, text)
    requires Decisive(r, s, sid, text)
    ensures var g := s.conns[sid].gameId;
            var room := RoomAfter(r, s.rooms[g], text);
            var fates := OnMove(r, s, sid, text).fates;
            && room.number < |fates| && fates[room.number].Ended?
            && fates[room.number].result == ResultText(r, room.board)
            && fates[room.number].winner == WinnerId(r, s, room)
  {
    var g := s.conns[sid].gameId;
    var p := Played(r, s, g, text);
    PlayedFrame(r, s, g, text);
    MoveEnds(r, s, sid, text);
    FinishFrame(r, p, sid, g);
    assert RoomListed(s.rooms, s.fates, g);
    WinnerSame(r, s, s.(conns := p.conns), p.rooms[g]);
  }
}
