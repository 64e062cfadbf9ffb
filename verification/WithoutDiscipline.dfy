/** The three rules of `EndToEnd.Rule` are all needed: for each there is a run that obeys the
    other two, breaks it, and ends badly. Times and texts are the simplest that do. */
module WithoutDiscipline {
  import opened Wrappers
  import opened ChessRules
  import opened Seats
  import opened Session
  import opened SessionFrames
  import opened Seating
  import opened EndToEnd
  import opened Ledger
  import Limiter = SocketLimiter
  import Records = GameRecords
  import Tokens = ResumeTokens

  ghost predicate ObeysAll(r: Rules, es: seq<SystemEvent>, rules: set<Rule>)
    requires EndToEnd.IsRun(r, es)
  {
    forall rule :: rule in rules ==> ObeysThroughout(r, es, rule)
  }

  /** Some run that obeys the given rules ends here. */
  ghost predicate Reachable(r: Rules, y: System, rules: set<Rule>) {
    exists es :: EndToEnd.IsRun(r, es) && EndToEnd.Exec(r, es) == y && ObeysAll(r, es, rules)
  }

  ghost predicate ObeysNow(y: System, e: SystemEvent, rules: set<Rule>)
    requires EndToEnd.Enabled(y, e)
  {
    forall rule :: rule in rules ==> Obeys(y, e, rule)
  }

  lemma Reach(r: Rules, y: System, e: SystemEvent, rules: set<Rule>)
    requires Reachable(r, y, rules) && EndToEnd.Enabled(y, e) && ObeysNow(y, e, rules)
    ensures Reachable(r, EndToEnd.Step(r, y, e), rules)
  {
    var es :| EndToEnd.IsRun(r, es) && EndToEnd.Exec(r, es) == y && ObeysAll(r, es, rules);
    var more := es + [e];
    assert more[..|es|] == es;
    assert EndToEnd.IsRun(r, more) && EndToEnd.Exec(r, more) == EndToEnd.Step(r, y, e);
    forall rule | rule in rules
      ensures ObeysThroughout(r, more, rule)
    {
      assert ObeysThroughout(r, es, rule) && Obeys(y, e, rule);
    }
  }

  /** A step of the loop other than a callback breaks no rule. */
  lemma ReachLoop(r: Rules, y: System, ev: Event, rules: set<Rule>)
    requires Reachable(r, y, rules) && EndToEnd.Enabled(y, Loop(ev)) && !ev.CallbackRun?
    ensures Reachable(r, y.(session := Session.Step(r, y.session, ev)), rules)
  {
    Reach(r, y, Loop(ev), rules);
  }

  lemma ReachStart(r: Rules, rules: set<Rule>)
    ensures Reachable(r, Start, rules)
  {
    assert EndToEnd.IsRun(r, []) && EndToEnd.Exec(r, []) == Start && ObeysAll(r, [], rules);
  }

  predicate Idle(s: State) {
    s.jobs == [] && s.running == [] && s.deferred == []
  }

  /** Live, and not yet limited at time 0. */
  predicate MayTalk(s: State, sid: SocketId) {
    sid in s.live && sid in s.conns && s.conns[sid].window.start == 0 && s.conns[sid].window.count < 5
  }

  // ---------------------------------------------------------------- connecting

  /** Connections 1 to `n` are open and silent. */
  ghost predicate Connected(s: State, n: nat) {
    && Idle(s)
    && s.rooms == map[] && s.fates == [] && s.activeGames == 0 && s.connectedSockets == n
    && s.nextId == n + 1
    && (forall i: nat :: 1 <= i <= n ==> i in s.live && i in s.conns && s.conns[i] == NewConn)
    && forall i :: i in s.live ==> 1 <= i <= n
  }

  lemma ConnectedMore(s: State, n: nat)
    requires Connected(s, n)
    ensures Connected(OnOpen(s), n + 1)
  {
  }

  lemma {:induction false} Connect(r: Rules, y: System, n: nat, rules: set<Rule>) returns (z: System)
    requires Reachable(r, y, rules) && y.session == Initial
    ensures Reachable(r, z, rules) && z == y.(session := z.session) && Connected(z.session, n)
    decreases n
  {
    z := y;
    if n > 0 {
      var p := Connect(r, y, n - 1, rules);
      ReachLoop(r, p, Opened, rules);
      ConnectedMore(p.session, n - 1);
      z := p.(session := OnOpen(p.session));
    }
  }

  const AliceBob := Records.MatchRow("alice", "bob", "5")

  /** Matches m and n between alice and bob, and `n` silent connections. */
  lemma Begin(r: Rules, n: nat, rules: set<Rule>) returns (y: System)
    ensures Reachable(r, y, rules) && Connected(y.session, n)
    ensures y.tables == Records.Tables(map["m" := AliceBob, "n" := AliceBob], [], {}) && y.store == Tokens.EmptyStore
  {
    var m, second := NewMatch("m", "alice", "bob", "5"), NewMatch("n", "alice", "bob", "5");
    ReachStart(r, rules);
    Reach(r, Start, m, rules);
    var y1 := EndToEnd.Step(r, Start, m);
    Reach(r, y1, second, rules);
    var y2 := EndToEnd.Step(r, y1, second);
    assert y2.tables.matches == map["m" := AliceBob, "n" := AliceBob];
    y := Connect(r, y2, n, rules);
  }

  // ---------------------------------------------------------------- joining

  predicate Holds(c: Conn, seat: Seat) {
    c.gameId == seat.gameId && c.userId == seat.userId && c.color == seat.color
  }

  /** What a join from ticket to seat amounts to. */
  ghost predicate JoinedAs(r: Rules, s: State, t: State, sid: SocketId, seat: Seat)
    requires sid in s.conns
  {
    var u := Sit(r, s, sid, seat);
    && Idle(t)
    && t.rooms == u.rooms && t.fates == u.fates && t.activeGames == u.activeGames
    && t.live == s.live && t.nextId == s.nextId && t.connectedSockets == s.connectedSockets
    && t.conns.Keys == s.conns.Keys
    && Holds(t.conns[sid], seat) && t.conns[sid].window == Limiter.Roll(s.conns[sid].window, 0)
    && forall i :: i in s.conns && i != sid ==> t.conns[i] == s.conns[i]
  }

  /** The rules a join is subject to. */
  ghost predicate JoinObeys(y: System, sid: SocketId, seat: Seat, rules: set<Rule>) {
    && (HonestColour in rules ==> HonestSeat(y.tables.matches, seat))
    && (FreeHands in rules ==> MaySit(y.session, sid, seat.gameId, seat.color))
    && (SoleClaim in rules ==> Unclaimed(y.session, sid, seat.gameId, seat.color))
  }

  /** Nothing but the session and the tokens moved on. */
  predicate OneToken(y: System, z: System, token: string) {
    z.tables == y.tables && z.filed == y.filed && z.store.created == y.store.created + {token}
  }

  /** Up to the point where the verified seat is handed back to the loop. */
  lemma Ask(r: Rules, y: System, sid: SocketId, seat: Seat, token: string, rules: set<Rule>) returns (z: System)
    requires Reachable(r, y, rules) && Idle(y.session) && MayTalk(y.session, sid)
    requires token !in y.store.created && JoinObeys(y, sid, seat, rules)
    ensures Reachable(r, z, rules) && OneToken(y, z, token)
    ensures z.session.deferred == [JoinDone(sid, Some(seat), token)]
    ensures z.session == Count(y.session, sid, 0).(issued := z.session.issued, deferred := z.session.deferred)
  {
    var job := JoinJob(sid, "ticket", seat.color);
    var received := Received(sid, 0, Json(JoinMatch("ticket", seat.color)));
    ReachLoop(r, y, received, rules);
    var y1 := y.(session := Session.Step(r, y.session, received));
    assert y1.session == Enqueue(Count(y.session, sid, 0), job);
    ReachLoop(r, y1, Taken, rules);
    var y2 := y1.(session := OnTaken(y1.session));
    assert y2.session.running == [Begun(job)];
    z := Work(r, y2, sid, seat, token, rules);
  }

  /** A worker has the job: it verifies the ticket, makes a token and defers the answer. */
  lemma Work(r: Rules, y: System, sid: SocketId, seat: Seat, token: string, rules: set<Rule>) returns (z: System)
    requires Reachable(r, y, rules)
    requires y.session.running == [Begun(JoinJob(sid, "ticket", seat.color))] && y.session.deferred == []
    requires token !in y.store.created && (HonestColour in rules ==> HonestSeat(y.tables.matches, seat))
    ensures Reachable(r, z, rules) && OneToken(y, z, token)
    ensures z.session == y.session.(running := [], deferred := [JoinDone(sid, Some(seat), token)])
  {
    var y1 := VerifyOne(r, y, sid, seat, rules);
    z := MakeOne(r, y1, token, rules);
  }

  /** Only the colour is looked at, and only if the ticket is good. */
  lemma VerifyObeys(y: System, k: nat, reply: Option<(string, string)>, rules: set<Rule>)
    requires EndToEnd.Enabled(y, Verify(k, reply))
    requires HonestColour in rules && reply.Some? ==>
               HonestSeat(y.tables.matches, Seat(reply.value.0, reply.value.1, y.session.running[k].job.color))
    ensures ObeysNow(y, Verify(k, reply), rules)
  {
    forall rule | rule in rules
      ensures Obeys(y, Verify(k, reply), rule)
    {
      match rule
      case FreeHands =>
      case SoleClaim =>
      case HonestColour =>
    }
  }

  lemma VerifyGives(s: State, sid: SocketId, seat: Seat)
    requires s.running == [Begun(JoinJob(sid, "ticket", seat.color))]
    ensures OnVerify(s, 0, Some((seat.gameId, seat.userId)))
            == s.(running := [Verified(sid, seat.gameId, seat.userId, seat.color)])
  {
    assert s.running[0 := Verified(sid, seat.gameId, seat.userId, seat.color)]
        == [Verified(sid, seat.gameId, seat.userId, seat.color)];
  }

  lemma VerifyOne(r: Rules, y: System, sid: SocketId, seat: Seat, rules: set<Rule>) returns (z: System)
    requires Reachable(r, y, rules) && y.session.running == [Begun(JoinJob(sid, "ticket", seat.color))]
    requires HonestColour in rules ==> HonestSeat(y.tables.matches, seat)
    ensures Reachable(r, z, rules)
    ensures z == y.(session := y.session.(running := [Verified(sid, seat.gameId, seat.userId, seat.color)]))
  {
    var reply := Some((seat.gameId, seat.userId));
    VerifyObeys(y, 0, reply, rules);
    VerifyGives(y.session, sid, seat);
    Reach(r, y, Verify(0, reply), rules);
    z := y.(session := OnVerify(y.session, 0, reply));
  }

  lemma MakeOne(r: Rules, y: System, token: string, rules: set<Rule>) returns (z: System)
    requires Reachable(r, y, rules) && |y.session.running| == 1 && y.session.running[0].Verified?
    requires token !in y.store.created && y.session.deferred == []
    ensures Reachable(r, z, rules) && OneToken(y, z, token)
    ensures z.session == y.session.(running := [],
              deferred := [JoinDone(y.session.running[0].sid, Some(SeatOf(y.session.running[0])), token)])
  {
    var make := MakeToken(0, token, true, true);
    assert ObeysNow(y, make, rules);
    Reach(r, y, make, rules);
    z := EndToEnd.Step(r, y, make);
    assert RemoveAt(y.session.running, 0) == [];
  }

  lemma AdmittedIsJoined(r: Rules, s: State, w: State, sid: SocketId, seat: Seat, token: string)
    requires MayTalk(s, sid) && Idle(s)
    requires w == Count(s, sid, 0).(issued := w.issued)
    ensures JoinedAs(r, s, Handle(r, w, JoinDone(sid, Some(seat), token)), sid, seat)
  {
  }

  /** Asking changes nothing the rules look at. */
  lemma ObeysAfterAsking(y: System, z: System, sid: SocketId, seat: Seat, token: string, rules: set<Rule>)
    requires MayTalk(y.session, sid) && JoinObeys(y, sid, seat, rules)
    requires z.session.deferred == [JoinDone(sid, Some(seat), token)]
    requires z.session == Count(y.session, sid, 0).(issued := z.session.issued, deferred := z.session.deferred)
    ensures EndToEnd.Enabled(z, Loop(CallbackRun(0))) && ObeysNow(z, Loop(CallbackRun(0)), rules)
  {
    if SoleClaim in rules {
      forall i | i in z.session.live && i != sid
        ensures Compatible(z.session, i, seat.gameId, seat.color)
      {
        assert Compatible(y.session, i, seat.gameId, seat.color);
      }
    }
  }

  /** A join, with nothing else in between. */
  lemma Join(r: Rules, y: System, sid: SocketId, seat: Seat, token: string, rules: set<Rule>) returns (z: System)
    requires Reachable(r, y, rules) && Idle(y.session) && MayTalk(y.session, sid)
    requires token !in y.store.created && JoinObeys(y, sid, seat, rules)
    ensures Reachable(r, z, rules) && OneToken(y, z, token) && JoinedAs(r, y.session, z.session, sid, seat)
  {
    var w := Ask(r, y, sid, seat, token, rules);
    ObeysAfterAsking(y, w, sid, seat, token, rules);
    Reach(r, w, Loop(CallbackRun(0)), rules);
    assert RemoveAt(w.session.deferred, 0) == [];
    z := w.(session := OnCallback(r, w.session, 0));
    AdmittedIsJoined(r, y.session, w.session.(deferred := []), sid, seat, token);
  }

  // ---------------------------------------------------------------- a game that ends in mate

  /** A game that black wins at once: "a" by white, then "b". */
  predicate QuickMate(r: Rules) {
    var b := r.make(r.start, r.parse(r.start, "a"));
    && r.parse(r.start, "a") in r.legal(r.start)
    && r.over(b).1 == NoResult
    && r.parse(b, "b") in r.legal(b)
    && r.over(r.make(b, r.parse(b, "b"))).1 == Lose
  }

  lemma ToyIsQuick()
    ensures Lawful(ToyRules()) && QuickMate(ToyRules())
  {
  }

  /** Match m is being played by `w` with white and `b` with black, and nothing else. */
  ghost predicate Playing(s: State, w: SocketId, b: SocketId, board: Board) {
    && Idle(s) && w != b && w in s.conns && MayTalk(s, b)
    && s.conns[w].gameId == s.conns[b].gameId == "m" && s.conns[w].color == "white" && s.conns[b].color == "black"
    && "m" in s.rooms && s.rooms["m"].board == board && s.rooms["m"].number == 0 && |s.fates| == 1
  }

  lemma FirstMove(r: Rules, s: State, w: SocketId, b: SocketId)
    requires Lawful(r) && QuickMate(r) && Playing(s, w, b, r.start) && MayTalk(s, w)
    ensures var t := OnMove(r, Count(s, w, 0), w, "a");
            && Playing(t, w, b, r.make(r.start, r.parse(r.start, "a")))
            && t.rooms["m"].black == s.rooms["m"].black
            && SlotUser(t, t.rooms["m"].black) == SlotUser(s, s.rooms["m"].black)
  {
    var s1 := Count(s, w, 0);
    var t := Played(r, s1, "m", "a");
    PlayedFrame(r, s1, "m", "a");
    assert SameConn(s1.conns[w], t.conns[w]) && SameConn(s1.conns[b], t.conns[b]);
    var black := s.rooms["m"].black;
    assert black.Some? && black.value in s1.conns ==> SameConn(s1.conns[black.value], t.conns[black.value]);
  }

  predicate Mates(r: Rules, room: Room, text: string) {
    && !r.whiteToMove(room.board)
    && r.parse(room.board, text) in r.legal(room.board)
    && r.over(RoomAfter(r, room, text).board).1 == Lose
  }

  /** The game is over, and its report waits to be made. */
  ghost predicate BlackWon(t: State, winner: string) {
    && t.running == [] && t.deferred == [] && |t.jobs| == 1 && |t.fates| == 1
    && t.fates[0].Ended? && t.fates[0].result == "black_wins"
    && t.fates[0].gameId == "m" && t.fates[0].winner == winner
    && t.jobs[0] == ReportOf(t.fates[0])
  }

  lemma MatingMove(r: Rules, s: State, w: SocketId, b: SocketId, text: string)
    requires Lawful(r) && "m" in s.rooms && Mates(r, s.rooms["m"], text)
    requires Playing(s, w, b, s.rooms["m"].board)
    ensures BlackWon(OnMove(r, Count(s, b, 0), b, text), SlotUser(s, s.rooms["m"].black))
  {
    var s1 := Count(s, b, 0);
    var p := Played(r, s1, "m", text);
    PlayedFrame(r, s1, "m", text);
    FinishFrame(r, p, b, "m");
    WinnerSame(r, s1, s1.(conns := p.conns), p.rooms["m"]);
    MoverWins(r, s1, b, text);
    assert SlotUser(s1, s.rooms["m"].black) == SlotUser(s, s.rooms["m"].black);
  }

  /** `sid` sends a move and it is let through. */
  lemma Play(r: Rules, y: System, sid: SocketId, text: string, rules: set<Rule>) returns (z: System)
    requires Reachable(r, y, rules) && MayTalk(y.session, sid)
    ensures Reachable(r, z, rules)
    ensures z == y.(session := OnMove(r, Count(y.session, sid, 0), sid, text))
  {
    var e := Received(sid, 0, Json(PlayMove(text)));
    ReachLoop(r, y, e, rules);
    z := y.(session := Session.Step(r, y.session, e));
  }

  /** One game is stored; a win for black was announced and `stored` was written. */
  ghost predicate StoredAs(y: System, stored: string) {
    && |y.session.fates| == 1 && y.session.fates[0].Ended? && y.session.fates[0].result == "black_wins"
    && |y.tables.games| == 1 && y.tables.games[0].result == stored
  }

  lemma FileReport(r: Rules, y: System, winner: string, rules: set<Rule>) returns (z: System)
    requires Reachable(r, y, rules) && BlackWon(y.session, winner)
    requires y.tables.games == [] && "m" in y.tables.matches && y.tables.matches["m"] == AliceBob
    ensures Reachable(r, z, rules) && StoredAs(z, Records.StoredResult(AliceBob, winner))
  {
    ReachLoop(r, y, Taken, rules);
    var y1 := y.(session := OnTaken(y.session));
    Reach(r, y1, ReportEnd(0, true), rules);
    z := EndToEnd.Step(r, y1, ReportEnd(0, true));
  }

  /** The whole game: black mates, and the result stored is the one for whoever is in the
      black slot. */
  lemma BlackMates(r: Rules, y: System, w: SocketId, b: SocketId, rules: set<Rule>) returns (z: System)
    requires Lawful(r) && QuickMate(r)
    requires Reachable(r, y, rules) && Playing(y.session, w, b, r.start) && MayTalk(y.session, w)
    requires y.tables.games == [] && "m" in y.tables.matches && y.tables.matches["m"] == AliceBob
    ensures Reachable(r, z, rules)
    ensures StoredAs(z, Records.StoredResult(AliceBob, SlotUser(y.session, y.session.rooms["m"].black)))
  {
    FirstMove(r, y.session, w, b);
    var y1 := Play(r, y, w, "a", rules);
    MatingMove(r, y1.session, w, b, "b");
    var y2 := Play(r, y1, b, "b", rules);
    z := FileReport(r, y2, SlotUser(y.session, y.session.rooms["m"].black), rules);
  }

  lemma DisciplineStoresRight(r: Rules, es: seq<SystemEvent>, stored: string)
    requires Lawful(r) && EndToEnd.IsRun(r, es) && DisciplinedRun(r, es) && StoredAs(EndToEnd.Exec(r, es), stored)
    ensures stored == "black_win"
  {
    var rooms := StoredIsAnnounced(r, es);
    ToldIsStored(r, EndToEnd.Exec(r, es), rooms, stored);
  }

  lemma ToldIsStored(r: Rules, y: System, rooms: seq<nat>, stored: string)
    requires StoredAs(y, stored) && RoomsOf(y, rooms)
    requires forall i :: 0 <= i < |rooms| ==> ToldTruly(r, y.tables.games[i], y.session.fates[rooms[i]])
    ensures stored == "black_win"
  {
    assert ToldTruly(r, y.tables.games[0], y.session.fates[rooms[0]]);
  }

  /** A result stored otherwise than announced: some rule was broken. */
  lemma SomeRuleBroken(r: Rules, es: seq<SystemEvent>, stored: string)
    requires Lawful(r) && EndToEnd.IsRun(r, es) && StoredAs(EndToEnd.Exec(r, es), stored) && stored != "black_win"
    ensures !DisciplinedRun(r, es)
  {
    if DisciplinedRun(r, es) {
      DisciplineStoresRight(r, es, stored);
    }
  }

  // ---------------------------------------------------------------- two players

  /** Of `n` connections the first two sit in match m. */
  ghost predicate TwoSeated(s: State, n: nat, black: string) {
    && s.rooms.Keys == {"m"} && s.rooms["m"].white == Some(1) && s.rooms["m"].black == Some(2)
    && MayTalk(s, 1) && 2 in s.conns && s.conns[2].userId == black
    && forall i: nat :: 3 <= i <= n ==> MayTalk(s, i) && s.conns[i] == NewConn
  }

  ghost predicate TwoJoined(y: System, n: nat, black: string) {
    && y.tables.games == [] && "m" in y.tables.matches && y.tables.matches["m"] == AliceBob
    && y.store.created == {"1", "2"}
    && TwoSeated(y.session, n, black)
  }

  lemma BlackMayJoin(r: Rules, y: System, n: nat, seat: Seat, rules: set<Rule>)
    requires OneJoined(r, y.session, n) && seat.gameId == "m" && seat.color == "black"
    requires HonestColour in rules ==> HonestSeat(y.tables.matches, seat)
    ensures JoinObeys(y, 2, seat, rules)
  {
    var s := y.session;
    forall i | i in s.live && i != 2
      ensures Compatible(s, i, "m", "black")
    {
      assert i != 1 ==> MayTalk(s, i);
    }
  }

  lemma BlackJoined(r: Rules, s: State, t: State, n: nat, seat: Seat)
    requires n >= 2 && OneJoined(r, s, n) && seat.gameId == "m" && seat.color == "black"
    requires 2 in s.conns && JoinedAs(r, s, t, 2, seat)
    ensures Playing(t, 1, 2, r.start) && TwoSeated(t, n, seat.userId)
  {
    assert t.rooms == s.rooms["m" := Room(Some(1), Some(2), r.start, [], 0)];
    forall i: nat | 3 <= i <= n
      ensures MayTalk(t, i) && t.conns[i] == NewConn
    {
      assert MayTalk(s, i);
    }
  }

  /** One user joins with white and then another with black. */
  lemma PlayersJoin(r: Rules, n: nat, white: string, black: string, rules: set<Rule>) returns (y: System)
    requires n >= 2 && (HonestColour in rules ==> white == "alice" && black == "bob")
    ensures Reachable(r, y, rules) && Playing(y.session, 1, 2, r.start) && TwoJoined(y, n, black)
  {
    var y0 := Begin(r, n, rules);
    var y1 := WhiteJoins(r, y0, n, white, rules);
    var seat := Seat("m", black, "black");
    BlackMayJoin(r, y1, n, seat, rules);
    y := Join(r, y1, 2, seat, "2", rules);
    BlackJoined(r, y1.session, y.session, n, seat);
  }

  /** Only the first of `n` connections has joined. */
  ghost predicate OneJoined(r: Rules, s: State, n: nat) {
    && Idle(s) && s.rooms.Keys == {"m"} && s.rooms["m"] == Room(Some(1), None, r.start, [], 0) && |s.fates| == 1
    && MayTalk(s, 1) && s.conns[1].gameId == "m" && s.conns[1].color == "white"
    && (forall i: nat :: 2 <= i <= n ==> MayTalk(s, i) && s.conns[i] == NewConn)
    && forall i :: i in s.live ==> 1 <= i <= n
  }

  lemma WhiteJoins(r: Rules, y: System, n: nat, white: string, rules: set<Rule>) returns (z: System)
    requires n >= 2 && (HonestColour in rules ==> white == "alice")
    requires Reachable(r, y, rules) && Connected(y.session, n) && y.store == Tokens.EmptyStore
    requires y.tables == Records.Tables(map["m" := AliceBob, "n" := AliceBob], [], {})
    ensures Reachable(r, z, rules) && OneToken(y, z, "1") && OneJoined(r, z.session, n)
  {
    z := Join(r, y, 1, Seat("m", white, "white"), "1", rules);
    var room := Room(None, None, r.start, [], 0);
    assert z.session.rooms == map["m" := FillSlot(room, "white", 1)];
  }

  // ---------------------------------------------------------------- free hands

  /** A player with tickets for two matches joins both on one connection and leaves: the
      first room stays, with a slot whose connection is gone, and there are more games
      than connections. */
  lemma SlotsCanDangle(r: Rules) returns (es: seq<SystemEvent>)
    requires Lawful(r)
    ensures EndToEnd.IsRun(r, es)
    ensures ObeysThroughout(r, es, SoleClaim) && ObeysThroughout(r, es, HonestColour)
    ensures !ObeysThroughout(r, es, FreeHands)
    ensures Dangles(EndToEnd.Exec(r, es).session)
  {
    var rules := {SoleClaim, HonestColour};
    var y := BothJoined(r, rules);
    ReachLoop(r, y, Closed(1), rules);
    CloseFrame(y.session, 1);
    var z := y.(session := OnClose(y.session, 1));
    es :| EndToEnd.IsRun(r, es) && EndToEnd.Exec(r, es) == z && ObeysAll(r, es, rules);
    if ObeysThroughout(r, es, FreeHands) {
      DisciplineKeepsSlots(r, es, "m", 1);
    }
  }

  /** A slot holds a connection that is gone, and games outnumber connections. */
  predicate Dangles(s: State) {
    "m" in s.rooms && s.rooms["m"].white == Some(1) && 1 !in s.live && s.activeGames == 1 && s.connectedSockets == 0
  }

  lemma DisciplineKeepsSlots(r: Rules, es: seq<SystemEvent>, g: string, i: SocketId)
    requires Lawful(r) && EndToEnd.IsRun(r, es) && DisciplinedRun(r, es)
    requires var s := EndToEnd.Exec(r, es).session; g in s.rooms && s.rooms[g].white == Some(i)
    ensures i in EndToEnd.Exec(r, es).session.live
  {
    GoodAlways(r, es);
    assert SlotsTrue(EndToEnd.Exec(r, es).session, g);
  }

  lemma BothJoined(r: Rules, rules: set<Rule>) returns (y: System)
    requires rules == {SoleClaim, HonestColour}
    ensures Reachable(r, y, rules) && 1 in y.session.live && 1 in y.session.conns
    ensures y.session.conns[1].gameId == "n" && y.session.conns[1].color == "white"
    ensures "m" in y.session.rooms && y.session.rooms["m"].white == Some(1)
    ensures "n" in y.session.rooms && y.session.rooms["n"].black == None
    ensures y.session.activeGames == 2 && y.session.connectedSockets == 1
  {
    var y0 := Begin(r, 1, rules);
    var y1 := Join(r, y0, 1, Seat("m", "alice", "white"), "1", rules);
    y := Join(r, y1, 1, Seat("n", "alice", "white"), "2", rules);
  }

  // ---------------------------------------------------------------- sole claim

  /** Everyone is honest, but bob joins again from a second connection and closes it: his
      slot is now empty though he still plays, his mate is announced as a win for black,
      and a draw is stored. */
  lemma SecondTabLosesTheWin(r: Rules) returns (es: seq<SystemEvent>)
    requires Lawful(r) && QuickMate(r)
    ensures EndToEnd.IsRun(r, es)
    ensures ObeysThroughout(r, es, FreeHands) && ObeysThroughout(r, es, HonestColour)
    ensures !ObeysThroughout(r, es, SoleClaim)
    ensures StoredAs(EndToEnd.Exec(r, es), "draw")
  {
    var rules := {FreeHands, HonestColour};
    var y := SecondTab(r, rules);
    var z := BlackMates(r, y, 1, 2, rules);
    es :| EndToEnd.IsRun(r, es) && EndToEnd.Exec(r, es) == z && ObeysAll(r, es, rules);
    SomeRuleBroken(r, es, "draw");
  }

  lemma SecondTab(r: Rules, rules: set<Rule>) returns (y: System)
    requires rules == {FreeHands, HonestColour}
    ensures Reachable(r, y, rules) && Playing(y.session, 1, 2, r.start) && MayTalk(y.session, 1)
    ensures y.session.rooms["m"].black == None
    ensures y.tables.games == [] && "m" in y.tables.matches && y.tables.matches["m"] == AliceBob
  {
    var p := BothTabs(r, rules);
    ReachLoop(r, p, Closed(3), rules);
    CloseFrame(p.session, 3);
    y := p.(session := OnClose(p.session, 3));
    assert SameConn(p.session.conns[1], y.session.conns[1]) && SameConn(p.session.conns[2], y.session.conns[2]);
  }

  lemma BothTabs(r: Rules, rules: set<Rule>) returns (y: System)
    requires rules == {FreeHands, HonestColour}
    ensures Reachable(r, y, rules) && Playing(y.session, 1, 2, r.start)
    ensures MayTalk(y.session, 1) && MayTalk(y.session, 3)
    ensures y.session.rooms["m"].white == Some(1) && y.session.rooms["m"].black == Some(3)
    ensures Holds(y.session.conns[3], Seat("m", "bob", "black"))
    ensures y.tables.games == [] && "m" in y.tables.matches && y.tables.matches["m"] == AliceBob
  {
    var p := PlayersJoin(r, 3, "alice", "bob", rules);
    y := Join(r, p, 3, Seat("m", "bob", "black"), "3", rules);
  }

  // ---------------------------------------------------------------- honest colour

  /** Nobody crowds anybody, but the players swap colours: black's win is stored as white's. */
  lemma SwappedColoursSwapTheResult(r: Rules) returns (es: seq<SystemEvent>)
    requires Lawful(r) && QuickMate(r)
    ensures EndToEnd.IsRun(r, es)
    ensures ObeysThroughout(r, es, FreeHands) && ObeysThroughout(r, es, SoleClaim)
    ensures !ObeysThroughout(r, es, HonestColour)
    ensures StoredAs(EndToEnd.Exec(r, es), "white_win")
  {
    var rules := {FreeHands, SoleClaim};
    var y := PlayersJoin(r, 2, "bob", "alice", rules);
    var z := BlackMates(r, y, 1, 2, rules);
    es :| EndToEnd.IsRun(r, es) && EndToEnd.Exec(r, es) == z && ObeysAll(r, es, rules);
    SomeRuleBroken(r, es, "white_win");
  }

  // ---------------------------------------------------------------- all three

  /** With all rules obeyed the same game is stored as it was announced: the theorems about
      disciplined runs do speak of something. */
  lemma DisciplinedGameIsStored(r: Rules) returns (es: seq<SystemEvent>)
    requires Lawful(r) && QuickMate(r)
    ensures EndToEnd.IsRun(r, es) && DisciplinedRun(r, es) && StoredAs(EndToEnd.Exec(r, es), "black_win")
  {
    var rules := {FreeHands, SoleClaim, HonestColour};
    var y := PlayersJoin(r, 2, "alice", "bob", rules);
    var z := BlackMates(r, y, 1, 2, rules);
    es :| EndToEnd.IsRun(r, es) && EndToEnd.Exec(r, es) == z && ObeysAll(r, es, rules);
  }
}
