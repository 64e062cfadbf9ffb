/** Every game is legal chess from start to end, every room comes to exactly one end, and
    every move is accounted for; on all runs, whatever the clients do. */
module SessionHistory {
  import opened Wrappers
  import opened ChessRules
  import opened Seats
  import opened Session
  import opened SessionFrames
  import opened SessionInvariants

  // ---------------------------------------------------------------- rooms and fates

  /** The room's board is its history replayed, and the game is legal and still running. */
  ghost predicate RoomReplays(r: Rules, room: Room) {
    room.board == Replay(r, room.history) && Ongoing(r, room.history)
  }

  /** Live rooms and the fates still open are the same thing under two names. */
  ghost predicate RoomListed(rooms: map<string, Room>, fates: seq<Fate>, g: string)
    requires g in rooms
  {
    rooms[g].number < |fates| && fates[rooms[g].number] == Playing(g)
  }

  /** A fate still open names a live room of that number; an ended one played a finished
      game whose last mover and broadcast result follow from its moves alone. */
  ghost predicate FateSound(r: Rules, rooms: map<string, Room>, n: nat, f: Fate) {
    match f
    case Playing(g) => g in rooms && rooms[g].number == n
    case Ended(_, moves, winner, result, moverIsWhite, _, _, _) =>
      && Finished(r, moves)
      && result == ResultText(r, Replay(r, moves))
      && (moverIsWhite <==> |moves| % 2 == 1)
      && (result == "draw" ==> winner == "")
    case Abandoned(_, moves) => Ongoing(r, moves)
  }

  ghost predicate Games(r: Rules, rooms: map<string, Room>, fates: seq<Fate>) {
    && (forall g :: g in rooms ==> RoomReplays(r, rooms[g]) && RoomListed(rooms, fates, g))
    && forall n :: 0 <= n < |fates| ==> FateSound(r, rooms, n, fates[n])
  }

  /** The reports among a list of jobs. */
  function Reports(jobs: seq<Job>): seq<Job> {
    if jobs == [] then []
    else
      var rest := Reports(jobs[..|jobs| - 1]);
      if jobs[|jobs| - 1].ReportJob? then rest + [jobs[|jobs| - 1]] else rest
  }

  /** One report for each ended room, and none for any other. */
  ghost predicate ReportsExact(fates: seq<Fate>, reported: seq<nat>, issued: seq<Job>) {
    && Distinct(reported)
    && (forall n: nat :: n in reported <==> n < |fates| && fates[n].Ended?)
    && |Reports(issued)| == |reported|
    && forall k :: 0 <= k < |reported| ==> ReportMatches(fates, reported[k], Reports(issued)[k])
  }

  ghost predicate ReportMatches(fates: seq<Fate>, n: nat, j: Job) {
    n < |fates| && fates[n].Ended? && j == ReportOf(fates[n])
  }

  /** The queue holds the newest jobs in order, and workers hold issued ones. */
  ghost predicate QueueIsSuffix(jobs: seq<Job>, issued: seq<Job>, running: seq<Task>) {
    && |jobs| <= |issued|
    && jobs == issued[|issued| - |jobs|..]
    && forall t :: t in running && t.Begun? ==> t.job in issued
  }

  ghost predicate Recorded(r: Rules, s: State) {
    && Games(r, s.rooms, s.fates)
    && ReportsExact(s.fates, s.reported, s.issued)
    && QueueIsSuffix(s.jobs, s.issued, s.running)
  }

  // ---------------------------------------------------------------- steps that play no move

  predicate SameGame(a: Room, b: Room) {
    a.board == b.board && a.history == b.history && a.number == b.number
  }

  /** Slots, connections and gauges may differ; games, fates and issued jobs do not. */
  ghost predicate SameGames(s: State, t: State) {
    && t.rooms.Keys == s.rooms.Keys
    && (forall g :: g in s.rooms ==> SameGame(s.rooms[g], t.rooms[g]))
    && t.fates == s.fates
    && t.reported == s.reported
    && t.movesTotal == s.movesTotal
    && t.issued == s.issued
    && t.jobs == s.jobs
    && t.running == s.running
  }

  lemma RecordedSame(r: Rules, s: State, t: State)
    requires Recorded(r, s) && SameGames(s, t)
    ensures Recorded(r, t)
  {
    forall g | g in t.rooms
      ensures RoomReplays(r, t.rooms[g]) && RoomListed(t.rooms, t.fates, g)
    {
      assert SameGame(s.rooms[g], t.rooms[g]) && RoomListed(s.rooms, s.fates, g);
    }
    forall n | 0 <= n < |t.fates|
      ensures FateSound(r, t.rooms, n, t.fates[n])
    {
      assert FateSound(r, s.rooms, n, s.fates[n]);
    }
  }

  lemma {:induction false} ReportIsListed(jobs: seq<Job>, j: Job)
    requires j in jobs && j.ReportJob?
    ensures j in Reports(jobs)
  {
    var n := |jobs| - 1;
    if j != jobs[n] {
      ReportIsListed(jobs[..n], j);
    }
  }

  // ---------------------------------------------------------------- the move handler

  lemma GamesPlayed(r: Rules, rooms: map<string, Room>, fates: seq<Fate>, g: string, text: string)
    requires Lawful(r) && Games(r, rooms, fates) && g in rooms
    requires r.parse(rooms[g].board, text) in r.legal(rooms[g].board)
    ensures var room := RoomAfter(r, rooms[g], text);
            && room.board == Replay(r, room.history)
            && (if r.over(room.board).1 == NoResult then Games(r, rooms[g := room], fates)
                else Finished(r, room.history))
            && (r.whiteToMove(rooms[g].board) <==> |room.history| % 2 == 1)
  {
    var prior := rooms[g];
    var room := RoomAfter(r, prior, text);
    assert RoomReplays(r, prior) && RoomListed(rooms, fates, g);
    ExtendGame(r, prior.history, text);
    ReplayExtend(r, prior.history, text);
    SidesAlternate(r, prior.history);
    if r.over(room.board).1 == NoResult {
      var after := rooms[g := room];
      forall h | h in after
        ensures RoomReplays(r, after[h]) && RoomListed(after, fates, h)
      {
        assert RoomListed(rooms, fates, h);
      }
      forall n | 0 <= n < |fates|
        ensures FateSound(r, after, n, fates[n])
      {
        assert FateSound(r, rooms, n, fates[n]);
      }
    }
  }

  /** A room leaves the map and its fate is decided. */
  lemma GamesDecided(r: Rules, rooms: map<string, Room>, fates: seq<Fate>, g: string, f: Fate)
    requires Games(r, rooms, fates) && g in rooms
    requires !f.Playing? && FateSound(r, rooms, rooms[g].number, f)
    ensures rooms[g].number < |fates|
    ensures Games(r, rooms - {g}, fates[rooms[g].number := f])
  {
  }

  lemma ReportsDecided(fates: seq<Fate>, reported: seq<nat>, issued: seq<Job>, n: nat, f: Fate)
    requires ReportsExact(fates, reported, issued)
    requires n < |fates| && fates[n].Playing? && !f.Playing?
    ensures f.Ended? ==> ReportsExact(fates[n := f], reported + [n], issued + [ReportOf(f)])
    ensures f.Abandoned? ==> ReportsExact(fates[n := f], reported, issued)
  {
  }

  lemma RecordedFinish(r: Rules, s: State, sid: SocketId, g: string, prior: Room)
    requires sid in s.conns && g in s.rooms && prior.number == s.rooms[g].number
    requires Games(r, s.rooms[g := prior], s.fates)
    requires ReportsExact(s.fates, s.reported, s.issued) && QueueIsSuffix(s.jobs, s.issued, s.running)
    requires s.rooms[g].board == Replay(r, s.rooms[g].history) && Finished(r, s.rooms[g].history)
    requires s.conns[sid].color == "white" <==> |s.rooms[g].history| % 2 == 1
    ensures Recorded(r, Finish(r, s, sid, g))
  {
    var room := s.rooms[g];
    var before := s.rooms[g := prior];
    var f := EndOf(r, s, sid, g, WinnerId(r, s, room));
    FinishFrame(r, s, sid, g);
    GamesDecided(r, before, s.fates, g, f);
    assert before - {g} == s.rooms - {g};
    assert RoomListed(before, s.fates, g);
    ReportsDecided(s.fates, s.reported, s.issued, room.number, f);
  }

  lemma RecordedMove(r: Rules, s: State, sid: SocketId, text: string)
    requires Lawful(r) && Recorded(r, s) && sid in s.conns
    ensures Recorded(r, OnMove(r, s, sid, text))
  {
    var g := s.conns[sid].gameId;
    if Accepted(r, s, sid, text) {
      GamesPlayed(r, s.rooms, s.fates, g, text);
      PlayedFrame(r, s, g, text);
      var p := Played(r, s, g, text);
      if r.over(p.rooms[g].board).1 != NoResult {
        assert p.rooms[g := s.rooms[g]] == s.rooms;
        RecordedFinish(r, p, sid, g, s.rooms[g]);
      }
    } else {
      RecordedSame(r, s, OnMove(r, s, sid, text));
    }
  }

  // ---------------------------------------------------------------- rooms that come and go

  lemma RecordedClose(r: Rules, s: State, sid: SocketId)
    requires Recorded(r, s) && sid in s.conns
    ensures Recorded(r, OnClose(s, sid))
  {
    CloseFrame(s, sid);
    RecordedClosed(r, s, OnClose(s, sid), sid);
  }

  lemma RecordedClosed(r: Rules, s: State, t: State, sid: SocketId)
    requires Recorded(r, s) && sid in s.conns && ClosedFrom(s, t, sid)
    ensures Recorded(r, t)
  {
    var g := s.conns[sid].gameId;
    if g in s.rooms && g !in t.rooms {
      var f := Abandoned(g, s.rooms[g].history);
      assert RoomReplays(r, s.rooms[g]) && RoomListed(s.rooms, s.fates, g);
      GamesDecided(r, s.rooms, s.fates, g, f);
      ReportsDecided(s.fates, s.reported, s.issued, s.rooms[g].number, f);
    } else {
      RecordedSame(r, s, t);
    }
  }

  lemma RecordedSit(r: Rules, s: State, sid: SocketId, seat: Seat)
    requires Lawful(r) && Recorded(r, s) && sid in s.conns
    ensures Recorded(r, Sit(r, s, sid, seat))
  {
    var t := Sit(r, s, sid, seat);
    var g := seat.gameId;
    if g in s.rooms {
      RecordedSame(r, s, t);
    } else {
      assert OngoingUntil(r, [], 1);
      assert RoomReplays(r, t.rooms[g]);
      forall h | h in t.rooms
        ensures RoomReplays(r, t.rooms[h]) && RoomListed(t.rooms, t.fates, h)
      {
        assert h != g ==> RoomReplays(r, s.rooms[h]) && RoomListed(s.rooms, s.fates, h);
      }
      forall m | 0 <= m < |t.fates|
        ensures FateSound(r, t.rooms, m, t.fates[m])
      {
        assert m < |s.fates| ==> FateSound(r, s.rooms, m, s.fates[m]);
      }
      forall k | 0 <= k < |t.reported|
        ensures ReportMatches(t.fates, t.reported[k], Reports(t.issued)[k])
      {
        assert ReportMatches(s.fates, s.reported[k], Reports(s.issued)[k]);
      }
    }
  }

  lemma RecordedHandle(r: Rules, s: State, cb: Callback)
    requires Lawful(r) && Recorded(r, s)
    ensures Recorded(r, Handle(r, s, cb))
  {
    if cb.sid in s.live && cb.sid in s.conns {
      if Refusal(s, cb).Some? {
        var s1 := Send(s, cb.sid, ErrorText(Refusal(s, cb).value));
        RecordedSame(r, s, s1);
        RecordedClose(r, s1, cb.sid);
      } else {
        RecordedSit(r, s, cb.sid, cb.seat.value);
        AdmitFrame(r, s, cb);
        RecordedSame(r, Sit(r, s, cb.sid, cb.seat.value), Admit(r, s, cb));
      }
    }
  }

  // ---------------------------------------------------------------- all steps, all runs

  lemma RecordedEnqueue(r: Rules, s: State, job: Job)
    requires Recorded(r, s) && !job.ReportJob?
    ensures Recorded(r, Enqueue(s, job))
  {
  }

  lemma RecordedFrame(r: Rules, s: State, sid: SocketId, now: int, frame: Frame)
    requires Lawful(r) && Recorded(r, s) && sid in s.conns
    ensures Recorded(r, OnFrame(r, s, sid, now, frame))
  {
    var t := OnFrame(r, s, sid, now, frame);
    if frame.TooLarge? {
      RecordedSame(r, s, t);
    } else {
      var s1 := Count(s, sid, now);
      RecordedSame(r, s, s1);
      if !Limiter.Passes(s.conns[sid].window, now) || frame.NotJson? || frame.payload.UnknownType? {
        RecordedSame(r, s1, t);
      } else {
        match frame.payload
        case JoinMatch(ticket, color) => RecordedEnqueue(r, s1, JoinJob(sid, ticket, color));
        case PlayMove(move) => RecordedMove(r, s1, sid, move);
        case ResumeMatch(token) => RecordedEnqueue(r, s1, ResumeJob(sid, token));
      }
    }
  }

  lemma RecordedWorker(r: Rules, s: State, e: Event)
    requires Recorded(r, s) && Enabled(s, e) && WorkerEvent(e)
    ensures Recorded(r, Step(r, s, e))
  {
    WorkerFrame(r, s, e);
    var t := Step(r, s, e);
    assert QueueIsSuffix(t.jobs, t.issued, t.running) by {
      if e.Taken? {
        assert s.jobs[0] in s.issued;
      }
    }
  }

  lemma RecordedStep(r: Rules, s: State, e: Event)
    requires Lawful(r) && Sound(s) && Recorded(r, s) && Enabled(s, e)
    ensures Recorded(r, Step(r, s, e))
  {
    match e
    case Opened => RecordedSame(r, s, OnOpen(s));
    case Received(sid, now, frame) => RecordedFrame(r, s, sid, now, frame);
    case Closed(sid) => RecordedClose(r, s, sid);
    case CallbackRun(k) =>
      var s1 := s.(deferred := RemoveAt(s.deferred, k));
      RecordedSame(r, s, s1);
      RecordedHandle(r, s1, s.deferred[k]);
    case _ => RecordedWorker(r, s, e);
  }

  lemma {:induction false} RecordedAlways(r: Rules, es: seq<Event>)
    requires Lawful(r) && IsRun(r, es)
    ensures Recorded(r, Exec(r, es))
    decreases |es|
  {
    if es != [] {
      SoundAlways(r, es[..|es| - 1]);
      RecordedAlways(r, es[..|es| - 1]);
      RecordedStep(r, Exec(r, es[..|es| - 1]), es[|es| - 1]);
    }
  }

  /** The next move is white's exactly when an even number went before, and it turns a
      running game into one that is still running or just finished. */
  ghost predicate InTurn(r: Rules, history: seq<string>, white: bool, text: string) {
    && (white <==> |history| % 2 == 0)
    && Ongoing(r, history)
    && (Ongoing(r, history + [text]) || Finished(r, history + [text]))
  }

  /** On every run an accepted move is in turn and legal. */
  lemma MovesAlternate(r: Rules, es: seq<Event>, sid: SocketId, text: string)
    requires Lawful(r) && IsRun(r, es)
    requires sid in Exec(r, es).conns && Accepted(r, Exec(r, es), sid, text)
    ensures var s := Exec(r, es);
            InTurn(r, s.rooms[s.conns[sid].gameId].history, s.conns[sid].color == "white", text)
  {
    RecordedAlways(r, es);
    var s := Exec(r, es);
    RoomInTurn(r, s.rooms[s.conns[sid].gameId], text);
  }

  lemma RoomInTurn(r: Rules, room: Room, text: string)
    requires Lawful(r) && RoomReplays(r, room) && r.parse(room.board, text) in r.legal(room.board)
    ensures InTurn(r, room.history, r.whiteToMove(room.board), text)
  {
    SidesAlternate(r, room.history);
    ExtendGame(r, room.history, text);
  }

  function Elements(ns: seq<nat>): set<nat> {
    set n | n in ns
  }

  lemma {:induction false} DistinctSize(ns: seq<nat>)
    requires Distinct(ns)
    ensures |Elements(ns)| == |ns|
  {
    if ns != [] {
      var pre, n := ns[..|ns| - 1], ns[|ns| - 1];
      DistinctSize(pre);
      assert ns == pre + [n];
      assert n !in Elements(pre);
      assert Elements(ns) == Elements(pre) + {n};
    }
  }

  ghost function EndedRooms(fates: seq<Fate>): set<nat> {
    set n: nat | n < |fates| && fates[n].Ended?
  }

  /** On every run: a reported game is legal, its last position is over and no earlier one
      is, and there are exactly as many reports as rooms whose game ended. */
  lemma ReportsAreFinishedGames(r: Rules, es: seq<Event>)
    requires Lawful(r) && IsRun(r, es)
    ensures |Reports(Exec(r, es).issued)| == |EndedRooms(Exec(r, es).fates)|
    ensures forall j :: j in Exec(r, es).issued && j.ReportJob? ==> Finished(r, j.moves)
  {
    RecordedAlways(r, es);
    var s := Exec(r, es);
    DistinctSize(s.reported);
    assert Elements(s.reported) == EndedRooms(s.fates);
    forall j | j in s.issued && j.ReportJob?
      ensures Finished(r, j.moves)
    {
      ReportIsListed(s.issued, j);
      var k :| 0 <= k < |Reports(s.issued)| && Reports(s.issued)[k] == j;
      assert ReportMatches(s.fates, s.reported[k], j);
      assert FateSound(r, s.rooms, s.reported[k], s.fates[s.reported[k]]);
    }
  }

  // ---------------------------------------------------------------- move conservation

  ghost function LiveMoves(rooms: map<string, Room>): nat {
    if rooms == map[] then 0
    else
      var g :| g in rooms;
      |rooms[g].history| + LiveMoves(rooms - {g})
  }

  /** Any room can be taken out first. */
  lemma {:induction false} LiveMovesAt(rooms: map<string, Room>, g: string)
    requires g in rooms
    ensures LiveMoves(rooms) == |rooms[g].history| + LiveMoves(rooms - {g})
    decreases |rooms|
  {
    var h :| h in rooms && LiveMoves(rooms) == |rooms[h].history| + LiveMoves(rooms - {h});
    if h != g {
      LiveMovesAt(rooms - {h}, g);
      LiveMovesAt(rooms - {g}, h);
      assert rooms - {h} - {g} == rooms - {g} - {h};
    }
  }

  lemma LiveMovesSet(rooms: map<string, Room>, g: string, room: Room)
    ensures LiveMoves(rooms[g := room])
            == LiveMoves(rooms) + |room.history| - (if g in rooms then |rooms[g].history| else 0)
  {
    var after := rooms[g := room];
    LiveMovesAt(after, g);
    assert after - {g} == rooms - {g};
    if g in rooms {
      LiveMovesAt(rooms, g);
    } else {
      assert rooms - {g} == rooms;
    }
  }

  /** Rooms that differ only in their slots hold the same moves. */
  lemma {:induction false} LiveMovesSame(a: map<string, Room>, b: map<string, Room>)
    requires a.Keys == b.Keys && forall g :: g in a ==> a[g].history == b[g].history
    ensures LiveMoves(a) == LiveMoves(b)
    decreases |a|
  {
    if a == map[] {
      assert b == map[];
    } else {
      var g :| g in a;
      LiveMovesAt(a, g);
      LiveMovesAt(b, g);
      LiveMovesSame(a - {g}, b - {g});
    }
  }

  /** The moves of the reported rooms (`ended`), or of the abandoned ones. */
  function ClosedMoves(fates: seq<Fate>, ended: bool): nat {
    if fates == [] then 0
    else
      var f := fates[|fates| - 1];
      ClosedMoves(fates[..|fates| - 1], ended)
      + if (ended && f.Ended?) || (!ended && f.Abandoned?) then |f.moves| else 0
  }

  lemma {:induction false} ClosedMovesAt(fates: seq<Fate>, n: nat, f: Fate, ended: bool)
    requires n < |fates| && fates[n].Playing? && !f.Playing?
    ensures ClosedMoves(fates[n := f], ended)
            == ClosedMoves(fates, ended) + if f.Ended? == ended then |f.moves| else 0
  {
    var last := |fates| - 1;
    if n < last {
      ClosedMovesAt(fates[..last], n, f, ended);
      assert fates[n := f][..last] == fates[..last][n := f];
    } else {
      assert fates[n := f][..last] == fates[..last];
    }
  }

  /** The counter is the moves of the live rooms, of the reported ones and of those both
      players left. */
  ghost predicate MovesCounted(s: State) {
    s.movesTotal == LiveMoves(s.rooms) + ClosedMoves(s.fates, true) + ClosedMoves(s.fates, false)
  }

  lemma CountedSame(s: State, t: State)
    requires MovesCounted(s)
    requires t.rooms.Keys == s.rooms.Keys && forall g :: g in s.rooms ==> SameGame(s.rooms[g], t.rooms[g])
    requires t.fates == s.fates && t.movesTotal == s.movesTotal
    ensures MovesCounted(t)
  {
    forall g | g in s.rooms
      ensures s.rooms[g].history == t.rooms[g].history
    {
      assert SameGame(s.rooms[g], t.rooms[g]);
    }
    LiveMovesSame(s.rooms, t.rooms);
  }

  lemma CountedDecided(rooms: map<string, Room>, fates: seq<Fate>, g: string, f: Fate)
    requires g in rooms && rooms[g].number < |fates| && fates[rooms[g].number].Playing?
    requires !f.Playing? && f.moves == rooms[g].history
    ensures var after := fates[rooms[g].number := f];
            LiveMoves(rooms - {g}) + ClosedMoves(after, true) + ClosedMoves(after, false)
            == LiveMoves(rooms) + ClosedMoves(fates, true) + ClosedMoves(fates, false)
  {
    LiveMovesAt(rooms, g);
    ClosedMovesAt(fates, rooms[g].number, f, true);
    ClosedMovesAt(fates, rooms[g].number, f, false);
  }

  lemma CountedPlayed(r: Rules, s: State, g: string, text: string)
    requires MovesCounted(s) && g in s.rooms
    ensures MovesCounted(Played(r, s, g, text))
  {
    PlayedFrame(r, s, g, text);
    LiveMovesSet(s.rooms, g, RoomAfter(r, s.rooms[g], text));
  }

  lemma CountedFinish(r: Rules, s: State, sid: SocketId, g: string)
    requires MovesCounted(s) && sid in s.conns && g in s.rooms
    requires s.rooms[g].number < |s.fates| && s.fates[s.rooms[g].number].Playing?
    ensures MovesCounted(Finish(r, s, sid, g))
  {
    FinishFrame(r, s, sid, g);
    CountedDecided(s.rooms, s.fates, g, EndOf(r, s, sid, g, WinnerId(r, s, s.rooms[g])));
  }

  lemma CountedMove(r: Rules, s: State, sid: SocketId, text: string)
    requires Recorded(r, s) && MovesCounted(s) && sid in s.conns
    ensures MovesCounted(OnMove(r, s, sid, text))
  {
    var g := s.conns[sid].gameId;
    if Accepted(r, s, sid, text) {
      assert RoomListed(s.rooms, s.fates, g);
      PlayedFrame(r, s, g, text);
      CountedPlayed(r, s, g, text);
      var p := Played(r, s, g, text);
      if r.over(p.rooms[g].board).1 != NoResult {
        CountedFinish(r, p, sid, g);
      }
    } else {
      CountedSame(s, OnMove(r, s, sid, text));
    }
  }

  lemma CountedClose(r: Rules, s: State, sid: SocketId)
    requires Recorded(r, s) && MovesCounted(s) && sid in s.conns
    ensures MovesCounted(OnClose(s, sid))
  {
    CloseFrame(s, sid);
    CountedClosed(r, s, OnClose(s, sid), sid);
  }

  lemma CountedClosed(r: Rules, s: State, t: State, sid: SocketId)
    requires Recorded(r, s) && MovesCounted(s) && sid in s.conns && ClosedFrom(s, t, sid)
    ensures MovesCounted(t)
  {
    var g := s.conns[sid].gameId;
    if g in s.rooms && g !in t.rooms {
      assert RoomListed(s.rooms, s.fates, g);
      CountedDecided(s.rooms, s.fates, g, Abandoned(g, s.rooms[g].history));
    } else {
      CountedSame(s, t);
    }
  }

  lemma CountedSit(r: Rules, s: State, sid: SocketId, seat: Seat)
    requires MovesCounted(s) && sid in s.conns
    ensures MovesCounted(Sit(r, s, sid, seat))
  {
    var t := Sit(r, s, sid, seat);
    LiveMovesSet(s.rooms, seat.gameId, t.rooms[seat.gameId]);
    if seat.gameId !in s.rooms {
      assert t.fates[..|s.fates|] == s.fates;
    }
  }

  lemma CountedHandle(r: Rules, s: State, cb: Callback)
    requires Recorded(r, s) && MovesCounted(s)
    ensures MovesCounted(Handle(r, s, cb))
  {
    if cb.sid in s.live && cb.sid in s.conns {
      if Refusal(s, cb).Some? {
        var s1 := Send(s, cb.sid, ErrorText(Refusal(s, cb).value));
        RecordedSame(r, s, s1);
        CountedClose(r, s1, cb.sid);
      } else {
        CountedSit(r, s, cb.sid, cb.seat.value);
        AdmitFrame(r, s, cb);
      }
    }
  }

  lemma CountedFrame(r: Rules, s: State, sid: SocketId, now: int, frame: Frame)
    requires Recorded(r, s) && MovesCounted(s) && sid in s.conns
    ensures MovesCounted(OnFrame(r, s, sid, now, frame))
  {
    if !frame.TooLarge? {
      var s1 := Count(s, sid, now);
      RecordedSame(r, s, s1);
      if Limiter.Passes(s.conns[sid].window, now) && frame.Json? {
        match frame.payload
        case PlayMove(move) => CountedMove(r, s1, sid, move);
        case _ =>
      }
    }
  }

  lemma CountedStep(r: Rules, s: State, e: Event)
    requires Sound(s) && Recorded(r, s) && MovesCounted(s) && Enabled(s, e)
    ensures MovesCounted(Step(r, s, e))
  {
    match e
    case Received(sid, now, frame) => CountedFrame(r, s, sid, now, frame);
    case Closed(sid) => CountedClose(r, s, sid);
    case CallbackRun(k) =>
      var s1 := s.(deferred := RemoveAt(s.deferred, k));
      RecordedSame(r, s, s1);
      CountedHandle(r, s1, s.deferred[k]);
    case _ =>
  }

  lemma {:induction false} MovesAlwaysCounted(r: Rules, es: seq<Event>)
    requires Lawful(r) && IsRun(r, es)
    ensures MovesCounted(Exec(r, es))
    decreases |es|
  {
    if es != [] {
      SoundAlways(r, es[..|es| - 1]);
      RecordedAlways(r, es[..|es| - 1]);
      MovesAlwaysCounted(r, es[..|es| - 1]);
      CountedStep(r, Exec(r, es[..|es| - 1]), es[|es| - 1]);
    }
  }
}
