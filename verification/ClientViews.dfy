/** What a seated client knows: the snapshot it was given when it was seated, and the moves
    it was told since. Together they are what the server holds, as long as slots are true. */
module ClientViews {
  import opened Wrappers
  import opened ChessRules
  import opened Seats
  import opened Session
  import opened SessionFrames
  import opened SessionInvariants
  import opened SessionHistory
  import opened Seating

  /** The snapshot's position and moves (a `joined` has none, so `whole` is false), the moves
      told since, and the last position shown. */
  datatype View = Blank | View(snap: string, given: seq<string>, whole: bool, told: seq<string>, fen: string)

  function See(v: View, m: Message): View {
    match m
    case Joined(_, fen, _) => View(fen, [], false, [], fen)
    case Resumed(_, fen, moves, _) => View(fen, moves, true, [], fen)
    case Moved(move, fen, _) => if v.Blank? then v else v.(told := v.told + [move], fen := fen)
    case _ => v
  }

  /** What a client makes of everything it was sent. */
  function ViewOf(inbox: seq<Message>): View {
    if inbox == [] then Blank
    else See(ViewOf(inbox[..|inbox| - 1]), inbox[|inbox| - 1])
  }

  lemma ViewOfExtend(inbox: seq<Message>, m: Message)
    ensures ViewOf(inbox + [m]) == See(ViewOf(inbox), m)
  {
  }

  /** The client was seated after `at` moves: its snapshot is the position then, the moves it
      was told are the history from there on, and it shows the position now. After a resume
      the snapshot also holds the moves before. */
  ghost predicate Agrees(r: Rules, room: Room, at: nat, v: View) {
    && v.View?
    && at <= |room.history|
    && v.snap == r.fen(Replay(r, room.history[..at]))
    && v.told == room.history[at..]
    && v.fen == r.fen(room.board)
    && (v.whole ==> v.given == room.history[..at])
  }

  ghost predicate ConnAgrees(r: Rules, room: Room, c: Conn) {
    Agrees(r, room, c.seatedAt, ViewOf(c.inbox))
  }

  ghost predicate SlotAgrees(r: Rules, s: State, room: Room, slot: Option<SocketId>) {
    slot.Some? ==> slot.value in s.conns && ConnAgrees(r, room, s.conns[slot.value])
  }

  ghost predicate RoomViews(r: Rules, s: State, room: Room) {
    SlotAgrees(r, s, room, room.white) && SlotAgrees(r, s, room, room.black)
  }

  ghost predicate ViewsAgree(r: Rules, s: State) {
    forall g :: g in s.rooms ==> RoomViews(r, s, s.rooms[g])
  }

  // ---------------------------------------------------------------- messages

  predicate Neutral(m: Message) {
    !m.Joined? && !m.Resumed? && !m.Moved?
  }

  ghost predicate SameView(s: State, t: State, i: SocketId) {
    i in s.conns ==>
      && i in t.conns
      && t.conns[i].seatedAt == s.conns[i].seatedAt
      && ViewOf(t.conns[i].inbox) == ViewOf(s.conns[i].inbox)
  }

  /** Nobody's view changed. */
  ghost predicate SameViews(s: State, t: State) {
    forall i :: i in s.conns ==> SameView(s, t, i)
  }

  lemma NeutralSend(s: State, sid: SocketId, m: Message)
    requires Neutral(m)
    ensures SameViews(s, Send(s, sid, m))
  {
  }

  lemma NeutralBroadcast(s: State, room: Room, m: Message)
    requires Neutral(m)
    ensures SameViews(s, Broadcast(s, room, m))
  {
    var s1 := SendSlot(s, room.white, m);
    if room.white.Some? {
      NeutralSend(s, room.white.value, m);
    }
    if room.black.Some? {
      NeutralSend(s1, room.black.value, m);
    }
    forall i | i in s.conns
      ensures SameView(s, Broadcast(s, room, m), i)
    {
      assert SameView(s, s1, i) && SameView(s1, Broadcast(s, room, m), i);
    }
  }

  /** A broadcast reaches each occupant once when the slots hold different connections. */
  lemma BroadcastReach(s: State, room: Room, m: Message, i: SocketId)
    requires i in s.conns
    requires room.white.Some? ==> room.white != room.black
    ensures i in Broadcast(s, room, m).conns
    ensures Broadcast(s, room, m).conns[i].inbox
            == if room.white == Some(i) || room.black == Some(i) then s.conns[i].inbox + [m]
               else s.conns[i].inbox
  {
  }

  /** Views hold when every room keeps its game and its slots, or empties some. */
  predicate FewerSlots(a: Room, b: Room) {
    && SameGame(a, b)
    && (b.white == a.white || b.white.None?)
    && (b.black == a.black || b.black.None?)
  }

  lemma ViewsKept(r: Rules, s: State, t: State)
    requires ViewsAgree(r, s) && SameViews(s, t)
    requires forall g :: g in t.rooms ==> g in s.rooms && FewerSlots(s.rooms[g], t.rooms[g])
    ensures ViewsAgree(r, t)
  {
    forall g | g in t.rooms
      ensures RoomViews(r, t, t.rooms[g])
    {
      assert RoomViews(r, s, s.rooms[g]);
      assert t.rooms[g].white.Some? ==> SameView(s, t, t.rooms[g].white.value);
      assert t.rooms[g].black.Some? ==> SameView(s, t, t.rooms[g].black.value);
    }
  }

  // ---------------------------------------------------------------- handlers

  lemma SlotsDiffer(s: State, g: string)
    requires SlotsOk(s) && g in s.rooms
    ensures s.rooms[g].white.Some? ==> s.rooms[g].white != s.rooms[g].black
  {
  }

  lemma ViewsPlayed(r: Rules, s: State, g: string, text: string)
    requires SlotsOk(s) && ViewsAgree(r, s) && g in s.rooms
    ensures ViewsAgree(r, Played(r, s, g, text))
  {
    var room := RoomAfter(r, s.rooms[g], text);
    var m := Moved(text, r.fen(room.board), Turn(r, room.board));
    var s0 := CountMove(PutRoom(s, g, room));
    var t := Played(r, s, g, text);
    SlotsDiffer(s, g);
    forall h | h in t.rooms
      ensures RoomViews(r, t, t.rooms[h])
    {
      assert RoomViews(r, s, s.rooms[h]);
      assert SlotsTrue(s, h) && SlotsTrue(s, g);
      SlotAfterMove(r, s0, s.rooms[h], room, m, t.rooms[h].white, h == g);
      SlotAfterMove(r, s0, s.rooms[h], room, m, t.rooms[h].black, h == g);
    }
  }

  lemma SlotAfterMove(r: Rules, s: State, prior: Room, room: Room, m: Message, slot: Option<SocketId>, here: bool)
    requires SlotAgrees(r, s, prior, slot)
    requires room.white.Some? ==> room.white != room.black
    requires m.Moved? && m.fen == r.fen(room.board)
    requires here && slot.Some? ==> (slot == room.white || slot == room.black)
                                    && room.history == prior.history + [m.move]
    requires !here && slot.Some? ==> slot != room.white && slot != room.black
    ensures SlotAgrees(r, Broadcast(s, room, m), if here then room else prior, slot)
  {
    if slot.Some? {
      BroadcastReach(s, room, m, slot.value);
      ViewOfExtend(s.conns[slot.value].inbox, m);
      if here {
        AgreesAfterMove(r, prior, room, s.conns[slot.value].seatedAt, ViewOf(s.conns[slot.value].inbox), m);
      }
    }
  }

  lemma AgreesAfterMove(r: Rules, prior: Room, room: Room, at: nat, v: View, m: Message)
    requires Agrees(r, prior, at, v) && m.Moved? && m.fen == r.fen(room.board)
    requires room.history == prior.history + [m.move]
    ensures Agrees(r, room, at, See(v, m))
  {
    assert room.history[..at] == prior.history[..at];
    assert room.history[at..] == prior.history[at..] + [m.move];
  }

  lemma ViewsFinish(r: Rules, p: State, sid: SocketId, g: string)
    requires ViewsAgree(r, p) && sid in p.conns && g in p.rooms
    ensures ViewsAgree(r, Finish(r, p, sid, g))
  {
    var room := p.rooms[g];
    var m := GameOver(ResultText(r, room.board), ReasonText(r.over(room.board).0));
    NeutralBroadcast(p, room, m);
    FinishFrame(r, p, sid, g);
    ViewsKept(r, p, Broadcast(p, room, m));
    ViewsKept(r, Broadcast(p, room, m), Finish(r, p, sid, g));
  }

  lemma ViewsMove(r: Rules, s: State, sid: SocketId, text: string)
    requires SlotsOk(s) && ViewsAgree(r, s) && sid in s.conns
    ensures ViewsAgree(r, OnMove(r, s, sid, text))
  {
    if Accepted(r, s, sid, text) {
      var g := s.conns[sid].gameId;
      ViewsPlayed(r, s, g, text);
      PlayedFrame(r, s, g, text);
      var p := Played(r, s, g, text);
      if r.over(p.rooms[g].board).1 != NoResult {
        ViewsFinish(r, p, sid, g);
      }
    } else {
      ViewsTold(r, s, sid, ErrorText("not your turn"));
      ViewsTold(r, s, sid, ErrorText("illegal move"));
    }
  }

  lemma CloseViews(s: State, sid: SocketId)
    requires sid in s.conns
    ensures SameViews(s, OnClose(s, sid))
  {
    var g := s.conns[sid].gameId;
    if g in s.rooms {
      var room := ClearSlot(s.rooms[g], s.conns[sid].color);
      var s1 := PutRoom(Unregister(s, sid), g, room);
      var t1 := Broadcast(s1, room, OpponentDisconnected);
      NeutralBroadcast(s1, room, OpponentDisconnected);
      forall i | i in s.conns
        ensures SameView(s, OnClose(s, sid), i)
      {
        assert SameView(s1, t1, i);
      }
    }
  }

  lemma ViewsClose(r: Rules, s: State, sid: SocketId)
    requires ViewsAgree(r, s) && sid in s.conns
    ensures ViewsAgree(r, OnClose(s, sid))
  {
    CloseFrame(s, sid);
    CloseViews(s, sid);
    ViewsKept(r, s, OnClose(s, sid));
  }

  /** Everyone but the connection being seated. */
  ghost predicate OthersAgree(r: Rules, s: State, sid: SocketId) {
    forall g :: g in s.rooms ==>
      && (s.rooms[g].white != Some(sid) ==> SlotAgrees(r, s, s.rooms[g], s.rooms[g].white))
      && (s.rooms[g].black != Some(sid) ==> SlotAgrees(r, s, s.rooms[g], s.rooms[g].black))
  }

  lemma ViewsSit(r: Rules, s: State, sid: SocketId, seat: Seat)
    requires ViewsAgree(r, s) && sid in s.conns
    ensures OthersAgree(r, Sit(r, s, sid, seat), sid)
  {
    var t := Sit(r, s, sid, seat);
    forall g | g in t.rooms
      ensures t.rooms[g].white != Some(sid) ==> SlotAgrees(r, t, t.rooms[g], t.rooms[g].white)
      ensures t.rooms[g].black != Some(sid) ==> SlotAgrees(r, t, t.rooms[g], t.rooms[g].black)
    {
      assert g in s.rooms ==> RoomViews(r, s, s.rooms[g]);
    }
  }

  /** The answer to a join or a resume. */
  predicate Snapshot(r: Rules, room: Room, m: Message) {
    && (m.Joined? || (m.Resumed? && m.moves == room.history))
    && m.fen == r.fen(room.board)
  }

  lemma GreetNewcomer(r: Rules, room: Room, c: Conn, m: Message)
    requires room.board == Replay(r, room.history) && c.seatedAt == |room.history| && Snapshot(r, room, m)
    ensures ConnAgrees(r, room, c.(inbox := c.inbox + [m]))
  {
    ViewOfExtend(c.inbox, m);
    assert room.history[..|room.history|] == room.history;
  }

  lemma GreetSlot(r: Rules, s: State, sid: SocketId, m: Message, room: Room, slot: Option<SocketId>)
    requires sid in s.conns && (slot != Some(sid) ==> SlotAgrees(r, s, room, slot))
    requires slot == Some(sid) ==> ConnAgrees(r, room, s.conns[sid].(inbox := s.conns[sid].inbox + [m]))
    ensures SlotAgrees(r, Send(s, sid, m), room, slot)
  {
  }

  /** Just seated in room `g`. */
  ghost predicate Newcomer(r: Rules, s: State, sid: SocketId, g: string) {
    && sid in s.conns && g in s.rooms
    && s.conns[sid].gameId == g && s.conns[sid].seatedAt == |s.rooms[g].history|
    && s.rooms[g].board == Replay(r, s.rooms[g].history)
  }

  lemma GreetRoom(r: Rules, s: State, sid: SocketId, g: string, m: Message, h: string)
    requires SlotsOk(s) && OthersAgree(r, s, sid) && Newcomer(r, s, sid, g) && Snapshot(r, s.rooms[g], m)
    requires h in s.rooms
    ensures RoomViews(r, Send(s, sid, m), s.rooms[h])
  {
    assert SlotsTrue(s, h);
    GreetNewcomer(r, s.rooms[g], s.conns[sid], m);
    GreetSlot(r, s, sid, m, s.rooms[h], s.rooms[h].white);
    GreetSlot(r, s, sid, m, s.rooms[h], s.rooms[h].black);
  }

  /** The snapshot brings the newcomer's view in line. */
  lemma ViewsGreet(r: Rules, s: State, sid: SocketId, g: string, m: Message)
    requires SlotsOk(s) && OthersAgree(r, s, sid) && Newcomer(r, s, sid, g) && Snapshot(r, s.rooms[g], m)
    ensures ViewsAgree(r, Send(s, sid, m))
  {
    forall h | h in s.rooms
      ensures RoomViews(r, Send(s, sid, m), s.rooms[h])
    {
      GreetRoom(r, s, sid, g, m, h);
    }
  }

  /** `t` is the state after the seat was taken and before the answer. */
  lemma ViewsJoined(r: Rules, t: State, sid: SocketId, seat: Seat, token: string)
    requires SlotsOk(t) && OthersAgree(r, t, sid) && Newcomer(r, t, sid, seat.gameId)
    ensures ViewsAgree(r, AnswerJoin(r, t, sid, seat, token))
  {
    ViewsGreet(r, t, sid, seat.gameId, Joined(seat.color, r.fen(t.rooms[seat.gameId].board), token));
  }

  lemma ViewsResumed(r: Rules, t: State, sid: SocketId, seat: Seat, token: string)
    requires SlotsOk(t) && OthersAgree(r, t, sid) && Newcomer(r, t, sid, seat.gameId)
    ensures ViewsAgree(r, AnswerResume(r, t, sid, seat, token))
  {
    var room := t.rooms[seat.gameId];
    var m := Resumed(seat.color, r.fen(room.board), room.history, token);
    var u := Send(t, sid, m);
    ViewsGreet(r, t, sid, seat.gameId, m);
    NeutralBroadcast(u, room, OpponentReconnected);
    BroadcastSame(u, room, OpponentReconnected);
    ViewsKept(r, u, Broadcast(u, room, OpponentReconnected));
  }

  lemma SitIsNewcomer(r: Rules, s: State, sid: SocketId, seat: Seat)
    requires sid in s.conns && BoardsReplay(r, s)
    ensures Newcomer(r, Sit(r, s, sid, seat), sid, seat.gameId)
  {
  }

  ghost predicate BoardsReplay(r: Rules, s: State) {
    forall g :: g in s.rooms ==> s.rooms[g].board == Replay(r, s.rooms[g].history)
  }

  lemma ViewsAdmit(r: Rules, s: State, cb: Callback)
    requires ViewsAgree(r, s) && BoardsReplay(r, s) && cb.sid in s.conns && cb.seat.Some?
    requires SlotsOk(Sit(r, s, cb.sid, cb.seat.value))
    ensures ViewsAgree(r, Admit(r, s, cb))
  {
    var t := Sit(r, s, cb.sid, cb.seat.value);
    ViewsSit(r, s, cb.sid, cb.seat.value);
    SitIsNewcomer(r, s, cb.sid, cb.seat.value);
    if cb.JoinDone? {
      ViewsJoined(r, t, cb.sid, cb.seat.value, cb.token);
    } else {
      ViewsResumed(r, t, cb.sid, cb.seat.value, cb.token);
    }
  }

  // ---------------------------------------------------------------- steps and runs

  lemma ViewsTold(r: Rules, s: State, sid: SocketId, m: Message)
    requires ViewsAgree(r, s) && Neutral(m)
    ensures ViewsAgree(r, Send(s, sid, m))
  {
  }

  lemma ViewsFrame(r: Rules, s: State, sid: SocketId, now: int, frame: Frame)
    requires SlotsOk(s) && ViewsAgree(r, s) && sid in s.conns
    ensures ViewsAgree(r, OnFrame(r, s, sid, now, frame))
  {
    if frame.TooLarge? {
      ViewsTold(r, s, sid, ErrorText("message too large"));
    } else {
      var s1 := Count(s, sid, now);
      ViewsKept(r, s, s1);
      SeatingCounted(s, sid, now);
      if !Limiter.Passes(s.conns[sid].window, now) {
        ViewsTold(r, s1, sid, ErrorText("rate limit exceeded"));
      } else if frame.NotJson? {
        ViewsTold(r, s1, sid, ErrorText("invalid json"));
      } else {
        match frame.payload
        case JoinMatch(ticket, color) => ViewsKept(r, s1, Enqueue(s1, JoinJob(sid, ticket, color)));
        case PlayMove(move) => ViewsMove(r, s1, sid, move);
        case ResumeMatch(token) => ViewsKept(r, s1, Enqueue(s1, ResumeJob(sid, token)));
        case UnknownType => ViewsTold(r, s1, sid, ErrorText("unknown message type"));
      }
    }
  }

  lemma ViewsRefuse(r: Rules, s: State, sid: SocketId, text: string)
    requires ViewsAgree(r, s) && sid in s.conns
    ensures ViewsAgree(r, Refuse(s, sid, text))
  {
    ViewsTold(r, s, sid, ErrorText(text));
    ViewsClose(r, Send(s, sid, ErrorText(text)), sid);
  }

  lemma ViewsHandle(r: Rules, s: State, cb: Callback)
    requires ViewsAgree(r, s) && BoardsReplay(r, s)
    requires cb.sid in s.live && cb.sid in s.conns && Refusal(s, cb).None?
             ==> SlotsOk(Sit(r, s, cb.sid, cb.seat.value))
    ensures ViewsAgree(r, Handle(r, s, cb))
  {
    if cb.sid in s.live && cb.sid in s.conns {
      if Refusal(s, cb).Some? {
        ViewsRefuse(r, s, cb.sid, Refusal(s, cb).value);
      } else {
        ViewsAdmit(r, s, cb);
      }
    }
  }

  lemma ViewsCallback(r: Rules, s: State, k: nat)
    requires Sound(s) && SlotsOk(s) && ViewsAgree(r, s) && BoardsReplay(r, s)
    requires k < |s.deferred| && SeatDiscipline(s, CallbackRun(k))
    ensures ViewsAgree(r, OnCallback(r, s, k))
  {
    var cb := s.deferred[k];
    var s1 := s.(deferred := RemoveAt(s.deferred, k));
    ViewsKept(r, s, s1);
    if SeatsOne(s, CallbackRun(k)) {
      SlotsSit(r, s, cb.sid, cb.seat.value);
      SeatingSame(Sit(r, s, cb.sid, cb.seat.value), Sit(r, s1, cb.sid, cb.seat.value));
    }
    ViewsHandle(r, s1, cb);
  }

  lemma ViewsOpen(r: Rules, s: State)
    requires Sound(s) && ViewsAgree(r, s)
    ensures ViewsAgree(r, OnOpen(s))
  {
    ViewsKept(r, s, OnOpen(s));
  }

  lemma ViewsWorker(r: Rules, s: State, e: Event)
    requires ViewsAgree(r, s) && Enabled(s, e) && WorkerEvent(e)
    ensures ViewsAgree(r, Step(r, s, e))
  {
    ViewsKept(r, s, Step(r, s, e));
  }

  lemma ViewsStep(r: Rules, s: State, e: Event)
    requires Sound(s) && SlotsOk(s) && ViewsAgree(r, s) && BoardsReplay(r, s)
    requires Enabled(s, e) && SeatDiscipline(s, e)
    ensures ViewsAgree(r, Step(r, s, e))
  {
    match e
    case Opened => ViewsOpen(r, s);
    case Received(sid, now, frame) => ViewsFrame(r, s, sid, now, frame);
    case Closed(sid) => ViewsClose(r, s, sid);
    case CallbackRun(k) => ViewsCallback(r, s, k);
    case _ => ViewsWorker(r, s, e);
  }

  lemma RecordedBoards(r: Rules, s: State)
    requires Recorded(r, s)
    ensures BoardsReplay(r, s)
  {
    forall g | g in s.rooms
      ensures s.rooms[g].board == Replay(r, s.rooms[g].history)
    {
      assert RoomReplays(r, s.rooms[g]);
    }
  }

  /** Along a run that respects the seat discipline, every client in a slot was shown the
      position it was seated in, was told exactly the moves played since, and shows the
      room's position. */
  lemma {:induction false} ClientsSeeTheGame(r: Rules, es: seq<Event>)
    requires Lawful(r) && IsRun(r, es) && SeatDisciplined(r, es)
    ensures SlotsOk(Exec(r, es)) && ViewsAgree(r, Exec(r, es))
    decreases |es|
  {
    if es != [] {
      var pre := es[..|es| - 1];
      ClientsSeeTheGame(r, pre);
      SoundAlways(r, pre);
      RecordedAlways(r, pre);
      RecordedBoards(r, Exec(r, pre));
      SlotsStep(r, Exec(r, pre), es[|es| - 1]);
      ViewsStep(r, Exec(r, pre), es[|es| - 1]);
    }
  }

  /** Playing the moves it was told from the position of its snapshot gives the client the
      server's board; after a resume it can also replay the whole game. */
  ghost predicate Rebuilds(r: Rules, room: Room, at: nat, v: View) {
    && v.View?
    && at <= |room.history|
    && v.snap == r.fen(Replay(r, room.history[..at]))
    && PlayOn(r, Replay(r, room.history[..at]), v.told) == room.board
    && (v.whole ==> v.given + v.told == room.history && Replay(r, v.given + v.told) == room.board)
  }

  lemma AgreeingRebuilds(r: Rules, room: Room, at: nat, v: View)
    requires Agrees(r, room, at, v) && room.board == Replay(r, room.history)
    ensures Rebuilds(r, room, at, v)
  {
    assert room.history == room.history[..at] + room.history[at..];
    ReplaySplit(r, room.history[..at], room.history[at..]);
  }

  lemma SeatedClientRebuilds(r: Rules, es: seq<Event>, g: string, i: SocketId)
    requires Lawful(r) && IsRun(r, es) && SeatDisciplined(r, es)
    requires g in Exec(r, es).rooms
    requires Exec(r, es).rooms[g].white == Some(i) || Exec(r, es).rooms[g].black == Some(i)
    ensures i in Exec(r, es).live && i in Exec(r, es).conns
    ensures var c := Exec(r, es).conns[i];
            Rebuilds(r, Exec(r, es).rooms[g], c.seatedAt, ViewOf(c.inbox))
  {
    var s := Exec(r, es);
    ClientsSeeTheGame(r, es);
    RecordedAlways(r, es);
    RecordedBoards(r, s);
    assert RoomViews(r, s, s.rooms[g]) && SlotsTrue(s, g);
    AgreeingRebuilds(r, s.rooms[g], s.conns[i].seatedAt, ViewOf(s.conns[i].inbox));
  }
}
