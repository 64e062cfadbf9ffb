/** What a client, or anyone looking at the rooms, sees of each event: who is told what, which
    seats and rooms come and go, what is queued. Said of the states before and after, without
    the handlers; nothing else may change. */
module SessionEffects {
  import opened Wrappers
  import opened ChessRules
  import opened Seats
  import opened Session
  import opened SessionFrames
  import opened SessionInvariants
  import Limiter = SocketLimiter

  // ---------------------------------------------------------------- who hears what

  /** The message once for each slot of the room that the connection holds. */
  function Copies(white: Option<SocketId>, black: Option<SocketId>, i: SocketId, m: Message): seq<Message> {
    (if white == Some(i) then [m] else []) + (if black == Some(i) then [m] else [])
  }

  ghost predicate Heard(s: State, t: State, i: SocketId, told: seq<Message>)
    requires i in s.conns
  {
    i in t.conns && t.conns[i].inbox == s.conns[i].inbox + told
  }

  /** Nothing changed but one connection's window and what it was told. */
  ghost predicate OnlyHeard(s: State, t: State, sid: SocketId, window: Limiter.Window, told: seq<Message>)
    requires sid in s.conns
  {
    && t == s.(conns := t.conns)
    && t.conns.Keys == s.conns.Keys
    && t.conns[sid] == s.conns[sid].(window := window, inbox := s.conns[sid].inbox + told)
    && forall i :: i in s.conns && i != sid ==> t.conns[i] == s.conns[i]
  }

  lemma SendHeard(s: State, sid: SocketId, m: Message, i: SocketId)
    requires i in s.conns
    ensures Heard(s, Send(s, sid, m), i, if i == sid then [m] else [])
  {
  }

  lemma SlotHeard(s: State, slot: Option<SocketId>, m: Message, i: SocketId)
    requires i in s.conns
    ensures Heard(s, SendSlot(s, slot, m), i, if slot == Some(i) then [m] else [])
  {
  }

  lemma BroadcastHeard(s: State, room: Room, m: Message, i: SocketId)
    requires i in s.conns
    ensures Heard(s, Broadcast(s, room, m), i, Copies(room.white, room.black, i, m))
  {
    SlotHeard(s, room.white, m, i);
    SlotHeard(SendSlot(s, room.white, m), room.black, m, i);
  }

  lemma ToldOnly(s: State, sid: SocketId, m: Message)
    requires sid in s.conns
    ensures OnlyHeard(s, Send(s, sid, m), sid, s.conns[sid].window, [m])
  {
    assert Send(s, sid, m).conns.Keys == s.conns.Keys;
  }

  // ---------------------------------------------------------------- open

  lemma OpenDoes(r: Rules, s: State)
    requires Sound(s)
    ensures var t := Step(r, s, Opened);
            && s.nextId !in s.conns
            && t == s.(conns := t.conns, live := s.live + {s.nextId}, nextId := s.nextId + 1,
                       connectedSockets := s.connectedSockets + 1)
            && t.conns == s.conns[s.nextId := Conn("", "", "", 0, Limiter.Window(0, 0), [])]
  {
  }

  // ---------------------------------------------------------------- messages that are turned down

  /** Why a message is answered with an error, or with nothing, and goes no further. The limit
      of ten comes before anything the message says. */
  function TurnedDown(r: Rules, s: State, sid: SocketId, now: int, frame: Frame): Option<seq<string>>
    requires sid in s.conns
  {
    var c := s.conns[sid];
    if frame.TooLarge? then Some(["message too large"])
    else if Limiter.Roll(c.window, now).count > 10 then Some(["rate limit exceeded"])
    else if frame.NotJson? then Some(["invalid json"])
    else if frame.payload.UnknownType? then Some(["unknown message type"])
    else if !frame.payload.PlayMove? then None
    else if c.gameId !in s.rooms then Some([])
    else if r.whiteToMove(s.rooms[c.gameId].board) != (c.color == "white") then Some(["not your turn"])
    else if !CanPlay(r, s.rooms[c.gameId], frame.payload.move) then Some(["illegal move"])
    else None
  }

  predicate CanPlay(r: Rules, room: Room, text: string) {
    r.parse(room.board, text) in r.legal(room.board)
  }

  function Errors(texts: seq<string>): seq<Message> {
    seq(|texts|, n requires 0 <= n < |texts| => ErrorText(texts[n]))
  }

  lemma RefusedMoveDoes(r: Rules, s: State, sid: SocketId, text: string)
    requires sid in s.conns && !Accepted(r, s, sid, text)
    ensures var c := s.conns[sid];
            OnlyHeard(s, OnMove(r, s, sid, text), sid, c.window,
                      if c.gameId !in s.rooms then []
                      else if r.whiteToMove(s.rooms[c.gameId].board) != (c.color == "white")
                        then [ErrorText("not your turn")]
                      else [ErrorText("illegal move")])
  {
    ToldOnly(s, sid, ErrorText("not your turn"));
    ToldOnly(s, sid, ErrorText("illegal move"));
  }

  lemma CountedThenHeard(s: State, t: State, sid: SocketId, now: int, told: seq<Message>)
    requires sid in s.conns && OnlyHeard(Count(s, sid, now), t, sid, Limiter.Roll(s.conns[sid].window, now), told)
    ensures OnlyHeard(s, t, sid, Limiter.Roll(s.conns[sid].window, now), told)
  {
    assert Count(s, sid, now).conns.Keys == s.conns.Keys;
  }

  /** A message that is turned down changes nothing but its sender's window and inbox, and the
      window only if it was small enough to be counted. */
  lemma TurnedDownDoes(r: Rules, s: State, sid: SocketId, now: int, frame: Frame)
    requires sid in s.conns && TurnedDown(r, s, sid, now, frame).Some?
    ensures var window := if frame.TooLarge? then s.conns[sid].window else Limiter.Roll(s.conns[sid].window, now);
            OnlyHeard(s, OnFrame(r, s, sid, now, frame), sid, window,
                      Errors(TurnedDown(r, s, sid, now, frame).value))
  {
    var t := OnFrame(r, s, sid, now, frame);
    if frame.TooLarge? {
      ToldOnly(s, sid, ErrorText("message too large"));
      assert Errors(["message too large"]) == [ErrorText("message too large")];
    } else {
      CountedDown(r, s, sid, now, frame);
      CountedThenHeard(s, t, sid, now, Errors(TurnedDown(r, s, sid, now, frame).value));
    }
  }

  lemma CountedDown(r: Rules, s: State, sid: SocketId, now: int, frame: Frame)
    requires sid in s.conns && TurnedDown(r, s, sid, now, frame).Some? && !frame.TooLarge?
    ensures OnlyHeard(Count(s, sid, now), OnFrame(r, s, sid, now, frame), sid,
                      Limiter.Roll(s.conns[sid].window, now), Errors(TurnedDown(r, s, sid, now, frame).value))
  {
    var s1, texts := Count(s, sid, now), TurnedDown(r, s, sid, now, frame).value;
    if texts == [] {
      assert Errors(texts) == [];
      RefusedMoveDoes(r, s1, sid, frame.payload.move);
    } else {
      assert Errors(texts) == [ErrorText(texts[0])];
      if frame.Json? && frame.payload.PlayMove? && Limiter.Passes(s.conns[sid].window, now) {
        RefusedMoveDoes(r, s1, sid, frame.payload.move);
      } else {
        ToldOnly(s1, sid, ErrorText(texts[0]));
      }
    }
  }

  // ---------------------------------------------------------------- messages that are let in

  /** A join or a resume queues one job with what the client sent, at the back. */
  lemma AskDoes(r: Rules, s: State, sid: SocketId, now: int, payload: Payload)
    requires sid in s.conns && Limiter.Roll(s.conns[sid].window, now).count <= 10
    requires payload.JoinMatch? || payload.ResumeMatch?
    ensures var t := OnFrame(r, s, sid, now, Json(payload));
            var job := if payload.JoinMatch? then JoinJob(sid, payload.ticket, payload.color)
                       else ResumeJob(sid, payload.token);
            && OnlyHeard(s, t.(jobs := s.jobs, issued := s.issued), sid, Limiter.Roll(s.conns[sid].window, now), [])
            && t.jobs == s.jobs + [job] && t.issued == s.issued + [job]
  {
    assert Count(s, sid, now).conns.Keys == s.conns.Keys;
  }

  function SideName(white: bool): string {
    if white then "white" else "black"
  }

  /** What the two players are told of a move. */
  function MoveMessage(r: Rules, b: Board, text: string): Message {
    Moved(text, r.fen(b), SideName(r.whiteToMove(b)))
  }

  predicate ReasonRight(reason: GameReason, text: string) {
    && (reason == Checkmate ==> text == "checkmate")
    && (reason == Stalemate ==> text == "stalemate")
    && (reason == InsufficientMaterial ==> text == "insufficient_material")
    && (reason == FiftyMoveRule ==> text == "fifty_move_rule")
    && (reason == ThreefoldRepetition ==> text == "threefold_repetition")
    && (reason == NoReason ==> text == "unknown")
  }

  /** What they are told when the position is final: the side to move has lost, if any has. */
  predicate EndMessage(r: Rules, b: Board, m: Message) {
    && m.GameOver?
    && ReasonRight(r.over(b).0, m.reason)
    && m.result == (if r.over(b).1 == Lose then SideName(!r.whiteToMove(b)) + "_wins" else "draw")
  }

  /** The accepted move: board and history go on, the counter goes up, nobody else's data
      changes. */
  ghost predicate MovePlayed(r: Rules, s: State, t: State, g: string, text: string)
    requires g in s.rooms
  {
    var room := s.rooms[g];
    var b := r.make(room.board, r.parse(room.board, text));
    && t.movesTotal == s.movesTotal + 1
    && t.live == s.live && t.nextId == s.nextId && t.connectedSockets == s.connectedSockets
    && t.running == s.running && t.deferred == s.deferred
    && SameButInboxes(s, s.(conns := t.conns))
    && if r.over(b).1 == NoResult then
         && t.rooms == s.rooms[g := room.(board := b, history := room.history + [text])]
         && t.jobs == s.jobs && t.issued == s.issued && t.activeGames == s.activeGames
         && t.fates == s.fates && t.reported == s.reported
       else
         && t.rooms == s.rooms - {g} && t.activeGames == s.activeGames - 1
         && |t.jobs| == |s.jobs| + 1 && t.jobs[..|s.jobs|] == s.jobs
         && EndReport(r, s, b, room, g, text, t.jobs[|s.jobs|])
         && t.issued == s.issued + [t.jobs[|s.jobs|]]
  }

  /** The report names the match, the whole move list, and whoever is in the winner's slot. */
  ghost predicate EndReport(r: Rules, s: State, b: Board, room: Room, g: string, text: string, j: Job) {
    && j.ReportJob? && j.gameId == g && j.moves == room.history + [text]
    && j.winner == (if r.over(b).1 != Lose then ""
                    else SlotUser(s, if r.whiteToMove(b) then room.black else room.white))
  }

  lemma PlayedHeard(r: Rules, s: State, g: string, text: string, i: SocketId)
    requires g in s.rooms && i in s.conns
    ensures var room := s.rooms[g];
            var b := r.make(room.board, r.parse(room.board, text));
            Heard(s, Played(r, s, g, text), i, Copies(room.white, room.black, i, MoveMessage(r, b, text)))
  {
    var room := RoomAfter(r, s.rooms[g], text);
    var s1 := CountMove(PutRoom(s, g, room));
    BroadcastHeard(s1, room, Moved(text, r.fen(room.board), Turn(r, room.board)), i);
  }

  /** The message that ends a game. */
  function EndText(r: Rules, b: Board): Message {
    GameOver(ResultText(r, b), ReasonText(r.over(b).0))
  }

  lemma EndTextRight(r: Rules, b: Board)
    ensures EndMessage(r, b, EndText(r, b))
  {
    assert "white" + "_wins" == "white_wins" && "black" + "_wins" == "black_wins";
  }

  lemma FinishHeard(r: Rules, s: State, sid: SocketId, g: string, i: SocketId)
    requires sid in s.conns && g in s.rooms && i in s.conns
    ensures var room := s.rooms[g];
            Heard(s, Finish(r, s, sid, g), i, Copies(room.white, room.black, i, EndText(r, room.board)))
  {
    var room := s.rooms[g];
    BroadcastHeard(s, room, EndText(r, room.board), i);
  }

  lemma MoveChanges(r: Rules, s: State, sid: SocketId, text: string)
    requires sid in s.conns && Accepted(r, s, sid, text)
    ensures MovePlayed(r, s, OnMove(r, s, sid, text), s.conns[sid].gameId, text)
  {
    var g := s.conns[sid].gameId;
    var p := Played(r, s, g, text);
    PlayedFrame(r, s, g, text);
    if r.over(p.rooms[g].board).1 != NoResult {
      FinishFrame(r, p, sid, g);
      SameTrans(s, s.(conns := p.conns), s.(conns := Finish(r, p, sid, g).conns));
      assert p.rooms - {g} == s.rooms - {g};
      WinnerSame(r, s, s.(conns := p.conns), p.rooms[g]);
    }
  }

  /** Whoever holds a slot is told the move and, if it was the last, the end; nobody else. */
  lemma MoveHeard(r: Rules, s: State, sid: SocketId, text: string, i: SocketId)
    requires sid in s.conns && Accepted(r, s, sid, text) && i in s.conns
    ensures var room := s.rooms[s.conns[sid].gameId];
            var b := r.make(room.board, r.parse(room.board, text));
            var end := EndText(r, b);
            && EndMessage(r, b, end)
            && Heard(s, OnMove(r, s, sid, text), i,
                     Copies(room.white, room.black, i, MoveMessage(r, b, text))
                     + if r.over(b).1 == NoResult then [] else Copies(room.white, room.black, i, end))
  {
    var g := s.conns[sid].gameId;
    var p := Played(r, s, g, text);
    PlayedFrame(r, s, g, text);
    PlayedHeard(r, s, g, text, i);
    EndTextRight(r, p.rooms[g].board);
    if r.over(p.rooms[g].board).1 != NoResult {
      FinishHeard(r, p, sid, g, i);
    }
  }

  /** A move that is let in, in turn and legal is played, whether or not it is the last. */
  lemma MoveDoes(r: Rules, s: State, sid: SocketId, now: int, text: string)
    requires sid in s.conns && s.conns[sid].gameId in s.rooms
    requires TurnedDown(r, s, sid, now, Json(PlayMove(text))).None?
    ensures MovePlayed(r, Count(s, sid, now), OnFrame(r, s, sid, now, Json(PlayMove(text))),
                       s.conns[sid].gameId, text)
  {
    MoveChanges(r, Count(s, sid, now), sid, text);
  }

  // ---------------------------------------------------------------- close

  function WithoutSlot(room: Room, white: bool): Room {
    Room(if white then None else room.white, if white then room.black else None,
         room.board, room.history, room.number)
  }

  /** The connection goes, its slot is emptied, and the room with it if the other one is empty;
      whoever is left in the room is told, and nobody else. */
  ghost predicate ClosedDown(s: State, t: State, sid: SocketId)
    requires sid in s.conns
  {
    var c := s.conns[sid];
    && t.live == s.live - {sid} && t.nextId == s.nextId && t.connectedSockets == s.connectedSockets - 1
    && t.jobs == s.jobs && t.issued == s.issued && t.running == s.running && t.deferred == s.deferred
    && t.movesTotal == s.movesTotal && t.reported == s.reported
    && SameButInboxes(s, s.(conns := t.conns))
    && if c.gameId !in s.rooms then
         && t.rooms == s.rooms && t.activeGames == s.activeGames && t.fates == s.fates
         && t.conns == s.conns
       else
         var room := WithoutSlot(s.rooms[c.gameId], c.color == "white");
         && (if room.white.None? && room.black.None? then
               t.rooms == s.rooms - {c.gameId} && t.activeGames == s.activeGames - 1
             else
               t.rooms == s.rooms[c.gameId := room] && t.activeGames == s.activeGames && t.fates == s.fates)
         && forall i :: i in s.conns ==> Heard(s, t, i, Copies(room.white, room.black, i, OpponentDisconnected))
  }

  lemma CloseDoes(s: State, sid: SocketId)
    requires sid in s.conns
    ensures ClosedDown(s, OnClose(s, sid), sid)
  {
    var c := s.conns[sid];
    CloseFrame(s, sid);
    if c.gameId in s.rooms {
      var room := ClearSlot(s.rooms[c.gameId], c.color);
      assert room == WithoutSlot(s.rooms[c.gameId], c.color == "white");
      forall i | i in s.conns
        ensures Heard(s, OnClose(s, sid), i, Copies(room.white, room.black, i, OpponentDisconnected))
      {
        BroadcastHeard(PutRoom(Unregister(s, sid), c.gameId, room), room, OpponentDisconnected, i);
      }
    }
  }

  // ---------------------------------------------------------------- callbacks

  /** What the asker of a callback is told when it is turned away: there is no seat for it, or
      it resumes a game that has no room. */
  function TurnedAway(s: State, cb: Callback): Option<string> {
    if cb.JoinDone? then (if cb.seat.None? then Some("invalid ticket") else None)
    else if cb.seat.None? then Some("invalid resume token")
    else if cb.seat.value.gameId !in s.rooms then Some("game no longer active")
    else None
  }

  /** Told why, and then closed. */
  ghost predicate ToldAndClosed(s: State, t: State, sid: SocketId, text: string)
    requires sid in s.conns
  {
    var told := s.(conns := s.conns[sid := s.conns[sid].(inbox := s.conns[sid].inbox + [ErrorText(text)])]);
    ClosedDown(told, t, sid)
  }

  lemma TurnedAwayDoes(r: Rules, s: State, k: nat)
    requires Sound(s) && k < |s.deferred| && s.deferred[k].sid in s.live
    requires TurnedAway(s, s.deferred[k]).Some?
    ensures ToldAndClosed(s.(deferred := RemoveAt(s.deferred, k)), OnCallback(r, s, k), s.deferred[k].sid,
                          TurnedAway(s, s.deferred[k]).value)
  {
    var cb, s1 := s.deferred[k], s.(deferred := RemoveAt(s.deferred, k));
    CloseDoes(Send(s1, cb.sid, ErrorText(TurnedAway(s, cb).value)), cb.sid);
  }

  function WithSlot(room: Room, white: bool, sid: SocketId): Room {
    Room(if white then Some(sid) else room.white, if white then room.black else Some(sid),
         room.board, room.history, room.number)
  }

  /** The room a match has, or the one it gets: nobody in it, and the start position. */
  function RoomFor(r: Rules, s: State, g: string): Room {
    if g in s.rooms then s.rooms[g] else Room(None, None, r.start, [], |s.fates|)
  }

  /** The seat is written into the connection and the connection into the slot of its colour,
      in a new room if the match has none. */
  ghost predicate SatDown(r: Rules, s: State, t: State, sid: SocketId, seat: Seat)
    requires sid in s.conns
  {
    var g := seat.gameId;
    && t.rooms == s.rooms[g := WithSlot(RoomFor(r, s, g), seat.color == "white", sid)]
    && t.activeGames == (if g in s.rooms then s.activeGames else s.activeGames + 1)
    && t.fates == (if g in s.rooms then s.fates else s.fates + [Playing(g)])
    && t == s.(rooms := t.rooms, conns := t.conns, activeGames := t.activeGames, fates := t.fates)
    && t.conns.Keys == s.conns.Keys
    && t.conns[sid] == s.conns[sid].(gameId := g, userId := seat.userId, color := seat.color,
                                     seatedAt := |RoomFor(r, s, g).history|, inbox := t.conns[sid].inbox)
    && forall i :: i in s.conns && i != sid ==> SameConn(s.conns[i], t.conns[i])
  }

  lemma SitDoes(r: Rules, s: State, t: State, sid: SocketId, seat: Seat)
    requires sid in s.conns && SameButInboxes(Sit(r, s, sid, seat), t)
    ensures SatDown(r, s, t, sid, seat)
  {
    var u := Sit(r, s, sid, seat);
    assert u.conns.Keys == s.conns.Keys;
    assert SameConn(u.conns[sid], t.conns[sid]);
    forall i | i in s.conns && i != sid
      ensures SameConn(s.conns[i], t.conns[i])
    {
      assert SameConn(u.conns[i], t.conns[i]);
    }
  }

  /** A join that is answered: the asker is seated and told its colour, the position and its
      token, and nobody else is told anything. */
  lemma JoinDoes(r: Rules, s: State, k: nat)
    requires Sound(s) && k < |s.deferred| && s.deferred[k].sid in s.live
    requires s.deferred[k].JoinDone? && s.deferred[k].seat.Some?
    ensures var cb := s.deferred[k];
            var s1, t := s.(deferred := RemoveAt(s.deferred, k)), OnCallback(r, s, k);
            && SatDown(r, s1, t, cb.sid, cb.seat.value)
            && forall i :: i in s.conns ==>
                 Heard(s, t, i,
                       if i == cb.sid then
                         [Joined(cb.seat.value.color, r.fen(RoomFor(r, s, cb.seat.value.gameId).board), cb.token)]
                       else [])
  {
    var cb, s1 := s.deferred[k], s.(deferred := RemoveAt(s.deferred, k));
    AdmitFrame(r, s1, cb);
    SitDoes(r, s1, OnCallback(r, s, k), cb.sid, cb.seat.value);
  }

  /** A resume that is answered: the asker is seated and told its colour, the position, all
      moves and its token; then whoever holds a slot is told that the opponent is back. */
  lemma ResumeDoes(r: Rules, s: State, k: nat)
    requires Sound(s) && k < |s.deferred| && s.deferred[k].sid in s.live
    requires s.deferred[k].ResumeDone? && s.deferred[k].seat.Some? && s.deferred[k].seat.value.gameId in s.rooms
    ensures var cb := s.deferred[k];
            var s1, t := s.(deferred := RemoveAt(s.deferred, k)), OnCallback(r, s, k);
            && SatDown(r, s1, t, cb.sid, cb.seat.value)
            && forall i :: i in s.conns ==> Heard(s, t, i, ResumeTold(r, s, cb, i))
  {
    var cb, s1 := s.deferred[k], s.(deferred := RemoveAt(s.deferred, k));
    AdmitFrame(r, s1, cb);
    SitDoes(r, s1, OnCallback(r, s, k), cb.sid, cb.seat.value);
    forall i | i in s.conns
      ensures Heard(s, OnCallback(r, s, k), i, ResumeTold(r, s, cb, i))
    {
      ResumeHeard(r, s1, cb, i);
    }
  }

  function ResumeTold(r: Rules, s: State, cb: Callback, i: SocketId): seq<Message>
    requires cb.seat.Some? && cb.seat.value.gameId in s.rooms
  {
    var seat, prior := cb.seat.value, s.rooms[cb.seat.value.gameId];
    var room := WithSlot(prior, seat.color == "white", cb.sid);
    (if i == cb.sid then [Resumed(seat.color, r.fen(prior.board), prior.history, cb.token)] else [])
    + Copies(room.white, room.black, i, OpponentReconnected)
  }

  lemma ResumeHeard(r: Rules, s: State, cb: Callback, i: SocketId)
    requires cb.ResumeDone? && cb.seat.Some? && cb.seat.value.gameId in s.rooms
    requires cb.sid in s.conns && i in s.conns
    ensures Heard(s, Admit(r, s, cb), i, ResumeTold(r, s, cb, i))
  {
    var seat := cb.seat.value;
    var t := Sit(r, s, cb.sid, seat);
    var room := t.rooms[seat.gameId];
    var m := Resumed(seat.color, r.fen(room.board), room.history, cb.token);
    SendHeard(t, cb.sid, m, i);
    BroadcastHeard(Send(t, cb.sid, m), room, OpponentReconnected, i);
  }

  /** A callback for a connection that is gone does nothing. */
  lemma GoneDoes(r: Rules, s: State, k: nat)
    requires k < |s.deferred| && s.deferred[k].sid !in s.live
    ensures OnCallback(r, s, k) == s.(deferred := RemoveAt(s.deferred, k))
  {
  }

  // ---------------------------------------------------------------- workers

  /** The oldest job goes to a worker. */
  lemma TakeDoes(s: State)
    requires s.jobs != []
    ensures s.jobs == [s.jobs[0]] + OnTaken(s).jobs
    ensures OnTaken(s) == s.(jobs := OnTaken(s).jobs, running := s.running + [Begun(s.jobs[0])])
  {
  }

  /** A worker hands back one callback, at the end, and is free. */
  ghost predicate HandsBack(s: State, t: State, k: nat, cb: Callback)
    requires k < |s.running|
  {
    t == s.(running := s.running[..k] + s.running[k + 1..], deferred := s.deferred + [cb])
  }

  /** A ticket that is no good comes back to its sender as a join without a seat; a good one
      goes on, under the ticket's match and player and the colour the client gave. */
  lemma VerifyDoes(s: State, k: nat, reply: Option<(string, string)>)
    requires Enabled(s, VerifyReturned(k, reply))
    ensures var job, t := s.running[k].job, OnVerify(s, k, reply);
            if reply.None? then HandsBack(s, t, k, JoinDone(job.sid, None, ""))
            else
              t == s.(running := s.running[k := Verified(job.sid, reply.value.0, reply.value.1, job.color)])
  {
  }

  lemma ResolveDoes(s: State, k: nat, seat: Option<Seat>)
    requires Enabled(s, ResolveReturned(k, seat))
    ensures var job, t := s.running[k].job, OnResolve(s, k, seat);
            if seat.None? then HandsBack(s, t, k, ResumeDone(job.sid, None, ""))
            else
              t == s.(running := s.running[k := Resolved(job.sid, seat.value.gameId, seat.value.userId,
                                                         seat.value.color)])
  {
  }

  /** The new token comes back with the seat it was made for, as the answer to what was asked. */
  lemma TokenDoes(s: State, k: nat, token: string)
    requires Enabled(s, TokenReturned(k, token))
    ensures var task := s.running[k];
            var seat := Some(Seat(task.gameId, task.userId, task.color));
            HandsBack(s, OnToken(s, k, token), k,
                      if task.Verified? then JoinDone(task.sid, seat, token) else ResumeDone(task.sid, seat, token))
  {
  }

  lemma ReportDoes(s: State, k: nat)
    requires Enabled(s, ReportReturned(k))
    ensures OnReport(s, k) == s.(running := s.running[..k] + s.running[k + 1..])
  {
  }

  // ---------------------------------------------------------------- rooms open by joins only

  /** A join for the room's match is answered. */
  predicate JoinAnswered(s: State, e: Event, g: string)
    requires Enabled(s, e)
  {
    && e.CallbackRun?
    && s.deferred[e.k].JoinDone? && s.deferred[e.k].sid in s.live
    && s.deferred[e.k].seat.Some? && s.deferred[e.k].seat.value.gameId == g
  }

  ghost predicate NoNewRoom(s: State, t: State) {
    t.rooms.Keys <= s.rooms.Keys && |t.fates| == |s.fates|
  }

  lemma FrameOpensNone(r: Rules, s: State, sid: SocketId, now: int, frame: Frame)
    requires sid in s.conns
    ensures NoNewRoom(s, OnFrame(r, s, sid, now, frame))
  {
    if TurnedDown(r, s, sid, now, frame).Some? {
      TurnedDownDoes(r, s, sid, now, frame);
    } else if frame.payload.PlayMove? {
      var s1 := Count(s, sid, now);
      PlayedFrame(r, s1, s.conns[sid].gameId, frame.payload.move);
      FinishFrame(r, Played(r, s1, s.conns[sid].gameId, frame.payload.move), sid, s.conns[sid].gameId);
    }
  }

  lemma CloseOpensNone(s: State, sid: SocketId)
    requires sid in s.conns
    ensures NoNewRoom(s, OnClose(s, sid))
  {
    CloseFrame(s, sid);
  }

  /** A resume never opens a room, answered or not. */
  lemma ResumeOpensNone(r: Rules, s: State, k: nat)
    requires Sound(s) && k < |s.deferred| && s.deferred[k].ResumeDone?
    ensures NoNewRoom(s, OnCallback(r, s, k))
  {
    var cb, s1 := s.deferred[k], s.(deferred := RemoveAt(s.deferred, k));
    if cb.sid in s.live {
      if TurnedAway(s, cb).Some? {
        CloseOpensNone(Send(s1, cb.sid, ErrorText(TurnedAway(s, cb).value)), cb.sid);
      } else {
        ResumeDoes(r, s, k);
      }
    }
  }

  lemma CallbackOpens(r: Rules, s: State, k: nat, g: string)
    requires Sound(s) && k < |s.deferred|
    ensures g in OnCallback(r, s, k).rooms && g !in s.rooms ==> JoinAnswered(s, CallbackRun(k), g)
    ensures |OnCallback(r, s, k).fates| > |s.fates| ==> s.deferred[k].JoinDone?
  {
    var cb, s1 := s.deferred[k], s.(deferred := RemoveAt(s.deferred, k));
    if cb.ResumeDone? {
      ResumeOpensNone(r, s, k);
    } else if cb.sid in s.live {
      if cb.seat.None? {
        CloseOpensNone(Send(s1, cb.sid, ErrorText("invalid ticket")), cb.sid);
      } else {
        JoinDoes(r, s, k);
      }
    }
  }

  /** On every run: a room comes into being only when a join for its match is answered. */
  lemma OnlyJoinsOpenRooms(r: Rules, es: seq<Event>, e: Event, g: string)
    requires IsRun(r, es) && Enabled(Exec(r, es), e)
    ensures var s, t := Exec(r, es), Step(r, Exec(r, es), e);
            && (g in t.rooms && g !in s.rooms ==> JoinAnswered(s, e, g))
            && (|t.fates| > |s.fates| ==> e.CallbackRun? && s.deferred[e.k].JoinDone?)
  {
    var s := Exec(r, es);
    SoundAlways(r, es);
    match e
    case Received(sid, now, frame) => FrameOpensNone(r, s, sid, now, frame);
    case Closed(sid) => CloseOpensNone(s, sid);
    case CallbackRun(k) => CallbackOpens(r, s, k, g);
    case _ =>
  }
}
