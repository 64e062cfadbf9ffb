/** The game server as it is written: connections and the server itself are objects whose
    fields the handlers change. Each handler is proved to do exactly what `Session` says;
    the ghost field `model` is the state the theorems about runs speak of. */
module GameServer {
  import opened Wrappers
  import opened ChessRules
  import opened Seats
  import opened Session
  import Sound = SessionInvariants
  import Limiter = SocketLimiter

  /** The per-socket data, and what the socket was sent. */
  class Connection {
    const socketId: SocketId
    var userId: string
    var gameId: string
    var color: string
    var msgCount: nat
    var windowStartMs: int
    var sent: seq<Message>
    ghost var seatedAt: nat

    constructor (id: SocketId)
      ensures socketId == id && Value() == NewConn
    {
      socketId := id;
      userId, gameId, color := "", "", "";
      msgCount, windowStartMs, seatedAt := 0, 0, 0;
      sent := [];
    }

    ghost function Value(): Conn
      reads this
    {
      Conn(userId, gameId, color, seatedAt, Limiter.Window(windowStartMs, msgCount), sent)
    }

    /** The seat is written into the socket's data. */
    method SetSeat(seat: Seat, ghost played: nat)
      modifies `gameId, `userId, `color, `seatedAt
      ensures Value() == old(Value()).(
                gameId := seat.gameId, userId := seat.userId, color := seat.color, seatedAt := played)
    {
      gameId := seat.gameId;
      userId := seat.userId;
      color := seat.color;
      seatedAt := played;
    }

    /** The fixed-window check in front of every message that is not too large. */
    method CountMessage(nowMs: int) returns (ok: bool)
      modifies `msgCount, `windowStartMs
      ensures Value() == old(Value()).(window := Limiter.Roll(old(Value()).window, nowMs))
      ensures ok == Limiter.Passes(old(Value()).window, nowMs)
    {
      if nowMs - windowStartMs > Limiter.RATE_WINDOW_MS {
        windowStartMs := nowMs;
        msgCount := 0;
      }
      msgCount := msgCount + 1;
      ok := msgCount <= Limiter.RATE_LIMIT_MAX;
    }
  }

  /** A room holds raw pointers to its players' connections. */
  datatype MatchRoom = MatchRoom(white: Connection?, black: Connection?, board: Board, moveHistory: seq<string>)

  /** The scan that decides whether a move is in the generated list. */
  method IsLegal(moves: seq<Move>, move: Move) returns (legal: bool)
    ensures legal <==> move in moves
  {
    legal := false;
    var i := 0;
    while i < |moves|
      invariant 0 <= i <= |moves|
      invariant legal <==> move in moves[..i]
    {
      if moves[i] == move {
        legal := true;
        break;
      }
      i := i + 1;
    }
  }

  type Connections = map<SocketId, Connection>

  ghost predicate Known(all: Connections, ws: Connection) {
    ws.socketId in all && all[ws.socketId] == ws
  }

  ghost predicate ConnMatches(ws: Connection, i: SocketId, c: Conn)
    reads ws
  {
    ws.socketId == i && ws.Value() == c
  }

  ghost predicate ConnsMatch(all: Connections, conns: map<SocketId, Conn>)
    reads all.Values
  {
    all.Keys == conns.Keys && forall i :: i in all ==> ConnMatches(all[i], i, conns[i])
  }

  ghost predicate LiveMatch(all: Connections, sockets: Connections, live: set<SocketId>) {
    sockets.Keys == live && forall i :: i in sockets ==> i in all && sockets[i] == all[i]
  }

  ghost predicate SlotMatches(all: Connections, ws: Connection?, slot: Option<SocketId>) {
    if ws == null then slot == None else Known(all, ws) && slot == Some(ws.socketId)
  }

  ghost predicate RoomMatches(all: Connections, a: MatchRoom, b: Room) {
    && SlotMatches(all, a.white, b.white)
    && SlotMatches(all, a.black, b.black)
    && a.board == b.board
    && a.moveHistory == b.history
  }

  ghost predicate RoomsMatch(all: Connections, rooms: map<string, MatchRoom>, view: map<string, Room>) {
    rooms.Keys == view.Keys && forall g :: g in rooms ==> RoomMatches(all, rooms[g], view[g])
  }

  lemma RoomsSet(all: Connections, rooms: map<string, MatchRoom>, view: map<string, Room>,
                 g: string, a: MatchRoom, b: Room)
    requires RoomsMatch(all, rooms, view) && RoomMatches(all, a, b)
    ensures RoomsMatch(all, rooms[g := a], view[g := b])
  {
  }

  lemma RoomsDrop(all: Connections, rooms: map<string, MatchRoom>, view: map<string, Room>, g: string)
    requires RoomsMatch(all, rooms, view)
    ensures RoomsMatch(all, rooms - {g}, view - {g})
  {
  }

  lemma RoomsGrow(all: Connections, rooms: map<string, MatchRoom>, view: map<string, Room>,
                  i: SocketId, ws: Connection)
    requires RoomsMatch(all, rooms, view) && i !in all
    ensures RoomsMatch(all[i := ws], rooms, view)
  {
  }

  lemma LiveGrow(all: Connections, sockets: Connections, live: set<SocketId>, i: SocketId, ws: Connection)
    requires LiveMatch(all, sockets, live) && i !in all
    ensures LiveMatch(all[i := ws], sockets[i := ws], live + {i})
  {
  }

  lemma LiveShrink(all: Connections, sockets: Connections, live: set<SocketId>, i: SocketId)
    requires LiveMatch(all, sockets, live)
    ensures LiveMatch(all, sockets - {i}, live - {i})
  {
  }

  /** One connection changed, or was added. */
  lemma ConnsSet(all: Connections, conns: map<SocketId, Conn>, next: Connections, ws: Connection, c: Conn)
    requires next == all[ws.socketId := ws] && all.Keys == conns.Keys
    requires forall i :: i in all && i != ws.socketId ==> ConnMatches(all[i], i, conns[i])
    requires ws.Value() == c
    ensures ConnsMatch(next, conns[ws.socketId := c])
  {
  }

  class Server {
    const rules: Rules
    var rooms: map<string, MatchRoom>
    var sockets: map<SocketId, Connection>
    var nextSocketId: SocketId
    var grpcJobs: seq<Job>
    var running: seq<Task>
    var deferred: seq<Callback>
    var activeGames: int
    var connectedSockets: int
    var movesTotal: nat

    ghost var model: State
    /** Every connection ever opened. */
    ghost var all: map<SocketId, Connection>

    ghost predicate Opened(ws: Connection)
      reads this`all
    {
      Known(all, ws)
    }

    ghost predicate ScalarsMatch()
      reads this
    {
      && nextSocketId == model.nextId
      && grpcJobs == model.jobs
      && running == model.running
      && deferred == model.deferred
      && activeGames == model.activeGames
      && connectedSockets == model.connectedSockets
      && movesTotal == model.movesTotal
    }

    /** The fields say what the model says. */
    ghost predicate Valid()
      reads this, all.Values
    {
      && ConnsMatch(all, model.conns)
      && LiveMatch(all, sockets, model.live)
      && RoomsMatch(all, rooms, model.rooms)
      && ScalarsMatch()
    }

    constructor (r: Rules)
      ensures Valid() && rules == r && model == Initial && all == map[]
    {
      rules := r;
      rooms, sockets, nextSocketId := map[], map[], 1;
      grpcJobs, running, deferred := [], [], [];
      activeGames, connectedSockets, movesTotal := 0, 0, 0;
      model, all := Initial, map[];
    }

    // -------------------------------------------------------------- helpers

    method Send(ws: Connection, m: Message)
      requires Valid() && Opened(ws)
      modifies this`model, ws`sent
      ensures Valid() && model == Session.Send(old(model), ws.socketId, m)
    {
      assert ConnMatches(ws, ws.socketId, model.conns[ws.socketId]);
      ws.sent := ws.sent + [m];
      model := Session.Send(model, ws.socketId, m);
      ConnsSet(all, old(model).conns, all, ws, ws.Value());
    }

    /** Sends to whichever slots of the room are filled. */
    method BroadcastToRoom(room: MatchRoom, ghost view: Room, m: Message)
      requires Valid() && RoomMatches(all, room, view)
      modifies this`model, all.Values
      ensures Valid() && model == Broadcast(old(model), view, m)
    {
      if room.white != null {
        Send(room.white, m);
      }
      if room.black != null {
        Send(room.black, m);
      }
    }

    method EnqueueGrpcJob(job: Job)
      requires Valid()
      modifies this`grpcJobs, this`model
      ensures Valid() && model == Enqueue(old(model), job)
    {
      grpcJobs := grpcJobs + [job];
      model := Enqueue(model, job);
    }

    /** Rewrites the parts of the model the fields know nothing of. */
    ghost method Restate(s: State)
      requires Valid() && s == model.(fates := s.fates, reported := s.reported, issued := s.issued)
      modifies this`model
      ensures Valid() && model == s
    {
      model := s;
    }

    method CountMove()
      requires Valid()
      modifies this`movesTotal, this`model
      ensures Valid() && model == Session.CountMove(old(model))
    {
      movesTotal := movesTotal + 1;
      model := Session.CountMove(model);
    }

    method CountGame(ghost g: string)
      requires Valid()
      modifies this`activeGames, this`model
      ensures Valid() && model == OpenRoom(old(model), g)
    {
      activeGames := activeGames + 1;
      model := OpenRoom(model, g);
    }

    method SetRoom(g: string, room: MatchRoom, ghost view: Room)
      requires Valid() && RoomMatches(all, room, view)
      modifies this`rooms, this`model
      ensures Valid() && model == PutRoom(old(model), g, view)
      ensures rooms == old(rooms)[g := room]
    {
      RoomsSet(all, rooms, model.rooms, g, room, view);
      rooms := rooms[g := room];
      model := PutRoom(model, g, view);
    }

    method DropRoom(g: string)
      requires Valid()
      modifies this`rooms, this`activeGames, this`model
      ensures Valid() && model == Session.DropRoom(old(model), g)
    {
      RoomsDrop(all, rooms, model.rooms, g);
      rooms := rooms - {g};
      activeGames := activeGames - 1;
      model := Session.DropRoom(model, g);
    }

    // -------------------------------------------------------------- open

    method OnOpen() returns (ws: Connection)
      requires Valid() && Sound.Sound(model)
      modifies this
      ensures Valid() && model == Session.OnOpen(old(model))
      ensures fresh(ws) && all == old(all)[ws.socketId := ws] && ws.socketId == old(nextSocketId)
    {
      ws := new Connection(nextSocketId);
      assert nextSocketId !in all;
      Register(ws);
    }

    method Register(ws: Connection)
      requires Valid() && ws.socketId == nextSocketId && nextSocketId !in all && ws.Value() == NewConn
      modifies this`sockets, this`all, this`nextSocketId, this`connectedSockets, this`model
      ensures Valid() && model == Session.OnOpen(old(model)) && all == old(all)[ws.socketId := ws]
    {
      RoomsGrow(all, rooms, model.rooms, nextSocketId, ws);
      LiveGrow(all, sockets, model.live, nextSocketId, ws);
      sockets := sockets[nextSocketId := ws];
      all := all[nextSocketId := ws];
      nextSocketId := nextSocketId + 1;
      connectedSockets := connectedSockets + 1;
      model := Session.OnOpen(model);
      forall i | i in old(all)
        ensures ConnMatches(old(all)[i], i, old(model).conns[i])
      {
        assert old(ConnMatches(all[i], i, model.conns[i]));
      }
      ConnsSet(old(all), old(model).conns, all, ws, NewConn);
    }

    // -------------------------------------------------------------- messages

    method OnMessage(ws: Connection, nowMs: int, frame: Frame)
      requires Valid() && Opened(ws)
      modifies this, all.Values
      ensures Valid() && all == old(all)
      ensures model == OnFrame(rules, old(model), ws.socketId, nowMs, frame)
    {
      if frame.TooLarge? {
        Send(ws, ErrorText("message too large"));
        return;
      }
      var ok := CountMessage(ws, nowMs);
      if !ok {
        Send(ws, ErrorText("rate limit exceeded"));
        return;
      }
      if frame.NotJson? {
        Send(ws, ErrorText("invalid json"));
        return;
      }
      Dispatch(ws, frame.payload);
    }

    method Dispatch(ws: Connection, payload: Payload)
      requires Valid() && Opened(ws)
      modifies this`rooms, this`grpcJobs, this`activeGames, this`movesTotal, this`model, all.Values
      ensures Valid()
      ensures model == match payload
                       case JoinMatch(ticket, color) => Enqueue(old(model), JoinJob(ws.socketId, ticket, color))
                       case PlayMove(move) => OnMove(rules, old(model), ws.socketId, move)
                       case ResumeMatch(token) => Enqueue(old(model), ResumeJob(ws.socketId, token))
                       case UnknownType => Session.Send(old(model), ws.socketId, ErrorText("unknown message type"))
    {
      match payload
      case JoinMatch(ticket, color) => EnqueueGrpcJob(JoinJob(ws.socketId, ticket, color));
      case PlayMove(move) => OnMoveMessage(ws, move);
      case ResumeMatch(token) => EnqueueGrpcJob(ResumeJob(ws.socketId, token));
      case UnknownType => Send(ws, ErrorText("unknown message type"));
    }

    method CountMessage(ws: Connection, nowMs: int) returns (ok: bool)
      requires Valid() && Opened(ws)
      modifies this`model, ws
      ensures Valid() && model == Count(old(model), ws.socketId, nowMs)
      ensures ok == Limiter.Passes(old(model).conns[ws.socketId].window, nowMs)
    {
      assert ConnMatches(ws, ws.socketId, model.conns[ws.socketId]);
      ok := ws.CountMessage(nowMs);
      model := Count(model, ws.socketId, nowMs);
      assert model == old(model).(conns := model.conns);
      ConnsSet(all, old(model).conns, all, ws, ws.Value());
    }

    method OnMoveMessage(ws: Connection, text: string)
      requires Valid() && Opened(ws)
      modifies this`rooms, this`grpcJobs, this`activeGames, this`movesTotal, this`model, all.Values
      ensures Valid()
      ensures model == OnMove(rules, old(model), ws.socketId, text)
    {
      assert ConnMatches(ws, ws.socketId, model.conns[ws.socketId]);
      if ws.gameId !in rooms {
        return;
      }
      var room := rooms[ws.gameId];
      var whiteToMove := rules.whiteToMove(room.board);
      var senderIsWhite := ws.color == "white";
      if whiteToMove != senderIsWhite {
        Send(ws, ErrorText("not your turn"));
        return;
      }
      var move := rules.parse(room.board, text);
      var legal := IsLegal(rules.legal(room.board), move);
      if !legal {
        Send(ws, ErrorText("illegal move"));
        return;
      }
      var g := ws.gameId;
      ApplyMove(g, move, text);
      if rules.over(rooms[g].board).1 != NoResult {
        EndGame(ws, g);
      }
    }

    /** Commits an accepted move and tells both players. */
    method ApplyMove(g: string, move: Move, text: string)
      requires Valid() && g in rooms && move == rules.parse(rooms[g].board, text)
      modifies this`rooms, this`movesTotal, this`model, all.Values
      ensures Valid() && model == Played(rules, old(model), g, text)
    {
      ghost var view := RoomAfter(rules, model.rooms[g], text);
      var board := rules.make(rooms[g].board, move);
      var room := rooms[g].(board := board, moveHistory := rooms[g].moveHistory + [text]);
      SetRoom(g, room, view);
      CountMove();
      TellMove(room, view, text);
    }

    method TellMove(room: MatchRoom, ghost view: Room, text: string)
      requires Valid() && RoomMatches(all, room, view)
      modifies this`model, all.Values
      ensures Valid()
      ensures model == Broadcast(old(model), view, Moved(text, rules.fen(view.board), Turn(rules, view.board)))
    {
      var turn := if rules.whiteToMove(room.board) then "white" else "black";
      BroadcastToRoom(room, view, Moved(text, rules.fen(room.board), turn));
    }

    /** Game over: announce the result, queue the report, drop the room. */
    method EndGame(ws: Connection, g: string)
      requires Valid() && Opened(ws) && g in rooms
      modifies this`rooms, this`grpcJobs, this`activeGames, this`model, all.Values
      ensures Valid()
      ensures model == Finish(rules, old(model), ws.socketId, g)
    {
      ghost var before := model;
      var room := rooms[g];
      AnnounceEnd(room, before.rooms[g]);
      var winnerId := FindWinner(room, before.rooms[g]);
      ReportAndDrop(g, winnerId, room.moveHistory);
      ghost var view := before.rooms[g];
      ghost var end := EndOf(rules, before, ws.socketId, g, winnerId);
      Restate(NoteReport(Settle(model, view.number, end), view.number));
    }

    method ReportAndDrop(g: string, winnerId: string, moves: seq<string>)
      requires Valid()
      modifies this`rooms, this`grpcJobs, this`activeGames, this`model
      ensures Valid()
      ensures model == Session.DropRoom(Enqueue(old(model), ReportJob(g, winnerId, moves)), g)
    {
      EnqueueGrpcJob(ReportJob(g, winnerId, moves));
      DropRoom(g);
    }

    method AnnounceEnd(room: MatchRoom, ghost view: Room)
      requires Valid() && RoomMatches(all, room, view)
      modifies this`model, all.Values
      ensures Valid()
      ensures model == Broadcast(old(model), view,
                                 GameOver(ResultText(rules, view.board), ReasonText(rules.over(view.board).0)))
    {
      var (reason, result) := rules.over(room.board);
      var resultText := "draw";
      if result == Lose {
        var whiteWins := !rules.whiteToMove(room.board);
        resultText := if whiteWins then "white_wins" else "black_wins";
      }
      BroadcastToRoom(room, view, GameOver(resultText, ReasonText(reason)));
    }

    /** The user in the winner's slot, or no one. */
    method FindWinner(room: MatchRoom, ghost view: Room) returns (winnerId: string)
      requires Valid() && RoomMatches(all, room, view)
      ensures winnerId == WinnerId(rules, model, view)
    {
      winnerId := "";
      if rules.over(room.board).1 == Lose {
        var whiteWins := !rules.whiteToMove(room.board);
        if whiteWins && room.white != null {
          winnerId := room.white.userId;
          assert ConnMatches(room.white, room.white.socketId, model.conns[room.white.socketId]);
        } else if !whiteWins && room.black != null {
          winnerId := room.black.userId;
          assert ConnMatches(room.black, room.black.socketId, model.conns[room.black.socketId]);
        }
      }
    }

    // -------------------------------------------------------------- close

    method Unregister(ws: Connection)
      requires Valid()
      modifies this`sockets, this`connectedSockets, this`model
      ensures Valid() && model == Session.Unregister(old(model), ws.socketId)
    {
      LiveShrink(all, sockets, model.live, ws.socketId);
      sockets := sockets - {ws.socketId};
      connectedSockets := connectedSockets - 1;
      model := Session.Unregister(model, ws.socketId);
    }

    method OnClose(ws: Connection)
      requires Valid() && Opened(ws)
      modifies this`sockets, this`connectedSockets, this`rooms, this`activeGames, this`model, all.Values
      ensures Valid()
      ensures model == Session.OnClose(old(model), ws.socketId)
    {
      ghost var before := model;
      assert ConnMatches(ws, ws.socketId, before.conns[ws.socketId]);
      Unregister(ws);
      var g := ws.gameId;
      if g in rooms {
        LeaveRoom(ws, g);
        if rooms[g].white == null && rooms[g].black == null {
          Abandon(g, before.rooms[g]);
        }
      }
    }

    /** Both players are gone. */
    method Abandon(g: string, ghost view: Room)
      requires Valid()
      modifies this`rooms, this`activeGames, this`model
      ensures Valid()
      ensures model == Settle(Session.DropRoom(old(model), g), view.number, Abandoned(g, view.history))
    {
      DropRoom(g);
      Restate(Settle(model, view.number, Abandoned(g, view.history)));
    }

    /** Empties the slot of the connection's colour and tells whoever is left. */
    method LeaveRoom(ws: Connection, g: string)
      requires Valid() && Opened(ws) && g in rooms
      modifies this`rooms, this`model, all.Values
      ensures Valid() && g in rooms
      ensures var view := ClearSlot(old(model).rooms[g], old(ws.color));
              && model == Broadcast(PutRoom(old(model), g, view), view, OpponentDisconnected)
              && RoomMatches(all, rooms[g], view)
    {
      var room := rooms[g];
      ghost var view := ClearSlot(model.rooms[g], ws.color);
      if ws.color == "white" {
        room := room.(white := null);
      } else {
        room := room.(black := null);
      }
      SetRoom(g, room, view);
      BroadcastToRoom(room, view, OpponentDisconnected);
    }

    // -------------------------------------------------------------- workers

    /** A worker pops the oldest job. */
    method TakeJob()
      requires Valid() && grpcJobs != []
      modifies this`grpcJobs, this`running, this`model
      ensures Valid() && model == OnTaken(old(model))
    {
      running := running + [Begun(grpcJobs[0])];
      grpcJobs := grpcJobs[1..];
      model := OnTaken(model);
    }

    /** `verifyMatchTicket` answered. */
    method VerifyReturned(k: nat, reply: Option<(string, string)>)
      requires Valid() && Enabled(model, Event.VerifyReturned(k, reply))
      modifies this`running, this`deferred, this`model
      ensures Valid() && model == OnVerify(old(model), k, reply)
    {
      var job := running[k].job;
      match reply {
        case None =>
          running := RemoveAt(running, k);
          deferred := deferred + [JoinDone(job.sid, None, "")];
        case Some(pair) =>
          running := running[k := Verified(job.sid, pair.0, pair.1, job.color)];
      }
      model := OnVerify(model, k, reply);
    }

    /** `resolveResumeToken` answered. */
    method ResolveReturned(k: nat, seat: Option<Seat>)
      requires Valid() && Enabled(model, Event.ResolveReturned(k, seat))
      modifies this`running, this`deferred, this`model
      ensures Valid() && model == OnResolve(old(model), k, seat)
    {
      var sid := running[k].job.sid;
      match seat {
        case None =>
          running := RemoveAt(running, k);
          deferred := deferred + [ResumeDone(sid, None, "")];
        case Some(s) =>
          running := running[k := Resolved(sid, s.gameId, s.userId, s.color)];
      }
      model := OnResolve(model, k, seat);
    }

    /** `createResumeToken` answered; the rest is deferred to the loop. */
    method TokenReturned(k: nat, token: string)
      requires Valid() && Enabled(model, Event.TokenReturned(k, token))
      modifies this`running, this`deferred, this`model
      ensures Valid() && model == OnToken(old(model), k, token)
    {
      var task := running[k];
      var seat := Some(Seat(task.gameId, task.userId, task.color));
      running := RemoveAt(running, k);
      if task.Verified? {
        deferred := deferred + [JoinDone(task.sid, seat, token)];
      } else {
        deferred := deferred + [ResumeDone(task.sid, seat, token)];
      }
      model := OnToken(model, k, token);
    }

    method ReportReturned(k: nat)
      requires Valid() && k < |running|
      modifies this`running, this`model
      ensures Valid() && model == OnReport(old(model), k)
    {
      running := RemoveAt(running, k);
      model := OnReport(model, k);
    }

    // -------------------------------------------------------------- deferred callbacks

    method RunDeferred(k: nat)
      requires Valid() && k < |deferred|
      modifies this, all.Values
      ensures Valid() && all == old(all)
      ensures model == OnCallback(rules, old(model), k)
    {
      var cb := PopDeferred(k);
      if cb.sid !in sockets {
        return;
      }
      var ws := sockets[cb.sid];
      assert ConnMatches(ws, cb.sid, model.conns[cb.sid]);
      Answer(ws, cb);
    }

    method PopDeferred(k: nat) returns (cb: Callback)
      requires Valid() && k < |deferred|
      modifies this`deferred, this`model
      ensures Valid() && cb == old(deferred)[k]
      ensures model == old(model).(deferred := RemoveAt(old(model).deferred, k))
    {
      cb := deferred[k];
      deferred := RemoveAt(deferred, k);
      model := model.(deferred := RemoveAt(model.deferred, k));
    }

    method Answer(ws: Connection, cb: Callback)
      requires Valid() && Opened(ws) && ws.socketId == cb.sid && cb.sid in sockets
      modifies this`sockets, this`connectedSockets, this`rooms, this`activeGames, this`model, all.Values
      ensures Valid()
      ensures model == Handle(rules, old(model), cb)
    {
      if cb.seat.None? {
        var text := if cb.JoinDone? then "invalid ticket" else "invalid resume token";
        Reject(ws, text);
        return;
      }
      var seat := cb.seat.value;
      if cb.ResumeDone? && seat.gameId !in rooms {
        Reject(ws, "game no longer active");
        return;
      }
      TakeSeat(ws, seat);
      var room := rooms[seat.gameId];
      ghost var view := model.rooms[seat.gameId];
      if cb.JoinDone? {
        Send(ws, Joined(seat.color, rules.fen(room.board), cb.token));
      } else {
        Send(ws, Resumed(seat.color, rules.fen(room.board), room.moveHistory, cb.token));
        BroadcastToRoom(room, view, OpponentReconnected);
      }
    }

    method Reject(ws: Connection, text: string)
      requires Valid() && Opened(ws)
      modifies this`sockets, this`connectedSockets, this`rooms, this`activeGames, this`model, all.Values
      ensures Valid() && model == Refuse(old(model), ws.socketId, text)
    {
      Send(ws, ErrorText(text));
      OnClose(ws);
    }

    /** Creates the room if the match has none, and puts the connection into its slot. */
    method TakeSeat(ws: Connection, seat: Seat)
      requires Valid() && Opened(ws)
      modifies this`rooms, this`activeGames, this`model, ws
      ensures Valid() && model == Sit(rules, old(model), ws.socketId, seat)
    {
      ghost var before := model;
      WriteSeat(ws, seat);
      var g := seat.gameId;
      var isNewRoom := g !in rooms;
      var room := if isNewRoom then MatchRoom(null, null, rules.start, []) else rooms[g];
      if seat.color == "white" {
        room := room.(white := ws);
      } else {
        room := room.(black := ws);
      }
      ghost var view := if g in before.rooms then before.rooms[g]
                        else Room(None, None, rules.start, [], |before.fates|);
      SetRoom(g, room, FillSlot(view, seat.color, ws.socketId));
      if isNewRoom {
        CountGame(g);
      }
    }

    method WriteSeat(ws: Connection, seat: Seat)
      requires Valid() && Opened(ws)
      modifies this`model, ws
      ensures Valid() && model == Session.WriteSeat(old(model), ws.socketId, seat)
    {
      assert ConnMatches(ws, ws.socketId, model.conns[ws.socketId]);
      ws.SetSeat(seat, if seat.gameId in model.rooms then |model.rooms[seat.gameId].history| else 0);
      model := Session.WriteSeat(model, ws.socketId, seat);
      assert model == old(model).(conns := model.conns);
      ConnsSet(all, old(model).conns, all, ws, ws.Value());
    }

    // -------------------------------------------------------------- the loop

    /** An answer of the control plane. */
    method PerformReturn(e: Event)
      requires Valid() && Enabled(model, e)
      requires e.VerifyReturned? || e.ResolveReturned? || e.TokenReturned? || e.ReportReturned?
      modifies this`running, this`deferred, this`model
      ensures Valid() && model == Step(rules, old(model), e)
    {
      match e {
        case VerifyReturned(k, reply) => VerifyReturned(k, reply);
        case ResolveReturned(k, seat) => ResolveReturned(k, seat);
        case TokenReturned(k, token) => TokenReturned(k, token);
        case ReportReturned(k) => ReportReturned(k);
      }
    }

    /** One event, whichever it is. */
    method Perform(e: Event)
      requires Valid() && Sound.Sound(model) && Enabled(model, e)
      modifies this, all.Values
      ensures Valid() && model == Step(rules, old(model), e)
      ensures forall i :: i in all ==> (i in old(all) && all[i] == old(all)[i]) || fresh(all[i])
    {
      match e {
        case Opened => var _ := OnOpen();
        case Received(sid, now, frame) => OnMessage(sockets[sid], now, frame);
        case Closed(sid) => OnClose(sockets[sid]);
        case Taken => TakeJob();
        case CallbackRun(k) => RunDeferred(k);
        case _ => PerformReturn(e);
      }
    }
  }

  /** The state reached by the first `n` events. */
  ghost predicate Reached(r: Rules, es: seq<Event>, n: nat, s: State) {
    n <= |es| && IsRun(r, es[..n]) && s == Exec(r, es[..n])
  }

  lemma ReachNext(r: Rules, es: seq<Event>, n: nat, s: State)
    requires IsRun(r, es) && n < |es| && Reached(r, es, n, s)
    ensures Sound.Sound(s) && Enabled(s, es[n]) && Reached(r, es, n + 1, Step(r, s, es[n]))
  {
    Sound.PrefixIsRun(r, es, n + 1);
    assert es[..n + 1][..n] == es[..n];
    Sound.SoundAlways(r, es[..n]);
  }

  /** A server that lives through a run ends in the state the run ends in: what is proved
      of `Exec` is proved of the object. */
  method Live(r: Rules, es: seq<Event>) returns (server: Server)
    requires IsRun(r, es)
    ensures server.Valid() && server.rules == r && server.model == Exec(r, es)
  {
    server := new Server(r);
    var n := 0;
    while n < |es|
      invariant 0 <= n <= |es|
      invariant fresh(server) && server.rules == r && server.Valid()
      invariant forall i :: i in server.all ==> fresh(server.all[i])
      invariant Reached(r, es, n, server.model)
    {
      ReachNext(r, es, n, server.model);
      server.Perform(es[n]);
      n := n + 1;
    }
    assert es[..n] == es;
  }
}
