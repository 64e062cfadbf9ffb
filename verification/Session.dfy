/** The game server as one state machine: what each event of the WebSocket loop and of
    the gRPC workers does to rooms, connections, queues and gauges.

    A raw socket pointer is modelled by the socket's id, and the record of a closed
    connection is kept: a message sent through a dangling pointer (undefined in the
    C++ server) would land in that record. `Seating` proves when that never happens. */
module Session {
  import opened Wrappers
  import opened ChessRules
  import opened Seats
  import Limiter = SocketLimiter
  import WorkerPool

  const WORKER_COUNT := WorkerPool.WORKER_COUNT

  type SocketId = nat

  /** What a client is sent, in the order it is sent. */
  datatype Message =
    | Joined(color: string, fen: string, token: string)
    | Moved(move: string, fen: string, turn: string)
    | GameOver(result: string, reason: string)
    | Resumed(color: string, fen: string, moves: seq<string>, token: string)
    | OpponentReconnected
    | OpponentDisconnected
    | ErrorText(text: string)

  /** `seatedAt` is how many moves its room had seen when the connection was last seated. */
  datatype Conn = Conn(
    userId: string,
    gameId: string,
    color: string,
    seatedAt: nat,
    window: Limiter.Window,
    inbox: seq<Message>)

  const NewConn := Conn("", "", "", 0, Limiter.FreshWindow, [])

  /** `number` tells apart the rooms that carry the same match id one after the other. */
  datatype Room = Room(
    white: Option<SocketId>,
    black: Option<SocketId>,
    board: Board,
    history: seq<string>,
    number: nat)

  datatype Job =
    | JoinJob(sid: SocketId, ticket: string, color: string)
    | ResumeJob(sid: SocketId, token: string)
    | ReportJob(gameId: string, winner: string, moves: seq<string>)

  /** A job in the hands of a worker: not begun, or waiting for its second call. */
  datatype Task =
    | Begun(job: Job)
    | Verified(sid: SocketId, gameId: string, userId: string, color: string)
    | Resolved(sid: SocketId, gameId: string, userId: string, color: string)

  /** Work handed back to the loop; `None` when the ticket or the token was invalid. */
  datatype Callback =
    | JoinDone(sid: SocketId, seat: Option<Seat>, token: string)
    | ResumeDone(sid: SocketId, seat: Option<Seat>, token: string)

  /** What became of each room ever created. `white` and `black` are who sat there at the end. */
  datatype Fate =
    | Playing(gameId: string)
    | Ended(gameId: string, moves: seq<string>, winner: string, result: string,
            moverIsWhite: bool, moverUser: string, white: Option<SocketId>, black: Option<SocketId>)
    | Abandoned(gameId: string, moves: seq<string>)

  /** `issued` records every job ever queued and `reported` the rooms whose end was
      reported; both only grow. */
  datatype State = State(
    rooms: map<string, Room>,
    conns: map<SocketId, Conn>,
    live: set<SocketId>,
    nextId: SocketId,
    jobs: seq<Job>,
    issued: seq<Job>,
    running: seq<Task>,
    deferred: seq<Callback>,
    activeGames: int,
    connectedSockets: int,
    movesTotal: nat,
    fates: seq<Fate>,
    reported: seq<nat>)

  const Initial := State(map[], map[], {}, 1, [], [], [], [], 0, 0, 0, [], [])

  datatype Payload =
    | JoinMatch(ticket: string, color: string)
    | PlayMove(move: string)
    | ResumeMatch(token: string)
    | UnknownType

  datatype Frame = TooLarge | NotJson | Json(payload: Payload)

  datatype Event =
    | Opened
    | Received(sid: SocketId, now: int, frame: Frame)
    | Closed(sid: SocketId)
    | Taken
    | VerifyReturned(k: nat, reply: Option<(string, string)>)
    | ResolveReturned(k: nat, seat: Option<Seat>)
    | TokenReturned(k: nat, token: string)
    | ReportReturned(k: nat)
    | CallbackRun(k: nat)

  predicate Enabled(s: State, e: Event) {
    match e
    case Opened => true
    case Received(sid, _, _) => sid in s.live
    case Closed(sid) => sid in s.live
    case Taken => s.jobs != [] && |s.running| < WORKER_COUNT
    case VerifyReturned(k, _) => k < |s.running| && s.running[k].Begun? && s.running[k].job.JoinJob?
    case ResolveReturned(k, _) => k < |s.running| && s.running[k].Begun? && s.running[k].job.ResumeJob?
    case TokenReturned(k, _) => k < |s.running| && !s.running[k].Begun?
    case ReportReturned(k) => k < |s.running| && s.running[k].Begun? && s.running[k].job.ReportJob?
    case CallbackRun(k) => k < |s.deferred|
  }

  // ---------------------------------------------------------------- sending

  function Send(s: State, sid: SocketId, m: Message): State {
    if sid in s.conns then
      s.(conns := s.conns[sid := s.conns[sid].(inbox := s.conns[sid].inbox + [m])])
    else s
  }

  function SendSlot(s: State, slot: Option<SocketId>, m: Message): State {
    if slot.Some? then Send(s, slot.value, m) else s
  }

  function Broadcast(s: State, room: Room, m: Message): State {
    SendSlot(SendSlot(s, room.white, m), room.black, m)
  }

  // ---------------------------------------------------------------- small changes

  function PutRoom(s: State, g: string, room: Room): State {
    s.(rooms := s.rooms[g := room])
  }

  function DropRoom(s: State, g: string): State {
    s.(rooms := s.rooms - {g}, activeGames := s.activeGames - 1)
  }

  function CountMove(s: State): State {
    s.(movesTotal := s.movesTotal + 1)
  }

  function Settle(s: State, n: nat, f: Fate): State {
    s.(fates := if n < |s.fates| then s.fates[n := f] else s.fates)
  }

  function NoteReport(s: State, n: nat): State {
    s.(reported := s.reported + [n])
  }

  function Unregister(s: State, sid: SocketId): State {
    s.(connectedSockets := s.connectedSockets - 1, live := s.live - {sid})
  }

  function WriteSeat(s: State, sid: SocketId, seat: Seat): State
    requires sid in s.conns
  {
    var played := if seat.gameId in s.rooms then |s.rooms[seat.gameId].history| else 0;
    s.(conns := s.conns[sid := s.conns[sid].(
         gameId := seat.gameId, userId := seat.userId, color := seat.color, seatedAt := played)])
  }

  function OpenRoom(s: State, g: string): State {
    s.(activeGames := s.activeGames + 1, fates := s.fates + [Playing(g)])
  }

  // ---------------------------------------------------------------- handlers

  function OnOpen(s: State): State {
    s.(conns := s.conns[s.nextId := NewConn],
       live := s.live + {s.nextId},
       nextId := s.nextId + 1,
       connectedSockets := s.connectedSockets + 1)
  }

  function OnFrame(r: Rules, s: State, sid: SocketId, now: int, frame: Frame): State {
    if frame.TooLarge? then Send(s, sid, ErrorText("message too large"))
    else if sid !in s.conns then s
    else
      var s1 := Count(s, sid, now);
      if !Limiter.Passes(s.conns[sid].window, now) then Send(s1, sid, ErrorText("rate limit exceeded"))
      else if frame.NotJson? then Send(s1, sid, ErrorText("invalid json"))
      else
        match frame.payload
        case JoinMatch(ticket, color) => Enqueue(s1, JoinJob(sid, ticket, color))
        case PlayMove(move) => OnMove(r, s1, sid, move)
        case ResumeMatch(token) => Enqueue(s1, ResumeJob(sid, token))
        case UnknownType => Send(s1, sid, ErrorText("unknown message type"))
  }

  /** The rate limiter's share of a message. */
  function Count(s: State, sid: SocketId, now: int): State
    requires sid in s.conns
  {
    s.(conns := s.conns[sid := s.conns[sid].(window := Limiter.Roll(s.conns[sid].window, now))])
  }

  function Enqueue(s: State, job: Job): State {
    s.(jobs := s.jobs + [job], issued := s.issued + [job])
  }

  /** The move is for a live room, in turn, and legal. */
  predicate Accepted(r: Rules, s: State, sid: SocketId, text: string)
    requires sid in s.conns
  {
    var g := s.conns[sid].gameId;
    && g in s.rooms
    && r.whiteToMove(s.rooms[g].board) == (s.conns[sid].color == "white")
    && r.parse(s.rooms[g].board, text) in r.legal(s.rooms[g].board)
  }

  function OnMove(r: Rules, s: State, sid: SocketId, text: string): State
    requires sid in s.conns
  {
    var g := s.conns[sid].gameId;
    if g !in s.rooms then s
    else if r.whiteToMove(s.rooms[g].board) != (s.conns[sid].color == "white") then
      Send(s, sid, ErrorText("not your turn"))
    else if r.parse(s.rooms[g].board, text) !in r.legal(s.rooms[g].board) then
      Send(s, sid, ErrorText("illegal move"))
    else
      var s1 := Played(r, s, g, text);
      if r.over(s1.rooms[g].board).1 == NoResult then s1 else Finish(r, s1, sid, g)
  }

  function Turn(r: Rules, b: Board): string {
    if r.whiteToMove(b) then "white" else "black"
  }

  function RoomAfter(r: Rules, room: Room, text: string): Room {
    room.(board := r.make(room.board, r.parse(room.board, text)),
          history := room.history + [text])
  }

  /** The accepted move: board, history, counter, and the broadcast to both slots. */
  function Played(r: Rules, s: State, g: string, text: string): (t: State)
    requires g in s.rooms
    ensures t.rooms == s.rooms[g := RoomAfter(r, s.rooms[g], text)]
  {
    var room := RoomAfter(r, s.rooms[g], text);
    Broadcast(CountMove(PutRoom(s, g, room)), room, Moved(text, r.fen(room.board), Turn(r, room.board)))
  }

  /** The side to move has lost, so the winner is the other one. */
  function ResultText(r: Rules, b: Board): string {
    if r.over(b).1 != Lose then "draw"
    else if !r.whiteToMove(b) then "white_wins"
    else "black_wins"
  }

  function ReasonText(reason: GameReason): string {
    match reason
    case Checkmate => "checkmate"
    case Stalemate => "stalemate"
    case InsufficientMaterial => "insufficient_material"
    case FiftyMoveRule => "fifty_move_rule"
    case ThreefoldRepetition => "threefold_repetition"
    case NoReason => "unknown"
  }

  function SlotUser(s: State, slot: Option<SocketId>): string {
    if slot.Some? && slot.value in s.conns then s.conns[slot.value].userId else ""
  }

  function WinnerId(r: Rules, s: State, room: Room): string {
    if r.over(room.board).1 != Lose then ""
    else if !r.whiteToMove(room.board) then SlotUser(s, room.white)
    else SlotUser(s, room.black)
  }

  /** The game is over: tell both slots, queue the report, drop the room. */
  function Finish(r: Rules, s: State, sid: SocketId, g: string): State
    requires sid in s.conns && g in s.rooms
  {
    var room := s.rooms[g];
    var told := Broadcast(s, room, GameOver(ResultText(r, room.board), ReasonText(r.over(room.board).0)));
    var winner := WinnerId(r, told, room);
    var queued := Enqueue(told, ReportJob(g, winner, room.history));
    NoteReport(Settle(DropRoom(queued, g), room.number, EndOf(r, s, sid, g, winner)), room.number)
  }

  function EndOf(r: Rules, s: State, sid: SocketId, g: string, winner: string): Fate
    requires sid in s.conns && g in s.rooms
  {
    var room := s.rooms[g];
    Ended(g, room.history, winner, ResultText(r, room.board),
          s.conns[sid].color == "white", s.conns[sid].userId, room.white, room.black)
  }

  /** The close handler, which `close()` on a socket also runs. */
  function OnClose(s: State, sid: SocketId): State
    requires sid in s.conns
  {
    var g := s.conns[sid].gameId;
    var s1 := Unregister(s, sid);
    if g !in s.rooms then s1
    else
      var room := ClearSlot(s.rooms[g], s.conns[sid].color);
      var told := Broadcast(PutRoom(s1, g, room), room, OpponentDisconnected);
      if room.white.Some? || room.black.Some? then told
      else Settle(DropRoom(told, g), room.number, Abandoned(g, room.history))
  }

  function ClearSlot(room: Room, color: string): Room {
    if color == "white" then room.(white := None) else room.(black := None)
  }

  function FillSlot(room: Room, color: string, sid: SocketId): Room {
    if color == "white" then room.(white := Some(sid)) else room.(black := Some(sid))
  }

  // ---------------------------------------------------------------- workers and callbacks

  function OnTaken(s: State): State
    requires s.jobs != []
  {
    s.(jobs := s.jobs[1..], running := s.running + [Begun(s.jobs[0])])
  }

  function OnVerify(s: State, k: nat, reply: Option<(string, string)>): State
    requires k < |s.running| && s.running[k].Begun? && s.running[k].job.JoinJob?
  {
    var job := s.running[k].job;
    match reply
    case None =>
      s.(running := RemoveAt(s.running, k), deferred := s.deferred + [JoinDone(job.sid, None, "")])
    case Some((g, user)) =>
      s.(running := s.running[k := Verified(job.sid, g, user, job.color)])
  }

  function OnResolve(s: State, k: nat, seat: Option<Seat>): State
    requires k < |s.running| && s.running[k].Begun? && s.running[k].job.ResumeJob?
  {
    var sid := s.running[k].job.sid;
    match seat
    case None =>
      s.(running := RemoveAt(s.running, k), deferred := s.deferred + [ResumeDone(sid, None, "")])
    case Some(Seat(g, user, color)) =>
      s.(running := s.running[k := Resolved(sid, g, user, color)])
  }

  function OnToken(s: State, k: nat, token: string): State
    requires k < |s.running| && !s.running[k].Begun?
  {
    var t := s.running[k];
    var seat := Some(Seat(t.gameId, t.userId, t.color));
    s.(running := RemoveAt(s.running, k),
       deferred := s.deferred
         + [if t.Verified? then JoinDone(t.sid, seat, token) else ResumeDone(t.sid, seat, token)])
  }

  function OnReport(s: State, k: nat): State
    requires k < |s.running|
  {
    s.(running := RemoveAt(s.running, k))
  }

  /** Write the seat into the connection and the connection into its slot, creating the
      room when the match has none. */
  function Sit(r: Rules, s: State, sid: SocketId, seat: Seat): State
    requires sid in s.conns
  {
    var g := seat.gameId;
    var room := if g in s.rooms then s.rooms[g] else Room(None, None, r.start, [], |s.fates|);
    var placed := PutRoom(WriteSeat(s, sid, seat), g, FillSlot(room, seat.color, sid));
    if g in s.rooms then placed else OpenRoom(placed, g)
  }

  function OnCallback(r: Rules, s: State, k: nat): State
    requires k < |s.deferred|
  {
    Handle(r, s.(deferred := RemoveAt(s.deferred, k)), s.deferred[k])
  }

  /** A callback for a connection that is gone does nothing. */
  function Handle(r: Rules, s: State, cb: Callback): State {
    if cb.sid !in s.live || cb.sid !in s.conns then s
    else if Refusal(s, cb).Some? then Refuse(s, cb.sid, Refusal(s, cb).value)
    else Admit(r, s, cb)
  }

  /** Why a result that came back from the control plane is turned down, if it is. */
  function Refusal(s: State, cb: Callback): Option<string> {
    if cb.JoinDone? then if cb.seat.None? then Some("invalid ticket") else None
    else if cb.seat.None? then Some("invalid resume token")
    else if cb.seat.value.gameId !in s.rooms then Some("game no longer active")
    else None
  }

  function Refuse(s: State, sid: SocketId, text: string): State
    requires sid in s.conns
  {
    OnClose(Send(s, sid, ErrorText(text)), sid)
  }

  function Admit(r: Rules, s: State, cb: Callback): State
    requires cb.sid in s.conns && cb.seat.Some?
  {
    var t := Sit(r, s, cb.sid, cb.seat.value);
    if cb.JoinDone? then AnswerJoin(r, t, cb.sid, cb.seat.value, cb.token)
    else AnswerResume(r, t, cb.sid, cb.seat.value, cb.token)
  }

  function AnswerJoin(r: Rules, s: State, sid: SocketId, seat: Seat, token: string): State
    requires seat.gameId in s.rooms
  {
    Send(s, sid, Joined(seat.color, r.fen(s.rooms[seat.gameId].board), token))
  }

  function AnswerResume(r: Rules, s: State, sid: SocketId, seat: Seat, token: string): State
    requires seat.gameId in s.rooms
  {
    var room := s.rooms[seat.gameId];
    Broadcast(Send(s, sid, Resumed(seat.color, r.fen(room.board), room.history, token)),
              room, OpponentReconnected)
  }

  // ---------------------------------------------------------------- steps and runs

  function Step(r: Rules, s: State, e: Event): State
    requires Enabled(s, e)
  {
    match e
    case Opened => OnOpen(s)
    case Received(sid, now, frame) => OnFrame(r, s, sid, now, frame)
    case Closed(sid) => if sid in s.conns then OnClose(s, sid) else s
    case Taken => OnTaken(s)
    case VerifyReturned(k, reply) => OnVerify(s, k, reply)
    case ResolveReturned(k, seat) => OnResolve(s, k, seat)
    case TokenReturned(k, token) => OnToken(s, k, token)
    case ReportReturned(k) => OnReport(s, k)
    case CallbackRun(k) => OnCallback(r, s, k)
  }

  /** A run is a series of events each of which could happen when it did. */
  predicate IsRun(r: Rules, es: seq<Event>)
    decreases |es|, 0
  {
    es == [] || (IsRun(r, es[..|es| - 1]) && Enabled(Exec(r, es[..|es| - 1]), es[|es| - 1]))
  }

  /** The state a run ends in. */
  function Exec(r: Rules, es: seq<Event>): State
    requires IsRun(r, es)
    decreases |es|, 1
  {
    if es == [] then Initial
    else Step(r, Exec(r, es[..|es| - 1]), es[|es| - 1])
  }
}
