/** What every run of the game server keeps, whatever its clients do. */
module SessionInvariants {
  import opened Wrappers
  import opened ChessRules
  import opened Seats
  import opened Session
  import opened SessionFrames

  // ---------------------------------------------------------------- ids, slots and gauges

  ghost predicate Known(ids: set<SocketId>, owner: Option<SocketId>) {
    owner.Some? ==> owner.value in ids
  }

  ghost predicate RoomSound(ids: set<SocketId>, room: Room) {
    Known(ids, room.white) && Known(ids, room.black) && (room.white.Some? || room.black.Some?)
  }

  function JobOwner(j: Job): Option<SocketId> {
    if j.ReportJob? then None else Some(j.sid)
  }

  function TaskOwner(t: Task): Option<SocketId> {
    if t.Begun? then JobOwner(t.job) else Some(t.sid)
  }

  /** Ids are handed out once and in order. */
  ghost predicate IdsSound(ids: set<SocketId>, live: set<SocketId>, nextId: SocketId) {
    && 1 <= nextId
    && (forall i :: i in ids <==> 1 <= i < nextId)
    && live <= ids
  }

  /** Slots hold ids already handed out, and no room has two empty slots. */
  ghost predicate SlotsSound(ids: set<SocketId>, rooms: map<string, Room>) {
    forall g :: g in rooms ==> RoomSound(ids, rooms[g])
  }

  /** Every job, running task and callback carries an id already handed out. */
  ghost predicate WorkSound(ids: set<SocketId>, jobs: seq<Job>, running: seq<Task>, deferred: seq<Callback>) {
    && (forall j :: j in jobs ==> Known(ids, JobOwner(j)))
    && (forall t :: t in running ==> Known(ids, TaskOwner(t)))
    && (forall c :: c in deferred ==> c.sid in ids)
    && |running| <= WORKER_COUNT
  }

  ghost predicate GaugesExact(s: State) {
    s.activeGames == |s.rooms| && s.connectedSockets == |s.live|
  }

  ghost predicate Sound(s: State) {
    && IdsSound(s.conns.Keys, s.live, s.nextId)
    && SlotsSound(s.conns.Keys, s.rooms)
    && WorkSound(s.conns.Keys, s.jobs, s.running, s.deferred)
    && GaugesExact(s)
  }

  lemma SlotsSet(ids: set<SocketId>, rooms: map<string, Room>, g: string, room: Room)
    requires SlotsSound(ids, rooms) && RoomSound(ids, room)
    ensures SlotsSound(ids, rooms[g := room])
    ensures |rooms[g := room]| == |rooms| + if g in rooms then 0 else 1
  {
  }

  lemma SlotsDrop(ids: set<SocketId>, rooms: map<string, Room>, g: string)
    requires SlotsSound(ids, rooms) && g in rooms
    ensures SlotsSound(ids, rooms - {g})
    ensures |rooms - {g}| == |rooms| - 1
  {
  }

  lemma WorkMore(ids: set<SocketId>, jobs: seq<Job>, running: seq<Task>, deferred: seq<Callback>, j: Job)
    requires WorkSound(ids, jobs, running, deferred) && Known(ids, JobOwner(j))
    ensures WorkSound(ids, jobs + [j], running, deferred)
  {
  }

  /** No connection was opened, and the parts that changed are sound. */
  lemma SoundParts(s: State, t: State)
    requires Sound(s)
    requires t.conns.Keys == s.conns.Keys && t.live <= s.live && t.nextId == s.nextId
    requires SlotsSound(s.conns.Keys, t.rooms)
    requires WorkSound(s.conns.Keys, t.jobs, t.running, t.deferred)
    requires GaugesExact(t)
    ensures Sound(t)
  {
  }

  lemma SoundClosed(s: State, t: State, sid: SocketId)
    requires Sound(s) && sid in s.live && ClosedFrom(s, t, sid)
    ensures Sound(t)
  {
    var g := s.conns[sid].gameId;
    if g in s.rooms {
      assert RoomSound(s.conns.Keys, s.rooms[g]);
      if g in t.rooms {
        SlotsSet(s.conns.Keys, s.rooms, g, t.rooms[g]);
      } else {
        SlotsDrop(s.conns.Keys, s.rooms, g);
      }
    }
    SoundParts(s, t);
  }

  lemma SoundClose(s: State, sid: SocketId)
    requires Sound(s) && sid in s.live
    ensures Sound(OnClose(s, sid))
  {
    CloseFrame(s, sid);
    SoundClosed(s, OnClose(s, sid), sid);
  }

  lemma SoundPlayed(r: Rules, s: State, g: string, text: string)
    requires Sound(s) && g in s.rooms
    ensures Sound(Played(r, s, g, text))
  {
    var p := Played(r, s, g, text);
    PlayedFrame(r, s, g, text);
    assert RoomSound(s.conns.Keys, s.rooms[g]);
    SlotsSet(s.conns.Keys, s.rooms, g, p.rooms[g]);
    SoundParts(s, p);
  }

  lemma SoundFinish(r: Rules, s: State, sid: SocketId, g: string)
    requires Sound(s) && sid in s.conns && g in s.rooms
    ensures Sound(Finish(r, s, sid, g))
  {
    var t := Finish(r, s, sid, g);
    FinishFrame(r, s, sid, g);
    SlotsDrop(s.conns.Keys, s.rooms, g);
    WorkMore(s.conns.Keys, s.jobs, s.running, s.deferred, t.jobs[|s.jobs|]);
    SoundParts(s, t);
  }

  /** Telling a client something keeps the state sound. */
  lemma SoundTold(s: State, sid: SocketId, text: string)
    requires Sound(s)
    ensures Sound(Send(s, sid, ErrorText(text)))
  {
  }

  lemma SoundMove(r: Rules, s: State, sid: SocketId, text: string)
    requires Sound(s) && sid in s.conns
    ensures Sound(OnMove(r, s, sid, text))
  {
    if Accepted(r, s, sid, text) {
      var g := s.conns[sid].gameId;
      SoundPlayed(r, s, g, text);
      PlayedFrame(r, s, g, text);
      var p := Played(r, s, g, text);
      if Terminal(r, p.rooms[g].board) {
        SoundFinish(r, p, sid, g);
      }
    } else {
      SoundTold(s, sid, "not your turn");
      SoundTold(s, sid, "illegal move");
    }
  }

  lemma SoundEnqueue(s: State, j: Job)
    requires Sound(s) && Known(s.conns.Keys, JobOwner(j))
    ensures Sound(Enqueue(s, j))
  {
  }

  lemma SoundFrame(r: Rules, s: State, sid: SocketId, now: int, frame: Frame)
    requires Sound(s) && sid in s.live
    ensures Sound(OnFrame(r, s, sid, now, frame))
  {
    if frame.TooLarge? {
      SoundTold(s, sid, "message too large");
    } else {
      var s1 := Count(s, sid, now);
      assert s1.conns.Keys == s.conns.Keys;
      SoundParts(s, s1);
      if !Limiter.Passes(s.conns[sid].window, now) {
        SoundTold(s1, sid, "rate limit exceeded");
      } else if frame.NotJson? {
        SoundTold(s1, sid, "invalid json");
      } else {
        match frame.payload
        case JoinMatch(ticket, color) => SoundEnqueue(s1, JoinJob(sid, ticket, color));
        case PlayMove(move) => SoundMove(r, s1, sid, move);
        case ResumeMatch(token) => SoundEnqueue(s1, ResumeJob(sid, token));
        case UnknownType => SoundTold(s1, sid, "unknown message type");
      }
    }
  }

  lemma SoundSit(r: Rules, s: State, sid: SocketId, seat: Seat)
    requires Sound(s) && sid in s.conns
    ensures Sound(Sit(r, s, sid, seat))
  {
    var g := seat.gameId;
    assert g in s.rooms ==> RoomSound(s.conns.Keys, s.rooms[g]);
    var t := Sit(r, s, sid, seat);
    assert t.conns.Keys == s.conns.Keys;
    SlotsSet(s.conns.Keys, s.rooms, g, t.rooms[g]);
    SoundParts(s, t);
  }

  lemma SoundHandle(r: Rules, s: State, cb: Callback)
    requires Sound(s)
    ensures Sound(Handle(r, s, cb))
  {
    if cb.sid in s.live {
      if Refusal(s, cb).Some? {
        SoundTold(s, cb.sid, Refusal(s, cb).value);
        SoundClose(Send(s, cb.sid, ErrorText(Refusal(s, cb).value)), cb.sid);
      } else {
        SoundSit(r, s, cb.sid, cb.seat.value);
        AdmitFrame(r, s, cb);
        SoundParts(Sit(r, s, cb.sid, cb.seat.value), Admit(r, s, cb));
      }
    }
  }

  lemma IdsGrow(ids: set<SocketId>, live: set<SocketId>, nextId: SocketId)
    requires IdsSound(ids, live, nextId)
    ensures nextId !in ids
    ensures IdsSound(ids + {nextId}, live + {nextId}, nextId + 1)
  {
  }

  lemma OwnersGrow(ids: set<SocketId>, more: set<SocketId>, s: State)
    requires ids <= more && SlotsSound(ids, s.rooms) && WorkSound(ids, s.jobs, s.running, s.deferred)
    ensures SlotsSound(more, s.rooms) && WorkSound(more, s.jobs, s.running, s.deferred)
  {
  }

  lemma SoundOpen(s: State)
    requires Sound(s)
    ensures Sound(OnOpen(s))
  {
    var ids := s.conns.Keys + {s.nextId};
    assert OnOpen(s).conns.Keys == ids;
    IdsGrow(s.conns.Keys, s.live, s.nextId);
    OwnersGrow(s.conns.Keys, ids, s);
  }

  lemma SoundWorker(r: Rules, s: State, e: Event)
    requires Sound(s) && Enabled(s, e) && WorkerEvent(e)
    ensures Sound(Step(r, s, e))
  {
    if !e.Taken? {
      assert Known(s.conns.Keys, TaskOwner(s.running[e.k]));
    }
    var t := Step(r, s, e);
    assert t == s.(jobs := t.jobs, running := t.running, deferred := t.deferred);
    assert WorkSound(s.conns.Keys, t.jobs, t.running, t.deferred);
  }

  lemma SoundStep(r: Rules, s: State, e: Event)
    requires Sound(s) && Enabled(s, e)
    ensures Sound(Step(r, s, e))
  {
    match e
    case Opened => SoundOpen(s);
    case Received(sid, now, frame) => SoundFrame(r, s, sid, now, frame);
    case Closed(sid) => SoundClose(s, sid);
    case CallbackRun(k) =>
      var s1 := s.(deferred := RemoveAt(s.deferred, k));
      assert Sound(s1);
      SoundHandle(r, s1, s.deferred[k]);
    case _ => SoundWorker(r, s, e);
  }

  lemma {:induction false} SoundAlways(r: Rules, es: seq<Event>)
    requires IsRun(r, es)
    ensures Sound(Exec(r, es))
    decreases |es|
  {
    if es != [] {
      SoundAlways(r, es[..|es| - 1]);
      SoundStep(r, Exec(r, es[..|es| - 1]), es[|es| - 1]);
    }
  }

  lemma {:induction false} PrefixIsRun(r: Rules, es: seq<Event>, n: nat)
    requires IsRun(r, es) && n <= |es|
    ensures IsRun(r, es[..n])
    decreases |es|
  {
    if n < |es| {
      PrefixIsRun(r, es[..|es| - 1], n);
      assert es[..|es| - 1][..n] == es[..n];
    } else {
      assert es[..n] == es;
    }
  }

  // ---------------------------------------------------------------- late callbacks

  /** Ids are never handed out twice: a connection once gone stays gone. */
  lemma GoneAfterStep(r: Rules, s: State, e: Event, sid: SocketId)
    requires Sound(s) && Enabled(s, e) && sid in s.conns && sid !in s.live
    ensures sid in Step(r, s, e).conns && sid !in Step(r, s, e).live
  {
    StepLive(r, s, e);
    if e.Opened? {
      assert s.nextId !in s.conns.Keys;
    }
  }

  function Comes(s: State, e: Event): set<SocketId> {
    if e.Opened? then {s.nextId} else {}
  }

  function Goes(s: State, e: Event): set<SocketId>
    requires Enabled(s, e)
  {
    match e
    case Closed(sid) => {sid}
    case CallbackRun(k) => {s.deferred[k].sid}
    case _ => {}
  }

  /** Live connections change only by opening and closing. */
  lemma StepLive(r: Rules, s: State, e: Event)
    requires Sound(s) && Enabled(s, e)
    ensures var t := Step(r, s, e);
            && t.conns.Keys >= s.conns.Keys
            && t.live <= s.live + Comes(s, e)
            && s.live - t.live <= Goes(s, e)
  {
    match e
    case Received(sid, now, frame) => FrameLive(r, s, sid, now, frame);
    case Closed(sid) => CloseFrame(s, sid);
    case CallbackRun(k) => HandleLive(r, s.(deferred := RemoveAt(s.deferred, k)), s.deferred[k]);
    case _ =>
  }

  lemma FrameLive(r: Rules, s: State, sid: SocketId, now: int, frame: Frame)
    requires sid in s.conns
    ensures var t := OnFrame(r, s, sid, now, frame);
            t.conns.Keys == s.conns.Keys && t.live == s.live
  {
    if !frame.TooLarge? {
      var s1 := Count(s, sid, now);
      assert s1.conns.Keys == s.conns.Keys;
      if frame.Json? && frame.payload.PlayMove? && Accepted(r, s1, sid, frame.payload.move) {
        var g := s1.conns[sid].gameId;
        PlayedFrame(r, s1, g, frame.payload.move);
        FinishFrame(r, Played(r, s1, g, frame.payload.move), sid, g);
      }
    }
  }

  lemma HandleLive(r: Rules, s: State, cb: Callback)
    ensures var t := Handle(r, s, cb);
            t.conns.Keys == s.conns.Keys && s.live - {cb.sid} <= t.live <= s.live
  {
    if cb.sid in s.live && cb.sid in s.conns {
      if Refusal(s, cb).Some? {
        CloseFrame(Send(s, cb.sid, ErrorText(Refusal(s, cb).value)), cb.sid);
      } else {
        AdmitFrame(r, s, cb);
      }
    }
  }

  /** However jobs and closes interleave, a connection that is gone is never live again. */
  lemma {:induction false} GoneForGood(r: Rules, es: seq<Event>, n: nat, sid: SocketId)
    requires IsRun(r, es) && n <= |es| && IsRun(r, es[..n])
    requires sid in Exec(r, es[..n]).conns && sid !in Exec(r, es[..n]).live
    ensures sid in Exec(r, es).conns && sid !in Exec(r, es).live
    decreases |es|
  {
    if n < |es| {
      var pre := es[..|es| - 1];
      assert pre[..n] == es[..n];
      GoneForGood(r, pre, n, sid);
      SoundAlways(r, pre);
      GoneAfterStep(r, Exec(r, pre), es[|es| - 1], sid);
    } else {
      assert es[..n] == es;
    }
  }

  /** A job that comes back for a connection that closed while it was away changes no
      room, seat, gauge, fate or inbox: only the callback itself is used up. */
  lemma LateCallbackDoesNothing(r: Rules, es: seq<Event>, n: nat, k: nat)
    requires IsRun(r, es) && n <= |es| && IsRun(r, es[..n])
    requires k < |Exec(r, es).deferred|
    requires var sid := Exec(r, es).deferred[k].sid;
             sid in Exec(r, es[..n]).conns && sid !in Exec(r, es[..n]).live
    ensures Step(r, Exec(r, es), CallbackRun(k))
            == Exec(r, es).(deferred := RemoveAt(Exec(r, es).deferred, k))
  {
    GoneForGood(r, es, n, Exec(r, es).deferred[k].sid);
  }

  predicate Notice(m: Message) {
    m.OpponentReconnected? || m.OpponentDisconnected?
  }

  ghost predicate OnlyNotices(a: seq<Message>, b: seq<Message>) {
    a <= b && forall n :: |a| <= n < |b| ==> Notice(b[n])
  }

  lemma BroadcastNotices(s: State, room: Room, m: Message, i: SocketId)
    requires Notice(m) && i in s.conns
    ensures i in Broadcast(s, room, m).conns
    ensures OnlyNotices(s.conns[i].inbox, Broadcast(s, room, m).conns[i].inbox)
  {
  }

  lemma CloseNotices(s: State, sid: SocketId, i: SocketId)
    requires sid in s.conns && i in s.conns
    ensures i in OnClose(s, sid).conns && OnlyNotices(s.conns[i].inbox, OnClose(s, sid).conns[i].inbox)
  {
    var g := s.conns[sid].gameId;
    if g in s.rooms {
      var room := ClearSlot(s.rooms[g], s.conns[sid].color);
      BroadcastNotices(PutRoom(Unregister(s, sid), g, room), room, OpponentDisconnected, i);
    }
  }

  lemma AdmitNotices(r: Rules, s: State, cb: Callback, i: SocketId)
    requires cb.sid in s.conns && cb.seat.Some? && i in s.conns && i != cb.sid
    ensures i in Admit(r, s, cb).conns && OnlyNotices(s.conns[i].inbox, Admit(r, s, cb).conns[i].inbox)
  {
    var t := Sit(r, s, cb.sid, cb.seat.value);
    if cb.ResumeDone? {
      var room := t.rooms[cb.seat.value.gameId];
      var u := Send(t, cb.sid, Resumed(cb.seat.value.color, r.fen(room.board), room.history, cb.token));
      BroadcastNotices(u, room, OpponentReconnected, i);
    }
  }

  /** An answer, and the token in it, reaches the asker only: another connection may be told
      that its opponent came or went, and its data is untouched. */
  lemma CallbackKeepsOthers(r: Rules, s: State, k: nat, i: SocketId)
    requires k < |s.deferred| && i in s.conns && i != s.deferred[k].sid
    ensures i in OnCallback(r, s, k).conns
    ensures SameConn(s.conns[i], OnCallback(r, s, k).conns[i])
    ensures OnlyNotices(s.conns[i].inbox, OnCallback(r, s, k).conns[i].inbox)
  {
    var cb := s.deferred[k];
    var s1 := s.(deferred := RemoveAt(s.deferred, k));
    if cb.sid in s.live && cb.sid in s.conns {
      if Refusal(s1, cb).Some? {
        RefuseKeepsOthers(s1, cb.sid, Refusal(s1, cb).value, i);
      } else {
        AdmitFrame(r, s1, cb);
        AdmitNotices(r, s1, cb, i);
        var t := Sit(r, s1, cb.sid, cb.seat.value);
        assert SameConn(t.conns[i], Admit(r, s1, cb).conns[i]);
      }
    }
  }

  lemma RefuseKeepsOthers(s: State, sid: SocketId, text: string, i: SocketId)
    requires sid in s.conns && i in s.conns && i != sid
    ensures i in Refuse(s, sid, text).conns
    ensures SameConn(s.conns[i], Refuse(s, sid, text).conns[i])
    ensures OnlyNotices(s.conns[i].inbox, Refuse(s, sid, text).conns[i].inbox)
  {
    var u := Send(s, sid, ErrorText(text));
    SendSame(s, sid, ErrorText(text));
    CloseFrame(u, sid);
    CloseNotices(u, sid, i);
    assert SameConn(u.conns[i], OnClose(u, sid).conns[i]);
  }
}
