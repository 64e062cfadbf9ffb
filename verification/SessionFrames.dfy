/** What each handler leaves alone, so that later proofs need not open the handlers. */
module SessionFrames {
  import opened Wrappers
  import opened ChessRules
  import opened Session

  /** The two states differ at most in what clients were sent. */
  ghost predicate SameButInboxes(s: State, t: State) {
    && t == s.(conns := t.conns)
    && t.conns.Keys == s.conns.Keys
    && forall i :: i in s.conns ==> SameConn(s.conns[i], t.conns[i])
  }

  predicate SameConn(a: Conn, b: Conn) {
    b == a.(inbox := b.inbox)
  }

  lemma SendSame(s: State, sid: SocketId, m: Message)
    ensures SameButInboxes(s, Send(s, sid, m))
  {
  }

  lemma SlotSame(s: State, slot: Option<SocketId>, m: Message)
    ensures SameButInboxes(s, SendSlot(s, slot, m))
  {
  }

  lemma SameTrans(s: State, t: State, u: State)
    requires SameButInboxes(s, t) && SameButInboxes(t, u)
    ensures SameButInboxes(s, u)
  {
  }

  lemma BroadcastSame(s: State, room: Room, m: Message)
    ensures SameButInboxes(s, Broadcast(s, room, m))
  {
    var t := SendSlot(s, room.white, m);
    SlotSame(s, room.white, m);
    SlotSame(t, room.black, m);
    SameTrans(s, t, Broadcast(s, room, m));
  }

  function ReportOf(f: Fate): Job
    requires f.Ended?
  {
    ReportJob(f.gameId, f.winner, f.moves)
  }

  lemma PlayedFrame(r: Rules, s: State, g: string, text: string)
    requires g in s.rooms
    ensures var t := Played(r, s, g, text);
            && t == s.(rooms := t.rooms, movesTotal := s.movesTotal + 1, conns := t.conns)
            && SameButInboxes(s, s.(conns := t.conns))
  {
  }

  /** Messages do not change who won. */
  lemma WinnerSame(r: Rules, s: State, t: State, room: Room)
    requires SameButInboxes(s, t)
    ensures WinnerId(r, t, room) == WinnerId(r, s, room)
  {
  }

  lemma FinishFrame(r: Rules, s: State, sid: SocketId, g: string)
    requires sid in s.conns && g in s.rooms
    ensures var t := Finish(r, s, sid, g);
            var room := s.rooms[g];
            var f := EndOf(r, s, sid, g, WinnerId(r, s, room));
            && t.rooms == s.rooms - {g}
            && t.fates == Settle(s, room.number, f).fates
            && t.reported == s.reported + [room.number]
            && t.issued == s.issued + [ReportOf(f)]
            && t.jobs == s.jobs + [ReportOf(f)]
            && t.running == s.running
            && t.movesTotal == s.movesTotal
            && t.live == s.live
            && t.deferred == s.deferred
            && SameButInboxes(s, s.(conns := t.conns))
  {
    var room := s.rooms[g];
    var m := GameOver(ResultText(r, room.board), ReasonText(r.over(room.board).0));
    BroadcastSame(s, room, m);
    WinnerSame(r, s, Broadcast(s, room, m), room);
  }

  /** What closing a connection does to everything but inboxes. */
  ghost predicate ClosedFrom(s: State, t: State, sid: SocketId)
    requires sid in s.conns
  {
    var g := s.conns[sid].gameId;
    && t.jobs == s.jobs && t.issued == s.issued && t.running == s.running && t.deferred == s.deferred
    && t.reported == s.reported && t.movesTotal == s.movesTotal
    && t.live == s.live - {sid} && t.nextId == s.nextId && t.connectedSockets == s.connectedSockets - 1
    && SameButInboxes(s, s.(conns := t.conns))
    && (if g !in s.rooms then t.rooms == s.rooms && t.fates == s.fates && t.activeGames == s.activeGames
        else
          var room := ClearSlot(s.rooms[g], s.conns[sid].color);
          if room.white.Some? || room.black.Some? then
            t.rooms == s.rooms[g := room] && t.fates == s.fates && t.activeGames == s.activeGames
          else
            && t.rooms == s.rooms - {g}
            && t.fates == Settle(s, room.number, Abandoned(g, room.history)).fates
            && t.activeGames == s.activeGames - 1)
  }

  lemma CloseFrame(s: State, sid: SocketId)
    requires sid in s.conns
    ensures ClosedFrom(s, OnClose(s, sid), sid)
  {
    var g := s.conns[sid].gameId;
    if g in s.rooms {
      var room := ClearSlot(s.rooms[g], s.conns[sid].color);
      BroadcastSame(PutRoom(Unregister(s, sid), g, room), room, OpponentDisconnected);
      assert s.rooms[g := room] - {g} == s.rooms - {g};
    }
  }

  lemma AdmitFrame(r: Rules, s: State, cb: Callback)
    requires cb.sid in s.conns && cb.seat.Some?
    ensures SameButInboxes(Sit(r, s, cb.sid, cb.seat.value), Admit(r, s, cb))
  {
    if cb.ResumeDone? {
      var t := Sit(r, s, cb.sid, cb.seat.value);
      var room := t.rooms[cb.seat.value.gameId];
      BroadcastSame(Send(t, cb.sid, Resumed(cb.seat.value.color, r.fen(room.board), room.history, cb.token)),
                    room, OpponentReconnected);
    }
  }

  /** Workers take the oldest job, or move on with one they hold. */
  lemma WorkerFrame(r: Rules, s: State, e: Event)
    requires Enabled(s, e) && WorkerEvent(e)
    ensures var t := Step(r, s, e);
            && t == s.(jobs := t.jobs, running := t.running, deferred := t.deferred)
            && t.jobs == (if e.Taken? then s.jobs[1..] else s.jobs)
            && forall x :: x in t.running && x.Begun?
                 ==> x in s.running || (e.Taken? && x.job == s.jobs[0])
  {
  }

  /** The events of the loop that call nobody. */
  predicate Local(e: Event) {
    e.Opened? || e.Received? || e.Closed? || e.Taken? || e.CallbackRun?
  }

  predicate WorkerEvent(e: Event) {
    !e.Opened? && !e.Received? && !e.Closed? && !e.CallbackRun?
  }
}
