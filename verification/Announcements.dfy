/** What the players of a finished game were told: the results in a connection's inbox are, in
    order, the results of the rooms it sat in when their games ended, one message for each
    slot it held; on all runs, whatever the clients do. */
module Announcements {
  import opened Wrappers
  import opened ChessRules
  import opened Seats
  import opened Session
  import opened SessionFrames
  import opened SessionInvariants
  import opened SessionHistory
  import opened Seating

  /** The results a client was sent, in order. */
  function Results(inbox: seq<Message>): seq<string> {
    if inbox == [] then []
    else
      var m := inbox[|inbox| - 1];
      Results(inbox[..|inbox| - 1]) + if m.GameOver? then [m.result] else []
  }

  /** A result for each slot the connection holds. */
  function SlotResults(white: Option<SocketId>, black: Option<SocketId>, result: string, i: SocketId): seq<string> {
    if white == Some(i) then (if black == Some(i) then [result, result] else [result])
    else if black == Some(i) then [result]
    else []
  }

  /** What the end of one room means for a connection: its result for each slot it held. */
  function Told(f: Fate, i: SocketId): seq<string>
    requires f.Ended?
  {
    SlotResults(f.white, f.black, f.result, i)
  }

  /** The results of the rooms the connection sat in, in the order in which they ended. */
  function ResultsFor(fates: seq<Fate>, reported: seq<nat>, i: SocketId): seq<string> {
    if reported == [] then []
    else
      var n := reported[|reported| - 1];
      ResultsFor(fates, reported[..|reported| - 1], i)
      + if n < |fates| && fates[n].Ended? then Told(fates[n], i) else []
  }

  ghost predicate ResultExact(s: State, i: SocketId)
    requires i in s.conns
  {
    Results(s.conns[i].inbox) == ResultsFor(s.fates, s.reported, i)
  }

  ghost predicate ResultsExact(s: State) {
    forall i :: i in s.conns ==> ResultExact(s, i)
  }

  /** Who sat in a room at its end is a connection that was opened. */
  ghost predicate FatesKnown(ids: set<SocketId>, fates: seq<Fate>) {
    forall n :: 0 <= n < |fates| && fates[n].Ended? ==> Known(ids, fates[n].white) && Known(ids, fates[n].black)
  }

  // ---------------------------------------------------------------- messages that are no results

  lemma ResultsAdd(inbox: seq<Message>, m: Message)
    ensures Results(inbox + [m]) == Results(inbox) + if m.GameOver? then [m.result] else []
  {
    assert (inbox + [m])[..|inbox|] == inbox;
  }

  ghost predicate SameResults(a: map<SocketId, Conn>, b: map<SocketId, Conn>) {
    b.Keys == a.Keys && forall i :: i in a ==> Results(b[i].inbox) == Results(a[i].inbox)
  }

  lemma ResultsTrans(a: map<SocketId, Conn>, b: map<SocketId, Conn>, c: map<SocketId, Conn>)
    requires SameResults(a, b) && SameResults(b, c)
    ensures SameResults(a, c)
  {
  }

  lemma SendQuiet(s: State, sid: SocketId, m: Message)
    requires !m.GameOver?
    ensures SameResults(s.conns, Send(s, sid, m).conns)
  {
    if sid in s.conns {
      ResultsAdd(s.conns[sid].inbox, m);
    }
    assert Send(s, sid, m).conns.Keys == s.conns.Keys;
  }

  lemma SlotQuiet(s: State, slot: Option<SocketId>, m: Message)
    requires !m.GameOver?
    ensures SameResults(s.conns, SendSlot(s, slot, m).conns)
  {
    if slot.Some? {
      SendQuiet(s, slot.value, m);
    }
  }

  lemma BroadcastQuiet(s: State, room: Room, m: Message)
    requires !m.GameOver?
    ensures SameResults(s.conns, Broadcast(s, room, m).conns)
  {
    var t := SendSlot(s, room.white, m);
    SlotQuiet(s, room.white, m);
    SlotQuiet(t, room.black, m);
    ResultsTrans(s.conns, t.conns, Broadcast(s, room, m).conns);
  }

  lemma PlayedQuiet(r: Rules, s: State, g: string, text: string)
    requires g in s.rooms
    ensures SameResults(s.conns, Played(r, s, g, text).conns)
  {
    var room := RoomAfter(r, s.rooms[g], text);
    BroadcastQuiet(CountMove(PutRoom(s, g, room)), room, Moved(text, r.fen(room.board), Turn(r, room.board)));
  }

  lemma CloseQuiet(s: State, sid: SocketId)
    requires sid in s.conns
    ensures SameResults(s.conns, OnClose(s, sid).conns)
  {
    var g := s.conns[sid].gameId;
    if g in s.rooms {
      var room := ClearSlot(s.rooms[g], s.conns[sid].color);
      BroadcastQuiet(PutRoom(Unregister(s, sid), g, room), room, OpponentDisconnected);
    }
  }

  lemma SitQuiet(r: Rules, s: State, sid: SocketId, seat: Seat)
    requires sid in s.conns
    ensures SameResults(s.conns, Sit(r, s, sid, seat).conns)
  {
    assert Sit(r, s, sid, seat).conns.Keys == s.conns.Keys;
  }

  lemma AdmitQuiet(r: Rules, s: State, cb: Callback)
    requires cb.sid in s.conns && cb.seat.Some?
    ensures SameResults(s.conns, Admit(r, s, cb).conns)
  {
    var t, seat := Sit(r, s, cb.sid, cb.seat.value), cb.seat.value;
    var room := t.rooms[seat.gameId];
    SitQuiet(r, s, cb.sid, seat);
    if cb.JoinDone? {
      SendQuiet(t, cb.sid, Joined(seat.color, r.fen(room.board), cb.token));
    } else {
      var m := Resumed(seat.color, r.fen(room.board), room.history, cb.token);
      SendQuiet(t, cb.sid, m);
      BroadcastQuiet(Send(t, cb.sid, m), room, OpponentReconnected);
    }
  }

  // ---------------------------------------------------------------- steps that end no room

  /** The same rooms have ended, and in the same way. */
  ghost predicate SameEnds(a: seq<Fate>, b: seq<Fate>) {
    && |a| <= |b|
    && (forall n :: 0 <= n < |a| && a[n].Ended? ==> b[n] == a[n])
    && forall n :: 0 <= n < |b| && b[n].Ended? ==> n < |a| && a[n] == b[n]
  }

  lemma {:induction false} ResultsForSame(a: seq<Fate>, b: seq<Fate>, reported: seq<nat>, i: SocketId)
    requires forall k :: 0 <= k < |reported| ==> reported[k] < |a| && reported[k] < |b|
    requires forall k :: 0 <= k < |reported| ==> a[reported[k]] == b[reported[k]]
    ensures ResultsFor(a, reported, i) == ResultsFor(b, reported, i)
  {
    if reported != [] {
      ResultsForSame(a, b, reported[..|reported| - 1], i);
    }
  }

  lemma ResultsKept(s: State, t: State)
    requires ResultsExact(s) && ReportsExact(s.fates, s.reported, s.issued)
    requires t.reported == s.reported && SameResults(s.conns, t.conns) && SameEnds(s.fates, t.fates)
    ensures ResultsExact(t)
  {
    forall i | i in t.conns
      ensures ResultExact(t, i)
    {
      assert ResultExact(s, i);
      forall k | 0 <= k < |s.reported|
        ensures s.reported[k] < |s.fates| && s.fates[s.reported[k]].Ended?
      {
        assert s.reported[k] in s.reported;
      }
      ResultsForSame(s.fates, t.fates, s.reported, i);
    }
  }

  // ---------------------------------------------------------------- the end of a room

  function OneResult(slot: Option<SocketId>, result: string, i: SocketId): seq<string> {
    if slot == Some(i) then [result] else []
  }

  lemma SlotTells(s: State, slot: Option<SocketId>, m: Message, i: SocketId)
    requires m.GameOver? && i in s.conns
    ensures i in SendSlot(s, slot, m).conns
    ensures Results(SendSlot(s, slot, m).conns[i].inbox) == Results(s.conns[i].inbox) + OneResult(slot, m.result, i)
  {
    ResultsAdd(s.conns[i].inbox, m);
    if slot == Some(i) {
      assert SendSlot(s, slot, m).conns[i].inbox == s.conns[i].inbox + [m];
    } else {
      assert SendSlot(s, slot, m).conns[i].inbox == s.conns[i].inbox;
    }
  }

  lemma BothSlots(told: seq<string>, white: Option<SocketId>, black: Option<SocketId>, result: string, i: SocketId)
    ensures told + OneResult(white, result, i) + OneResult(black, result, i)
            == told + SlotResults(white, black, result, i)
  {
  }

  /** Each slot of the room is told, white first; a connection in both is told twice. */
  lemma BroadcastTells(s: State, room: Room, m: Message, i: SocketId)
    requires m.GameOver? && i in s.conns
    ensures i in Broadcast(s, room, m).conns
    ensures Results(Broadcast(s, room, m).conns[i].inbox)
            == Results(s.conns[i].inbox) + SlotResults(room.white, room.black, m.result, i)
  {
    SlotTells(s, room.white, m, i);
    SlotTells(SendSlot(s, room.white, m), room.black, m, i);
    BothSlots(Results(s.conns[i].inbox), room.white, room.black, m.result, i);
  }

  lemma ResultsForEnded(fates: seq<Fate>, reported: seq<nat>, n: nat, f: Fate, i: SocketId)
    requires n < |fates| && n !in reported && f.Ended?
    requires forall k :: 0 <= k < |reported| ==> reported[k] < |fates|
    ensures ResultsFor(fates[n := f], reported + [n], i) == ResultsFor(fates, reported, i) + Told(f, i)
  {
    assert (reported + [n])[..|reported|] == reported;
    ResultsForSame(fates, fates[n := f], reported, i);
  }

  /** The room of an ongoing game has not been reported. */
  lemma NotReported(s: State, n: nat)
    requires ReportsExact(s.fates, s.reported, s.issued) && n < |s.fates| && s.fates[n].Playing?
    ensures n !in s.reported && forall k :: 0 <= k < |s.reported| ==> s.reported[k] < |s.fates|
  {
    forall k | 0 <= k < |s.reported|
      ensures s.reported[k] < |s.fates|
    {
      assert s.reported[k] in s.reported;
    }
  }

  lemma ResultsFinish(r: Rules, s: State, sid: SocketId, g: string)
    requires ResultsExact(s) && ReportsExact(s.fates, s.reported, s.issued) && sid in s.conns && g in s.rooms
    requires s.rooms[g].number < |s.fates| && s.fates[s.rooms[g].number].Playing?
    ensures ResultsExact(Finish(r, s, sid, g))
  {
    var room, t := s.rooms[g], Finish(r, s, sid, g);
    var f := EndOf(r, s, sid, g, WinnerId(r, s, room));
    FinishFrame(r, s, sid, g);
    NotReported(s, room.number);
    forall i | i in t.conns
      ensures ResultExact(t, i)
    {
      assert ResultExact(s, i);
      FinishTells(r, s, sid, g, i);
      ResultsForEnded(s.fates, s.reported, room.number, f, i);
    }
  }

  lemma FinishTells(r: Rules, s: State, sid: SocketId, g: string, i: SocketId)
    requires sid in s.conns && g in s.rooms && i in s.conns
    ensures i in Finish(r, s, sid, g).conns
    ensures Results(Finish(r, s, sid, g).conns[i].inbox)
            == Results(s.conns[i].inbox) + Told(EndOf(r, s, sid, g, WinnerId(r, s, s.rooms[g])), i)
  {
    var room := s.rooms[g];
    var m := GameOver(ResultText(r, room.board), ReasonText(r.over(room.board).0));
    BroadcastTells(s, room, m, i);
    assert Finish(r, s, sid, g).conns == Broadcast(s, room, m).conns;
  }

  // ---------------------------------------------------------------- who sat there

  /** Whoever is said to have sat in a room that ended in this step did. */
  ghost predicate EndsFromRooms(s: State, b: seq<Fate>) {
    forall n :: 0 <= n < |b| && b[n].Ended? ==>
      || (n < |s.fates| && s.fates[n] == b[n])
      || exists g :: g in s.rooms && b[n].white == s.rooms[g].white && b[n].black == s.rooms[g].black
  }

  lemma MoveEndsRoom(r: Rules, s: State, sid: SocketId, text: string)
    requires sid in s.conns
    ensures EndsFromRooms(s, OnMove(r, s, sid, text).fates)
  {
    if Accepted(r, s, sid, text) {
      var g := s.conns[sid].gameId;
      PlayedFrame(r, s, g, text);
      FinishFrame(r, Played(r, s, g, text), sid, g);
    }
  }

  /** Live rooms have an open fate. */
  ghost predicate RoomsListed(s: State) {
    forall g :: g in s.rooms ==> RoomListed(s.rooms, s.fates, g)
  }

  lemma SettleEnds(s: State, sid: SocketId)
    requires RoomsListed(s) && sid in s.conns
    ensures SameEnds(s.fates, OnClose(s, sid).fates)
  {
    var g := s.conns[sid].gameId;
    CloseFrame(s, sid);
    if g in s.rooms {
      assert RoomListed(s.rooms, s.fates, g);
    }
  }

  lemma HandleEnds(r: Rules, s: State, cb: Callback)
    requires RoomsListed(s)
    ensures SameEnds(s.fates, Handle(r, s, cb).fates)
  {
    if cb.sid in s.live && cb.sid in s.conns {
      if Refusal(s, cb).Some? {
        SettleEnds(Send(s, cb.sid, ErrorText(Refusal(s, cb).value)), cb.sid);
      } else {
        AdmitFrame(r, s, cb);
      }
    }
  }

  lemma FrameEnds(r: Rules, s: State, sid: SocketId, now: int, frame: Frame)
    requires sid in s.conns
    ensures EndsFromRooms(s, OnFrame(r, s, sid, now, frame).fates)
  {
    if frame.Json? && frame.payload.PlayMove? {
      MoveEndsRoom(r, Count(s, sid, now), sid, frame.payload.move);
    }
  }

  lemma StepEnds(r: Rules, s: State, e: Event)
    requires Sound(s) && RoomsListed(s) && Enabled(s, e)
    ensures EndsFromRooms(s, Step(r, s, e).fates)
  {
    match e
    case Received(sid, now, frame) => FrameEnds(r, s, sid, now, frame);
    case Closed(sid) => SettleEnds(s, sid);
    case CallbackRun(k) => HandleEnds(r, s.(deferred := RemoveAt(s.deferred, k)), s.deferred[k]);
    case _ =>
  }

  lemma FatesKnownStep(r: Rules, s: State, e: Event)
    requires Sound(s) && RoomsListed(s) && FatesKnown(s.conns.Keys, s.fates) && Enabled(s, e)
    ensures FatesKnown(Step(r, s, e).conns.Keys, Step(r, s, e).fates)
  {
    var t := Step(r, s, e);
    StepEnds(r, s, e);
    StepLive(r, s, e);
    forall n | 0 <= n < |t.fates| && t.fates[n].Ended?
      ensures Known(t.conns.Keys, t.fates[n].white) && Known(t.conns.Keys, t.fates[n].black)
    {
      if !(n < |s.fates| && s.fates[n] == t.fates[n]) {
        var g :| g in s.rooms && t.fates[n].white == s.rooms[g].white && t.fates[n].black == s.rooms[g].black;
        assert RoomSound(s.conns.Keys, s.rooms[g]);
      }
    }
  }

  // ---------------------------------------------------------------- steps and runs

  /** Reports and results are exact. */
  ghost predicate Telling(s: State) {
    ReportsExact(s.fates, s.reported, s.issued) && RoomsListed(s) && ResultsExact(s)
  }

  lemma ResultsTold(s: State, sid: SocketId, text: string)
    requires Telling(s)
    ensures Telling(Send(s, sid, ErrorText(text)))
  {
    SendQuiet(s, sid, ErrorText(text));
    ResultsKept(s, Send(s, sid, ErrorText(text)));
  }

  lemma ResultsPlayed(r: Rules, s: State, g: string, text: string)
    requires Telling(s) && g in s.rooms
    ensures Telling(Played(r, s, g, text))
  {
    var p := Played(r, s, g, text);
    PlayedFrame(r, s, g, text);
    PlayedQuiet(r, s, g, text);
    ResultsKept(s, p);
    forall h | h in p.rooms
      ensures RoomListed(p.rooms, p.fates, h)
    {
      assert RoomListed(s.rooms, s.fates, h);
    }
  }

  lemma ResultsAccepted(r: Rules, s: State, sid: SocketId, g: string, text: string)
    requires Telling(s) && sid in s.conns && g in s.rooms
    ensures var p := Played(r, s, g, text);
            sid in p.conns && ResultsExact(p) && ResultsExact(Finish(r, p, sid, g))
  {
    var p := Played(r, s, g, text);
    ResultsPlayed(r, s, g, text);
    PlayedFrame(r, s, g, text);
    assert RoomListed(p.rooms, p.fates, g);
    ResultsFinish(r, p, sid, g);
  }

  lemma ResultsMove(r: Rules, s: State, sid: SocketId, text: string)
    requires Telling(s) && sid in s.conns
    ensures ResultsExact(OnMove(r, s, sid, text))
  {
    if Accepted(r, s, sid, text) {
      ResultsAccepted(r, s, sid, s.conns[sid].gameId, text);
    } else {
      ResultsTold(s, sid, "not your turn");
      ResultsTold(s, sid, "illegal move");
    }
  }

  lemma ResultsCount(s: State, sid: SocketId, now: int)
    requires Telling(s) && sid in s.conns
    ensures Telling(Count(s, sid, now))
  {
    var t := Count(s, sid, now);
    assert t.conns.Keys == s.conns.Keys;
    ResultsKept(s, t);
  }

  lemma ResultsQueued(s: State, j: Job)
    requires Telling(s)
    ensures ResultsExact(Enqueue(s, j))
  {
    ResultsKept(s, Enqueue(s, j));
  }

  lemma ResultsPayload(r: Rules, s: State, sid: SocketId, payload: Payload)
    requires Telling(s) && sid in s.conns
    ensures ResultsExact(match payload
                         case JoinMatch(ticket, color) => Enqueue(s, JoinJob(sid, ticket, color))
                         case PlayMove(move) => OnMove(r, s, sid, move)
                         case ResumeMatch(token) => Enqueue(s, ResumeJob(sid, token))
                         case UnknownType => Send(s, sid, ErrorText("unknown message type")))
  {
    match payload
    case JoinMatch(ticket, color) => ResultsQueued(s, JoinJob(sid, ticket, color));
    case PlayMove(move) => ResultsMove(r, s, sid, move);
    case ResumeMatch(token) => ResultsQueued(s, ResumeJob(sid, token));
    case UnknownType => ResultsTold(s, sid, "unknown message type");
  }

  lemma ResultsFrame(r: Rules, s: State, sid: SocketId, now: int, frame: Frame)
    requires Telling(s) && sid in s.conns
    ensures ResultsExact(OnFrame(r, s, sid, now, frame))
  {
    var s1 := Count(s, sid, now);
    ResultsCount(s, sid, now);
    if frame.TooLarge? {
      ResultsTold(s, sid, "message too large");
    } else if !Limiter.Passes(s.conns[sid].window, now) {
      ResultsTold(s1, sid, "rate limit exceeded");
    } else if frame.NotJson? {
      ResultsTold(s1, sid, "invalid json");
    } else {
      ResultsPayload(r, s1, sid, frame.payload);
      assert OnFrame(r, s, sid, now, frame)
          == match frame.payload
             case JoinMatch(ticket, color) => Enqueue(s1, JoinJob(sid, ticket, color))
             case PlayMove(move) => OnMove(r, s1, sid, move)
             case ResumeMatch(token) => Enqueue(s1, ResumeJob(sid, token))
             case UnknownType => Send(s1, sid, ErrorText("unknown message type"));
    }
  }

  lemma ResultsClose(s: State, sid: SocketId)
    requires Telling(s) && sid in s.conns
    ensures ResultsExact(OnClose(s, sid))
  {
    CloseFrame(s, sid);
    CloseQuiet(s, sid);
    SettleEnds(s, sid);
    ResultsKept(s, OnClose(s, sid));
  }

  lemma ResultsRefuse(s: State, sid: SocketId, text: string)
    requires Telling(s) && sid in s.conns
    ensures ResultsExact(Refuse(s, sid, text))
  {
    ResultsTold(s, sid, text);
    ResultsClose(Send(s, sid, ErrorText(text)), sid);
  }

  lemma AdmitEnds(r: Rules, s: State, cb: Callback)
    requires cb.sid in s.conns && cb.seat.Some?
    ensures SameEnds(s.fates, Admit(r, s, cb).fates) && Admit(r, s, cb).reported == s.reported
  {
    AdmitFrame(r, s, cb);
  }

  lemma ResultsAdmit(r: Rules, s: State, cb: Callback)
    requires Telling(s) && cb.sid in s.conns && cb.seat.Some?
    ensures ResultsExact(Admit(r, s, cb))
  {
    AdmitQuiet(r, s, cb);
    AdmitEnds(r, s, cb);
    ResultsKept(s, Admit(r, s, cb));
  }

  lemma ResultsHandle(r: Rules, s: State, cb: Callback)
    requires Telling(s)
    ensures ResultsExact(Handle(r, s, cb))
  {
    if cb.sid in s.live && cb.sid in s.conns {
      if Refusal(s, cb).Some? {
        ResultsRefuse(s, cb.sid, Refusal(s, cb).value);
      } else {
        ResultsAdmit(r, s, cb);
      }
    }
  }

  lemma {:induction false} NotToldYet(fates: seq<Fate>, reported: seq<nat>, ids: set<SocketId>, i: SocketId)
    requires FatesKnown(ids, fates) && i !in ids
    ensures ResultsFor(fates, reported, i) == []
  {
    if reported != [] {
      NotToldYet(fates, reported[..|reported| - 1], ids, i);
    }
  }

  lemma ResultsOpen(s: State)
    requires Sound(s) && ResultsExact(s) && FatesKnown(s.conns.Keys, s.fates)
    ensures ResultsExact(OnOpen(s))
  {
    var t := OnOpen(s);
    NotToldYet(s.fates, s.reported, s.conns.Keys, s.nextId);
    forall i | i in t.conns
      ensures ResultExact(t, i)
    {
      assert i in s.conns ==> ResultExact(s, i);
    }
  }

  lemma ResultsCallback(r: Rules, s: State, k: nat)
    requires Telling(s) && k < |s.deferred|
    ensures ResultsExact(OnCallback(r, s, k))
  {
    var s1 := s.(deferred := RemoveAt(s.deferred, k));
    ResultsKept(s, s1);
    ResultsHandle(r, s1, s.deferred[k]);
  }

  lemma ResultsWorker(r: Rules, s: State, e: Event)
    requires Telling(s) && Enabled(s, e) && WorkerEvent(e)
    ensures ResultsExact(Step(r, s, e))
  {
    WorkerFrame(r, s, e);
    ResultsKept(s, Step(r, s, e));
  }

  lemma ResultsStep(r: Rules, s: State, e: Event)
    requires Sound(s) && Telling(s) && FatesKnown(s.conns.Keys, s.fates) && Enabled(s, e)
    ensures ResultsExact(Step(r, s, e))
  {
    match e
    case Opened => ResultsOpen(s);
    case Received(sid, now, frame) => ResultsFrame(r, s, sid, now, frame);
    case Closed(sid) => ResultsClose(s, sid);
    case CallbackRun(k) => ResultsCallback(r, s, k);
    case _ => ResultsWorker(r, s, e);
  }

  lemma RecordedLists(r: Rules, s: State)
    requires Recorded(r, s)
    ensures RoomsListed(s) && ReportsExact(s.fates, s.reported, s.issued)
  {
  }

  /** On every run: the results in each inbox are those of the rooms the connection sat in when
      they ended, in order, one for each slot it held. */
  lemma {:induction false} ResultsReachPlayers(r: Rules, es: seq<Event>)
    requires Lawful(r) && IsRun(r, es)
    ensures ResultsExact(Exec(r, es)) && FatesKnown(Exec(r, es).conns.Keys, Exec(r, es).fates)
    decreases |es|
  {
    if es != [] {
      var pre := es[..|es| - 1];
      SoundAlways(r, pre);
      RecordedAlways(r, pre);
      RecordedLists(r, Exec(r, pre));
      ResultsReachPlayers(r, pre);
      ResultsStep(r, Exec(r, pre), es[|es| - 1]);
      FatesKnownStep(r, Exec(r, pre), es[|es| - 1]);
    }
  }

  // ---------------------------------------------------------------- one slot each

  /** Nobody sat in both slots of a room when it ended. */
  ghost predicate SlotsApart(fates: seq<Fate>) {
    forall n :: 0 <= n < |fates| && fates[n].Ended? && fates[n].white.Some? ==> fates[n].white != fates[n].black
  }

  lemma ApartStep(r: Rules, s: State, e: Event)
    requires Sound(s) && RoomsListed(s) && SlotsOk(s) && SlotsApart(s.fates) && Enabled(s, e)
    ensures SlotsApart(Step(r, s, e).fates)
  {
    var t := Step(r, s, e);
    StepEnds(r, s, e);
    forall n | 0 <= n < |t.fates| && t.fates[n].Ended? && t.fates[n].white.Some?
      ensures t.fates[n].white != t.fates[n].black
    {
      if !(n < |s.fates| && s.fates[n] == t.fates[n]) {
        var g :| g in s.rooms && t.fates[n].white == s.rooms[g].white && t.fates[n].black == s.rooms[g].black;
        assert SlotsTrue(s, g);
      }
    }
  }

  /** The end of a room is one result for whoever sat there, and none for anybody else. */
  ghost predicate OnePerEnd(fates: seq<Fate>) {
    forall n: nat, i: SocketId :: n < |fates| && fates[n].Ended? ==> ToldOnce(fates[n], i)
  }

  predicate ToldOnce(f: Fate, i: SocketId)
    requires f.Ended?
  {
    Told(f, i) == if f.white == Some(i) || f.black == Some(i) then [f.result] else []
  }

  /** Along a run that respects the seat discipline each end is one message for each player:
      the results in an inbox are those of the rooms it sat in, in order. */
  lemma {:induction false} OneResultEach(r: Rules, es: seq<Event>)
    requires Lawful(r) && IsRun(r, es) && SeatDisciplined(r, es)
    ensures SlotsOk(Exec(r, es)) && SlotsApart(Exec(r, es).fates) && OnePerEnd(Exec(r, es).fates)
    decreases |es|
  {
    if es != [] {
      var pre := es[..|es| - 1];
      SoundAlways(r, pre);
      RecordedAlways(r, pre);
      RecordedLists(r, Exec(r, pre));
      OneResultEach(r, pre);
      SlotsStep(r, Exec(r, pre), es[|es| - 1]);
      ApartStep(r, Exec(r, pre), es[|es| - 1]);
    }
    ApartIsOne(Exec(r, es).fates);
  }

  lemma ApartIsOne(fates: seq<Fate>)
    requires SlotsApart(fates)
    ensures OnePerEnd(fates)
  {
  }
}
