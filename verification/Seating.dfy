/** Who sits where. Slots hold raw socket pointers, so it matters that a slot never
    outlives its connection and that no connection is forgotten by a slot. The code keeps
    both only when clients behave; here is exactly how they must. */
module Seating {
  import opened Wrappers
  import opened ChessRules
  import opened Seats
  import opened Session
  import opened SessionFrames
  import opened SessionInvariants

  /** The slot a colour maps to: anything but "white" is black. */
  function Slot(room: Room, color: string): Option<SocketId> {
    if color == "white" then room.white else room.black
  }

  predicate SameColor(a: string, b: string) {
    (a == "white") == (b == "white")
  }

  /** The connection is live, and claims match `g` and the colour white (or not). */
  predicate Claims(s: State, i: SocketId, g: string, white: bool) {
    i in s.live && i in s.conns && s.conns[i].gameId == g && (s.conns[i].color == "white") == white
  }

  ghost predicate SlotsTrue(s: State, g: string)
    requires g in s.rooms
  {
    && (s.rooms[g].white.Some? ==> Claims(s, s.rooms[g].white.value, g, true))
    && (s.rooms[g].black.Some? ==> Claims(s, s.rooms[g].black.value, g, false))
  }

  /** Every slot is true: whoever is in it is live and claims that very slot. */
  ghost predicate SlotsOk(s: State) {
    forall g :: g in s.rooms ==> SlotsTrue(s, g)
  }

  ghost predicate Seated(s: State, i: SocketId) {
    i in s.conns && s.conns[i].gameId in s.rooms
    ==> Slot(s.rooms[s.conns[i].gameId], s.conns[i].color) == Some(i)
  }

  /** Slots and claims agree both ways. */
  ghost predicate SeatingExact(s: State) {
    && SlotsOk(s)
    && "" !in s.rooms
    && forall i :: i in s.live ==> Seated(s, i)
  }

  // ---------------------------------------------------------------- the discipline

  /** The connection holds no slot, or only the one it is about to be given. */
  ghost predicate MaySit(s: State, sid: SocketId, g: string, color: string) {
    forall h :: h in s.rooms ==> MaySitIn(s.rooms[h], sid, h == g, color)
  }

  predicate MaySitIn(room: Room, sid: SocketId, here: bool, color: string) {
    && (room.white == Some(sid) ==> here && color == "white")
    && (room.black == Some(sid) ==> here && color != "white")
  }

  /** No other live connection claims the seat, and none is left over from an earlier
      room of the same match. */
  ghost predicate Unclaimed(s: State, sid: SocketId, g: string, color: string) {
    && g != ""
    && forall i :: i in s.live && i != sid ==> Compatible(s, i, g, color)
  }

  predicate Compatible(s: State, i: SocketId, g: string, color: string) {
    i in s.conns && s.conns[i].gameId == g ==> g in s.rooms && !SameColor(s.conns[i].color, color)
  }

  /** The event seats a connection. */
  predicate SeatsOne(s: State, e: Event)
    requires Enabled(s, e)
  {
    && e.CallbackRun?
    && s.deferred[e.k].sid in s.live
    && Refusal(s, s.deferred[e.k]).None?
  }

  ghost predicate SeatDiscipline(s: State, e: Event)
    requires Enabled(s, e)
  {
    SeatsOne(s, e) ==>
      var cb := s.deferred[e.k];
      MaySit(s, cb.sid, cb.seat.value.gameId, cb.seat.value.color)
  }

  ghost predicate ClaimDiscipline(s: State, e: Event)
    requires Enabled(s, e)
  {
    SeatsOne(s, e) ==>
      var cb := s.deferred[e.k];
      && MaySit(s, cb.sid, cb.seat.value.gameId, cb.seat.value.color)
      && Unclaimed(s, cb.sid, cb.seat.value.gameId, cb.seat.value.color)
  }

  // ---------------------------------------------------------------- messages do not matter

  lemma SeatingSame(s: State, t: State)
    requires t.rooms == s.rooms && t.live == s.live
    requires SameButInboxes(s, s.(conns := t.conns))
    ensures SlotsOk(t) <==> SlotsOk(s)
    ensures SeatingExact(t) <==> SeatingExact(s)
  {
  }

  /** A room's slots, and whatever else it holds. */
  predicate SameSlots(a: Room, b: Room) {
    a.white == b.white && a.black == b.black
  }

  lemma SeatingRooms(s: State, t: State)
    requires t.rooms.Keys == s.rooms.Keys && t.live == s.live
    requires forall g :: g in s.rooms ==> SameSlots(s.rooms[g], t.rooms[g])
    requires SameButInboxes(s, s.(conns := t.conns))
    ensures SlotsOk(t) <==> SlotsOk(s)
    ensures SeatingExact(t) <==> SeatingExact(s)
  {
  }

  // ---------------------------------------------------------------- handlers

  lemma SeatingMove(r: Rules, s: State, sid: SocketId, text: string)
    requires sid in s.conns
    ensures SlotsOk(s) ==> SlotsOk(OnMove(r, s, sid, text))
    ensures SeatingExact(s) ==> SeatingExact(OnMove(r, s, sid, text))
  {
    var g := s.conns[sid].gameId;
    if Accepted(r, s, sid, text) {
      PlayedFrame(r, s, g, text);
      var p := Played(r, s, g, text);
      SeatingRooms(s, p);
      if r.over(p.rooms[g].board).1 != NoResult {
        FinishFrame(r, p, sid, g);
        SeatingDrop(p, Finish(r, p, sid, g), g);
      }
    } else {
      SeatingSame(s, OnMove(r, s, sid, text));
    }
  }

  /** A room can go without harm. */
  lemma SeatingDrop(s: State, t: State, g: string)
    requires t.rooms == s.rooms - {g} && t.live == s.live
    requires SameButInboxes(s, s.(conns := t.conns))
    ensures SlotsOk(s) ==> SlotsOk(t)
    ensures SeatingExact(s) ==> SeatingExact(t)
  {
  }

  lemma SeatingClose(s: State, sid: SocketId)
    requires Sound(s) && sid in s.live
    ensures SlotsOk(s) ==> SlotsOk(OnClose(s, sid))
    ensures SeatingExact(s) ==> SeatingExact(OnClose(s, sid))
  {
    CloseFrame(s, sid);
    SeatingClosed(s, OnClose(s, sid), sid);
  }

  /** The connection leaves, its slot is emptied, and the room goes if nobody is left. */
  lemma SeatingClosed(s: State, t: State, sid: SocketId)
    requires sid in s.conns && sid in s.live && ClosedFrom(s, t, sid)
    ensures SlotsOk(s) ==> SlotsOk(t)
    ensures SeatingExact(s) ==> SeatingExact(t)
  {
    if SlotsOk(s) {
      forall g | g in t.rooms
        ensures SlotsTrue(t, g)
      {
        assert SlotsTrue(s, g);
      }
    }
    if SeatingExact(s) {
      forall i | i in t.live
        ensures Seated(t, i)
      {
        assert Seated(s, i) && Seated(s, sid);
      }
    }
  }

  lemma SlotsSit(r: Rules, s: State, sid: SocketId, seat: Seat)
    requires Sound(s) && SlotsOk(s) && sid in s.live
    ensures SlotsOk(Sit(r, s, sid, seat)) <==> MaySit(s, sid, seat.gameId, seat.color)
  {
    var t := Sit(r, s, sid, seat);
    var g := seat.gameId;
    if MaySit(s, sid, g, seat.color) {
      forall h | h in t.rooms
        ensures SlotsTrue(t, h)
      {
        assert h in s.rooms ==> SlotsTrue(s, h) && MaySitIn(s.rooms[h], sid, h == g, seat.color);
      }
    }
    if SlotsOk(t) {
      forall h | h in s.rooms
        ensures MaySitIn(s.rooms[h], sid, h == g, seat.color)
      {
        assert SlotsTrue(t, h);
      }
    }
  }

  lemma ExactSit(r: Rules, s: State, sid: SocketId, seat: Seat)
    requires Sound(s) && SeatingExact(s) && sid in s.live
    ensures SeatingExact(Sit(r, s, sid, seat))
            <==> MaySit(s, sid, seat.gameId, seat.color) && Unclaimed(s, sid, seat.gameId, seat.color)
  {
    var t := Sit(r, s, sid, seat);
    var g := seat.gameId;
    SlotsSit(r, s, sid, seat);
    if SlotsOk(t) && Unclaimed(s, sid, g, seat.color) {
      forall i | i in t.live
        ensures Seated(t, i)
      {
        assert Seated(s, i);
        assert i != sid ==> Compatible(s, i, g, seat.color);
      }
    }
    if SeatingExact(t) {
      forall i | i in s.live && i != sid
        ensures Compatible(s, i, g, seat.color)
      {
        assert Seated(s, i) && Seated(t, i);
      }
    }
  }

  // ---------------------------------------------------------------- steps

  lemma SeatingCounted(s: State, sid: SocketId, now: int)
    requires sid in s.conns
    ensures SlotsOk(s) ==> SlotsOk(Count(s, sid, now))
    ensures SeatingExact(s) ==> SeatingExact(Count(s, sid, now))
  {
    var t := Count(s, sid, now);
    assert forall g :: g in s.rooms && SlotsTrue(s, g) ==> SlotsTrue(t, g);
    assert forall i :: i in s.live && Seated(s, i) ==> Seated(t, i);
  }

  lemma SeatingFrame(r: Rules, s: State, sid: SocketId, now: int, frame: Frame)
    requires sid in s.conns
    ensures SlotsOk(s) ==> SlotsOk(OnFrame(r, s, sid, now, frame))
    ensures SeatingExact(s) ==> SeatingExact(OnFrame(r, s, sid, now, frame))
  {
    var t := OnFrame(r, s, sid, now, frame);
    if frame.TooLarge? {
      SeatingSame(s, t);
    } else {
      var s1 := Count(s, sid, now);
      SeatingCounted(s, sid, now);
      if frame.Json? && frame.payload.PlayMove? && Limiter.Passes(s.conns[sid].window, now) {
        SeatingMove(r, s1, sid, frame.payload.move);
      } else {
        SeatingSame(s1, t);
      }
    }
  }

  lemma SeatingOpen(s: State)
    requires Sound(s)
    ensures SlotsOk(s) ==> SlotsOk(OnOpen(s))
    ensures SeatingExact(s) ==> SeatingExact(OnOpen(s))
  {
    var t := OnOpen(s);
    assert s.nextId !in s.conns;
    assert forall g :: g in s.rooms && SlotsTrue(s, g) ==> SlotsTrue(t, g);
    assert forall i :: i in s.live && Seated(s, i) ==> Seated(t, i);
  }

  lemma SeatingHandle(r: Rules, s: State, cb: Callback)
    requires Sound(s)
    requires !(cb.sid in s.live && Refusal(s, cb).None?)
    ensures SlotsOk(s) ==> SlotsOk(Handle(r, s, cb))
    ensures SeatingExact(s) ==> SeatingExact(Handle(r, s, cb))
  {
    if cb.sid in s.live {
      var s1 := Send(s, cb.sid, ErrorText(Refusal(s, cb).value));
      SendSame(s, cb.sid, ErrorText(Refusal(s, cb).value));
      SeatingSame(s, s1);
      SeatingClose(s1, cb.sid);
    }
  }

  /** Steps that seat nobody never break the seating. */
  lemma SeatingQuiet(r: Rules, s: State, e: Event)
    requires Sound(s) && Enabled(s, e) && !SeatsOne(s, e)
    ensures SlotsOk(s) ==> SlotsOk(Step(r, s, e))
    ensures SeatingExact(s) ==> SeatingExact(Step(r, s, e))
  {
    match e
    case Opened => SeatingOpen(s);
    case Received(sid, now, frame) => SeatingFrame(r, s, sid, now, frame);
    case Closed(sid) => SeatingClose(s, sid);
    case CallbackRun(k) =>
      var s1 := s.(deferred := RemoveAt(s.deferred, k));
      assert Sound(s1);
      SeatingSame(s, s1);
      SeatingHandle(r, s1, s.deferred[k]);
    case _ => SeatingSame(s, Step(r, s, e));
  }

  lemma SeatingAdmit(r: Rules, s: State, e: Event)
    requires Sound(s) && Enabled(s, e) && SeatsOne(s, e)
    ensures var cb := s.deferred[e.k];
            var t := Sit(r, s, cb.sid, cb.seat.value);
            && (SlotsOk(Step(r, s, e)) <==> SlotsOk(t))
            && (SeatingExact(Step(r, s, e)) <==> SeatingExact(t))
  {
    var cb := s.deferred[e.k];
    var s1 := s.(deferred := RemoveAt(s.deferred, e.k));
    AdmitFrame(r, s1, cb);
    SeatingSame(Sit(r, s1, cb.sid, cb.seat.value), Step(r, s, e));
    SeatingSame(Sit(r, s, cb.sid, cb.seat.value), Sit(r, s1, cb.sid, cb.seat.value));
  }

  /** One step keeps every slot true exactly when it respects the seat discipline. */
  lemma SlotsStep(r: Rules, s: State, e: Event)
    requires Sound(s) && SlotsOk(s) && Enabled(s, e)
    ensures SlotsOk(Step(r, s, e)) <==> SeatDiscipline(s, e)
  {
    if SeatsOne(s, e) {
      SeatingAdmit(r, s, e);
      SlotsSit(r, s, s.deferred[e.k].sid, s.deferred[e.k].seat.value);
    } else {
      SeatingQuiet(r, s, e);
    }
  }

  /** One step keeps slots and claims in full agreement exactly when the seat it hands
      out, if any, is free in both senses. */
  lemma ExactStep(r: Rules, s: State, e: Event)
    requires Sound(s) && SeatingExact(s) && Enabled(s, e)
    ensures SeatingExact(Step(r, s, e)) <==> ClaimDiscipline(s, e)
  {
    if SeatsOne(s, e) {
      SeatingAdmit(r, s, e);
      ExactSit(r, s, s.deferred[e.k].sid, s.deferred[e.k].seat.value);
    } else {
      SeatingQuiet(r, s, e);
    }
  }

  // ---------------------------------------------------------------- runs

  ghost predicate SeatDisciplined(r: Rules, es: seq<Event>)
    requires IsRun(r, es)
    decreases |es|
  {
    es != [] ==>
      && SeatDisciplined(r, es[..|es| - 1])
      && SeatDiscipline(Exec(r, es[..|es| - 1]), es[|es| - 1])
  }

  ghost predicate ClaimDisciplined(r: Rules, es: seq<Event>)
    requires IsRun(r, es)
    decreases |es|
  {
    es != [] ==>
      && ClaimDisciplined(r, es[..|es| - 1])
      && ClaimDiscipline(Exec(r, es[..|es| - 1]), es[|es| - 1])
  }

  /** Every slot is true at the end of the run and at every point before. */
  ghost predicate SlotsOkThroughout(r: Rules, es: seq<Event>)
    requires IsRun(r, es)
    decreases |es|
  {
    SlotsOk(Exec(r, es)) && (es != [] ==> SlotsOkThroughout(r, es[..|es| - 1]))
  }

  ghost predicate ExactThroughout(r: Rules, es: seq<Event>)
    requires IsRun(r, es)
    decreases |es|
  {
    SeatingExact(Exec(r, es)) && (es != [] ==> ExactThroughout(r, es[..|es| - 1]))
  }

  /** Slots stay true all along a run exactly when the run respects the seat discipline. */
  lemma {:induction false} SlotsStayTrue(r: Rules, es: seq<Event>)
    requires IsRun(r, es)
    ensures SeatDisciplined(r, es) <==> SlotsOkThroughout(r, es)
    decreases |es|
  {
    if es != [] {
      var pre := es[..|es| - 1];
      SlotsStayTrue(r, pre);
      SoundAlways(r, pre);
      if SlotsOkThroughout(r, pre) {
        SlotsStep(r, Exec(r, pre), es[|es| - 1]);
      }
    }
  }

  /** Slots and claims agree all along a run exactly when the run respects the claim
      discipline. */
  lemma {:induction false} SeatingStaysExact(r: Rules, es: seq<Event>)
    requires IsRun(r, es)
    ensures ClaimDisciplined(r, es) <==> ExactThroughout(r, es)
    decreases |es|
  {
    if es != [] {
      var pre := es[..|es| - 1];
      SeatingStaysExact(r, pre);
      SoundAlways(r, pre);
      if ExactThroughout(r, pre) {
        ExactStep(r, Exec(r, pre), es[|es| - 1]);
      }
    }
  }

  // ---------------------------------------------------------------- slots that dangle

  predicate SlotLive(s: State, slot: Option<SocketId>) {
    slot.Some? ==> slot.value in s.live
  }

  predicate RoomLive(s: State, room: Room) {
    SlotLive(s, room.white) && SlotLive(s, room.black)
  }

  /** No slot dangles: whoever is in one is live. */
  ghost predicate SlotsLive(s: State) {
    forall g :: g in s.rooms ==> RoomLive(s, s.rooms[g])
  }

  /** The connection the event closes, itself or by a refusal. */
  function Leaving(s: State, e: Event): Option<SocketId>
    requires Enabled(s, e)
  {
    match e
    case Closed(sid) => Some(sid)
    case CallbackRun(k) =>
      if s.deferred[k].sid in s.live && Refusal(s, s.deferred[k]).Some? then Some(s.deferred[k].sid) else None
    case _ => None
  }

  /** Whoever leaves holds no slot but the one its data names. */
  ghost predicate LeavesClean(s: State, e: Event)
    requires Enabled(s, e)
  {
    var sid := Leaving(s, e);
    sid.Some? && sid.value in s.conns ==>
      MaySit(s, sid.value, s.conns[sid.value].gameId, s.conns[sid.value].color)
  }

  lemma LiveRooms(s: State, t: State)
    requires t.rooms.Keys <= s.rooms.Keys && s.live <= t.live
    requires forall g :: g in t.rooms ==> SameSlots(s.rooms[g], t.rooms[g])
    ensures SlotsLive(s) ==> SlotsLive(t)
  {
    if SlotsLive(s) {
      forall g | g in t.rooms
        ensures RoomLive(t, t.rooms[g])
      {
        assert RoomLive(s, s.rooms[g]) && SameSlots(s.rooms[g], t.rooms[g]);
      }
    }
  }

  lemma LiveMove(r: Rules, s: State, sid: SocketId, text: string)
    requires SlotsLive(s) && sid in s.conns
    ensures SlotsLive(OnMove(r, s, sid, text))
  {
    if Accepted(r, s, sid, text) {
      var g := s.conns[sid].gameId;
      var p := Played(r, s, g, text);
      PlayedFrame(r, s, g, text);
      LiveRooms(s, p);
      FinishFrame(r, p, sid, g);
      LiveRooms(p, Finish(r, p, sid, g));
    }
  }

  lemma LiveFrame(r: Rules, s: State, sid: SocketId, now: int, frame: Frame)
    requires SlotsLive(s) && sid in s.conns
    ensures SlotsLive(OnFrame(r, s, sid, now, frame))
  {
    if !frame.TooLarge? {
      var s1 := Count(s, sid, now);
      LiveRooms(s, s1);
      if frame.Json? && frame.payload.PlayMove? {
        LiveMove(r, s1, sid, frame.payload.move);
      }
    }
  }

  /** Closing empties one slot only, so any other slot of the connection is left dangling. */
  lemma LiveClosed(s: State, t: State, sid: SocketId)
    requires SlotsLive(s) && sid in s.conns && ClosedFrom(s, t, sid)
    ensures SlotsLive(t) <==> MaySit(s, sid, s.conns[sid].gameId, s.conns[sid].color)
  {
    var g, color := s.conns[sid].gameId, s.conns[sid].color;
    if MaySit(s, sid, g, color) {
      forall h | h in t.rooms
        ensures RoomLive(t, t.rooms[h])
      {
        assert RoomLive(s, s.rooms[h]) && MaySitIn(s.rooms[h], sid, h == g, color);
      }
    }
    if SlotsLive(t) {
      forall h | h in s.rooms
        ensures MaySitIn(s.rooms[h], sid, h == g, color)
      {
        assert h in t.rooms ==> RoomLive(t, t.rooms[h]);
      }
    }
  }

  lemma LiveAdmit(r: Rules, s: State, cb: Callback)
    requires SlotsLive(s) && cb.sid in s.conns && cb.sid in s.live && cb.seat.Some?
    ensures SlotsLive(Admit(r, s, cb))
  {
    var t := Admit(r, s, cb);
    AdmitFrame(r, s, cb);
    forall g | g in t.rooms
      ensures RoomLive(t, t.rooms[g])
    {
      assert g in s.rooms ==> RoomLive(s, s.rooms[g]);
    }
  }

  lemma LiveCallback(r: Rules, s: State, k: nat)
    requires Sound(s) && SlotsLive(s) && k < |s.deferred|
    ensures SlotsLive(OnCallback(r, s, k)) <==> LeavesClean(s, CallbackRun(k))
  {
    var cb := s.deferred[k];
    var s1 := s.(deferred := RemoveAt(s.deferred, k));
    LiveRooms(s, s1);
    if cb.sid in s.live {
      if Refusal(s, cb).Some? {
        LiveRefuse(s1, cb.sid, Refusal(s, cb).value);
      } else {
        LiveAdmit(r, s1, cb);
      }
    }
  }

  lemma LiveRefuse(s: State, sid: SocketId, text: string)
    requires SlotsLive(s) && sid in s.conns
    ensures SlotsLive(Refuse(s, sid, text)) <==> MaySit(s, sid, s.conns[sid].gameId, s.conns[sid].color)
  {
    var u := Send(s, sid, ErrorText(text));
    SendSame(s, sid, ErrorText(text));
    LiveRooms(s, u);
    CloseFrame(u, sid);
    LiveClosed(u, OnClose(u, sid), sid);
    assert MaySit(u, sid, s.conns[sid].gameId, s.conns[sid].color)
      <==> MaySit(s, sid, s.conns[sid].gameId, s.conns[sid].color);
  }

  /** One step leaves no slot dangling exactly when whoever leaves in it holds no slot but
      its own. Taking a second seat does no harm yet. */
  lemma LiveStep(r: Rules, s: State, e: Event)
    requires Sound(s) && SlotsLive(s) && Enabled(s, e)
    ensures SlotsLive(Step(r, s, e)) <==> LeavesClean(s, e)
  {
    match e
    case Opened => LiveRooms(s, OnOpen(s));
    case Received(sid, now, frame) => LiveFrame(r, s, sid, now, frame);
    case Closed(sid) =>
      CloseFrame(s, sid);
      LiveClosed(s, OnClose(s, sid), sid);
    case CallbackRun(k) => LiveCallback(r, s, k);
    case _ => LiveRooms(s, Step(r, s, e));
  }

  ghost predicate LeavesCleanThroughout(r: Rules, es: seq<Event>)
    requires IsRun(r, es)
    decreases |es|
  {
    es != [] ==>
      && LeavesCleanThroughout(r, es[..|es| - 1])
      && LeavesClean(Exec(r, es[..|es| - 1]), es[|es| - 1])
  }

  ghost predicate SlotsLiveThroughout(r: Rules, es: seq<Event>)
    requires IsRun(r, es)
    decreases |es|
  {
    SlotsLive(Exec(r, es)) && (es != [] ==> SlotsLiveThroughout(r, es[..|es| - 1]))
  }

  /** No slot dangles at any point of a run exactly when everyone who leaves, or is turned
      away, holds no slot but the one its data names. */
  lemma {:induction false} NoSlotDangles(r: Rules, es: seq<Event>)
    requires IsRun(r, es)
    ensures SlotsLiveThroughout(r, es) <==> LeavesCleanThroughout(r, es)
    decreases |es|
  {
    if es != [] {
      var pre := es[..|es| - 1];
      NoSlotDangles(r, pre);
      SoundAlways(r, pre);
      if SlotsLiveThroughout(r, pre) {
        LiveStep(r, Exec(r, pre), es[|es| - 1]);
      }
    }
  }

  // ---------------------------------------------------------------- the two gauges

  /** Someone who sits in the room. */
  ghost function Sitter(s: State, g: string): SocketId
    requires Sound(s) && g in s.rooms
  {
    assert RoomSound(s.conns.Keys, s.rooms[g]);
    if s.rooms[g].white.Some? then s.rooms[g].white.value else s.rooms[g].black.value
  }

  lemma {:induction false} SittersDiffer(s: State, gs: set<string>)
    requires Sound(s) && SlotsOk(s) && gs <= s.rooms.Keys
    ensures |gs| == |set g | g in gs :: Sitter(s, g)|
  {
    if gs != {} {
      var g :| g in gs;
      SittersDiffer(s, gs - {g});
      var rest := set h | h in gs - {g} :: Sitter(s, h);
      assert SlotsTrue(s, g);
      forall h | h in gs - {g}
        ensures Sitter(s, h) != Sitter(s, g)
      {
        assert SlotsTrue(s, h);
      }
      assert (set h | h in gs :: Sitter(s, h)) == rest + {Sitter(s, g)};
    }
  }

  /** With true slots each room has a live connection of its own that sits in it; so there
      are never more games than connections. */
  lemma GamesAtMostSockets(s: State)
    requires Sound(s) && SlotsOk(s)
    ensures forall g :: g in s.rooms ==> Sitter(s, g) in s.live && s.conns[Sitter(s, g)].gameId == g
    ensures forall g, h :: g in s.rooms && h in s.rooms && g != h ==> Sitter(s, g) != Sitter(s, h)
    ensures s.activeGames <= s.connectedSockets
  {
    forall g | g in s.rooms
      ensures Sitter(s, g) in s.live && s.conns[Sitter(s, g)].gameId == g
    {
      assert SlotsTrue(s, g);
    }
    SittersDiffer(s, s.rooms.Keys);
    SubsetSize(set g | g in s.rooms.Keys :: Sitter(s, g), s.live);
  }
}
