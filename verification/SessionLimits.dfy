/** The rate limiter at work inside the game server: along any run each connection's window
    is the limiter's, so the limiter's bounds hold of the messages the server acts on. */
module SessionLimits {
  import opened Wrappers
  import opened ChessRules
  import opened Session
  import opened SessionFrames
  import opened SessionInvariants
  import opened SessionEffects
  import Limiter = SocketLimiter

  /** The event puts a message of the connection before the limiter. */
  predicate Counted(e: Event, sid: SocketId) {
    e.Received? && e.sid == sid && !e.frame.TooLarge?
  }

  /** When the connection's messages reached the limiter. */
  function ArrivalTimes(es: seq<Event>, sid: SocketId): seq<int> {
    if es == [] then []
    else
      var rest, e := ArrivalTimes(es[..|es| - 1], sid), es[|es| - 1];
      if Counted(e, sid) then rest + [e.now] else rest
  }

  /** The server looks into the message. */
  predicate LetIn(s: State, e: Event, sid: SocketId) {
    Counted(e, sid) && sid in s.conns && Limiter.Passes(s.conns[sid].window, e.now)
  }

  /** The connection's messages of the run that were let in within [lo, hi]. */
  function LetInCount(r: Rules, es: seq<Event>, sid: SocketId, lo: int, hi: int): nat
    requires IsRun(r, es)
    decreases |es|
  {
    if es == [] then 0
    else
      var pre, e := es[..|es| - 1], es[|es| - 1];
      LetInCount(r, pre, sid, lo, hi) + if LetIn(Exec(r, pre), e, sid) && lo <= e.now <= hi then 1 else 0
  }

  ghost predicate SameWindow(s: State, t: State, i: SocketId)
    requires i in s.conns
  {
    i in t.conns && t.conns[i].window == s.conns[i].window
  }

  lemma WindowSame(s: State, t: State, i: SocketId)
    requires SameButInboxes(s, s.(conns := t.conns)) && i in s.conns
    ensures SameWindow(s, t, i)
  {
  }

  lemma WindowMove(r: Rules, s: State, sid: SocketId, text: string, i: SocketId)
    requires sid in s.conns && i in s.conns
    ensures SameWindow(s, OnMove(r, s, sid, text), i)
  {
    if Accepted(r, s, sid, text) {
      var g := s.conns[sid].gameId;
      var p := Played(r, s, g, text);
      PlayedFrame(r, s, g, text);
      WindowSame(s, p, i);
      FinishFrame(r, p, sid, g);
      WindowSame(p, Finish(r, p, sid, g), i);
    }
  }

  lemma WindowHandle(r: Rules, s: State, cb: Callback, i: SocketId)
    requires i in s.conns
    ensures SameWindow(s, Handle(r, s, cb), i)
  {
    if cb.sid in s.live && cb.sid in s.conns {
      if Refusal(s, cb).Some? {
        var m := ErrorText(Refusal(s, cb).value);
        SendSame(s, cb.sid, m);
        WindowSame(s, Send(s, cb.sid, m), i);
        CloseFrame(Send(s, cb.sid, m), cb.sid);
        WindowSame(Send(s, cb.sid, m), Handle(r, s, cb), i);
      } else {
        AdmitFrame(r, s, cb);
        WindowSame(Sit(r, s, cb.sid, cb.seat.value), Admit(r, s, cb), i);
      }
    }
  }

  lemma WindowFrame(r: Rules, s: State, sid: SocketId, now: int, frame: Frame, i: SocketId)
    requires sid in s.conns && i in s.conns
    ensures if i == sid && !frame.TooLarge? then
              && i in OnFrame(r, s, sid, now, frame).conns
              && OnFrame(r, s, sid, now, frame).conns[i].window == Limiter.Roll(s.conns[i].window, now)
            else SameWindow(s, OnFrame(r, s, sid, now, frame), i)
  {
    if frame.Json? && frame.payload.PlayMove? {
      WindowMove(r, Count(s, sid, now), sid, frame.payload.move, i);
    }
  }

  /** Only a connection's own messages move its window. */
  lemma WindowStep(r: Rules, s: State, e: Event, i: SocketId)
    requires Sound(s) && Enabled(s, e) && i in s.conns
    ensures i in Step(r, s, e).conns
    ensures Step(r, s, e).conns[i].window
            == if Counted(e, i) then Limiter.Roll(s.conns[i].window, e.now) else s.conns[i].window
  {
    match e
    case Received(sid, now, frame) => WindowFrame(r, s, sid, now, frame, i);
    case Closed(sid) =>
      CloseFrame(s, sid);
      WindowSame(s, OnClose(s, sid), i);
    case CallbackRun(k) => WindowHandle(r, s.(deferred := RemoveAt(s.deferred, k)), s.deferred[k], i);
    case _ =>
  }

  lemma NewWindow(r: Rules, s: State, e: Event, i: SocketId)
    requires Sound(s) && Enabled(s, e) && i !in s.conns && i in Step(r, s, e).conns
    ensures Step(r, s, e).conns[i] == NewConn
  {
    match e
    case Received(sid, now, frame) => FrameLive(r, s, sid, now, frame);
    case Closed(sid) => CloseFrame(s, sid);
    case CallbackRun(k) => HandleLive(r, s.(deferred := RemoveAt(s.deferred, k)), s.deferred[k]);
    case _ =>
  }

  lemma AfterMore(times: seq<int>, t: int)
    ensures Limiter.After(Limiter.FreshWindow, times + [t])
            == Limiter.Roll(Limiter.After(Limiter.FreshWindow, times), t)
  {
  }

  /** Along every run the window in the connection is the limiter's after its messages. */
  lemma {:induction false} WindowIsTheLimiters(r: Rules, es: seq<Event>, sid: SocketId)
    requires IsRun(r, es)
    ensures if sid in Exec(r, es).conns then
              Exec(r, es).conns[sid].window == Limiter.After(Limiter.FreshWindow, ArrivalTimes(es, sid))
            else ArrivalTimes(es, sid) == []
    decreases |es|
  {
    if es != [] {
      var pre, e := es[..|es| - 1], es[|es| - 1];
      var s := Exec(r, pre);
      WindowIsTheLimiters(r, pre, sid);
      SoundAlways(r, pre);
      if sid in s.conns {
        WindowStep(r, s, e, sid);
        if Counted(e, sid) {
          AfterMore(ArrivalTimes(pre, sid), e.now);
        }
      } else if sid in Step(r, s, e).conns {
        NewWindow(r, s, e, sid);
      }
    }
  }

  lemma PassedMore(w: Limiter.Window, times: seq<int>, t: int, lo: int, hi: int)
    ensures Limiter.Passed(w, times + [t], lo, hi)
            == Limiter.Passed(w, times, lo, hi)
               + if Limiter.Passes(Limiter.After(w, times), t) && lo <= t <= hi then 1 else 0
  {
    Limiter.PassedConcat(w, times, [t], lo, hi);
    assert [t][1..] == [];
  }

  lemma {:induction false} LetInIsPassed(r: Rules, es: seq<Event>, sid: SocketId, lo: int, hi: int)
    requires IsRun(r, es)
    ensures LetInCount(r, es, sid, lo, hi)
            == Limiter.Passed(Limiter.FreshWindow, ArrivalTimes(es, sid), lo, hi)
    decreases |es|
  {
    if es != [] {
      var pre, e := es[..|es| - 1], es[|es| - 1];
      LetInIsPassed(r, pre, sid, lo, hi);
      WindowIsTheLimiters(r, pre, sid);
      SoundAlways(r, pre);
      if Counted(e, sid) {
        PassedMore(Limiter.FreshWindow, ArrivalTimes(pre, sid), e.now, lo, hi);
      }
    }
  }

  // ---------------------------------------------------------------- what the server acts on

  /** A message the limiter turns down is not looked at, whatever it says: its sender is told
      so, its window moves on, and nothing else changes. */
  lemma LimitedDoesNothing(r: Rules, es: seq<Event>, e: Event, sid: SocketId)
    requires IsRun(r, es) && Enabled(Exec(r, es), e) && Counted(e, sid) && !LetIn(Exec(r, es), e, sid)
    ensures sid in Exec(r, es).conns
    ensures OnlyHeard(Exec(r, es), Step(r, Exec(r, es), e), sid,
                      Limiter.Roll(Exec(r, es).conns[sid].window, e.now), [ErrorText("rate limit exceeded")])
  {
    SoundAlways(r, es);
    TurnedDownDoes(r, Exec(r, es), sid, e.now, e.frame);
    assert Errors(["rate limit exceeded"]) == [ErrorText("rate limit exceeded")];
  }

  /** The message changes more than its sender's window and inbox. */
  ghost predicate Acts(r: Rules, s: State, e: Event, sid: SocketId)
    requires Enabled(s, e)
  {
    && e.Received? && e.sid == sid && sid in s.conns
    && !OnlySenderTold(s, Step(r, s, e), sid)
  }

  ghost predicate OnlySenderTold(s: State, t: State, sid: SocketId)
    requires sid in s.conns
  {
    exists window, told :: OnlyHeard(s, t, sid, window, told)
  }

  lemma ActsIsLetIn(r: Rules, s: State, e: Event, sid: SocketId)
    requires Enabled(s, e) && Acts(r, s, e, sid)
    ensures LetIn(s, e, sid)
  {
    if !LetIn(s, e, sid) {
      TurnedDownDoes(r, s, sid, e.now, e.frame);
    }
  }

  /** The connection's messages of the run that the server acted on within [lo, hi]. */
  ghost function ActCount(r: Rules, es: seq<Event>, sid: SocketId, lo: int, hi: int): nat
    requires IsRun(r, es)
    decreases |es|
  {
    if es == [] then 0
    else
      var pre, e := es[..|es| - 1], es[|es| - 1];
      ActCount(r, pre, sid, lo, hi) + if Acts(r, Exec(r, pre), e, sid) && lo <= e.now <= hi then 1 else 0
  }

  lemma {:induction false} ActsAreLetIn(r: Rules, es: seq<Event>, sid: SocketId, lo: int, hi: int)
    requires IsRun(r, es)
    ensures ActCount(r, es, sid, lo, hi) <= LetInCount(r, es, sid, lo, hi)
    decreases |es|
  {
    if es != [] {
      var pre, e := es[..|es| - 1], es[|es| - 1];
      ActsAreLetIn(r, pre, sid, lo, hi);
      if Acts(r, Exec(r, pre), e, sid) {
        ActsIsLetIn(r, Exec(r, pre), e, sid);
      }
    }
  }

  /** On every run, with a monotone clock: whatever else happens, the messages of a connection
      that change anything beyond its window and inbox number at most ten for each 1001 ms an
      interval touches, and ten more; and so do those that are looked at. */
  lemma ServerActsOnBoundedMessages(r: Rules, es: seq<Event>, sid: SocketId, lo: int, hi: int)
    requires IsRun(r, es) && Limiter.Monotone(ArrivalTimes(es, sid)) && lo <= hi
    ensures ActCount(r, es, sid, lo, hi) <= LetInCount(r, es, sid, lo, hi)
    ensures LetInCount(r, es, sid, lo, hi) <= 10 * ((hi - lo + 1000) / 1001 + 1)
    ensures hi - lo <= 1000 ==> LetInCount(r, es, sid, lo, hi) <= 20
  {
    ActsAreLetIn(r, es, sid, lo, hi);
    LetInIsPassed(r, es, sid, lo, hi);
    Limiter.UpperBound(Limiter.FreshWindow, ArrivalTimes(es, sid), lo, hi);
  }

  /** A client that leaves 101 ms between messages has every one of them looked at. */
  lemma PatientClientIsServed(r: Rules, es: seq<Event>, e: Event, sid: SocketId)
    requires IsRun(r, es) && Enabled(Exec(r, es), e) && Counted(e, sid)
    requires Limiter.Spaced(ArrivalTimes(es, sid) + [e.now], 101)
    requires (ArrivalTimes(es, sid) + [e.now])[0] >= 0
    ensures LetIn(Exec(r, es), e, sid)
  {
    var times := ArrivalTimes(es, sid) + [e.now];
    SoundAlways(r, es);
    WindowIsTheLimiters(r, es, sid);
    Limiter.NeverLimited(times);
    assert times[..|times| - 1] == ArrivalTimes(es, sid);
  }
}
