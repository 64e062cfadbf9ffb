/** Every join and every resume that is let in leads to one callback at most, for the
    connection that asked: nothing is lost on the way to the workers and back, and nothing
    is doubled. */
module Callbacks {
  import opened Wrappers
  import opened ChessRules
  import opened Session
  import opened SessionFrames
  import opened SessionInvariants
  import Limiter = SocketLimiter

  // ---------------------------------------------------------------- jobs in hand

  /** The loop queues jobs and starts them; tasks change hands with the workers only. */
  ghost predicate QueueMoves(s: State, t: State, e: Event)
    requires Enabled(s, e)
  {
    && s.issued <= t.issued
    && t.jobs == (if e.Taken? then s.jobs[1..] else s.jobs + t.issued[|s.issued|..])
    && t.running == (if e.Taken? then s.running + [Begun(s.jobs[0])] else s.running)
    && t.deferred == (if e.CallbackRun? then RemoveAt(s.deferred, e.k) else s.deferred)
    && (e.Taken? ==> t.issued == s.issued)
  }

  lemma MoveQueues(r: Rules, s: State, sid: SocketId, text: string)
    requires sid in s.conns
    ensures var t := OnMove(r, s, sid, text);
            && s.issued <= t.issued && t.jobs == s.jobs + t.issued[|s.issued|..]
            && t.running == s.running && t.deferred == s.deferred
            && forall j :: j in t.issued[|s.issued|..] ==> j.ReportJob?
  {
    if Accepted(r, s, sid, text) {
      var g := s.conns[sid].gameId;
      PlayedFrame(r, s, g, text);
      FinishFrame(r, Played(r, s, g, text), sid, g);
    }
  }

  lemma HandleQueues(r: Rules, s: State, cb: Callback)
    ensures var t := Handle(r, s, cb);
            && t.issued == s.issued && t.jobs == s.jobs
            && t.running == s.running && t.deferred == s.deferred
  {
    if cb.sid in s.live && cb.sid in s.conns {
      if Refusal(s, cb).Some? {
        CloseFrame(Send(s, cb.sid, ErrorText(Refusal(s, cb).value)), cb.sid);
      } else {
        AdmitFrame(r, s, cb);
      }
    }
  }

  lemma FrameQueues(r: Rules, s: State, sid: SocketId, now: int, frame: Frame)
    requires sid in s.conns
    ensures var t := OnFrame(r, s, sid, now, frame);
            && s.issued <= t.issued && t.jobs == s.jobs + t.issued[|s.issued|..]
            && t.running == s.running && t.deferred == s.deferred
  {
    if !frame.TooLarge? && frame.Json? && frame.payload.PlayMove? {
      MoveQueues(r, Count(s, sid, now), sid, frame.payload.move);
    }
  }

  lemma LocalQueues(r: Rules, s: State, e: Event)
    requires Sound(s) && Enabled(s, e) && Local(e)
    ensures QueueMoves(s, Step(r, s, e), e)
  {
    match e
    case Received(sid, now, frame) => FrameQueues(r, s, sid, now, frame);
    case Closed(sid) => CloseFrame(s, sid);
    case CallbackRun(k) => HandleQueues(r, s.(deferred := RemoveAt(s.deferred, k)), s.deferred[k]);
    case _ =>
  }

  // ---------------------------------------------------------------- who is waiting for what

  function JobOwners(jobs: seq<Job>): seq<Option<SocketId>> {
    seq(|jobs|, n requires 0 <= n < |jobs| => JobOwner(jobs[n]))
  }

  function TaskOwners(running: seq<Task>): seq<Option<SocketId>> {
    seq(|running|, n requires 0 <= n < |running| => TaskOwner(running[n]))
  }

  function CallbackOwners(deferred: seq<Callback>): seq<Option<SocketId>> {
    seq(|deferred|, n requires 0 <= n < |deferred| => Some(deferred[n].sid))
  }

  /** What the connection asked for and has not been answered: queued, with a worker, or on
      its way back. */
  function Pending(s: State, i: SocketId): nat {
    Times(JobOwners(s.jobs), Some(i))
    + Times(TaskOwners(s.running), Some(i))
    + Times(CallbackOwners(s.deferred), Some(i))
  }

  /** The event is a join or a resume of the connection, and is let in. */
  predicate Asks(s: State, e: Event, i: SocketId) {
    && e.Received? && e.sid == i && i in s.conns
    && e.frame.Json? && (e.frame.payload.JoinMatch? || e.frame.payload.ResumeMatch?)
    && Limiter.Passes(s.conns[i].window, e.now)
  }

  predicate Answers(s: State, e: Event, i: SocketId)
    requires Enabled(s, e)
  {
    e.CallbackRun? && s.deferred[e.k].sid == i
  }

  function Asked(r: Rules, es: seq<Event>, i: SocketId): nat
    requires IsRun(r, es)
    decreases |es|
  {
    if es == [] then 0
    else
      var pre := es[..|es| - 1];
      Asked(r, pre, i) + if Asks(Exec(r, pre), es[|es| - 1], i) then 1 else 0
  }

  function Answered(r: Rules, es: seq<Event>, i: SocketId): nat
    requires IsRun(r, es)
    decreases |es|
  {
    if es == [] then 0
    else
      var pre := es[..|es| - 1];
      Answered(r, pre, i) + if Answers(Exec(r, pre), es[|es| - 1], i) then 1 else 0
  }

  // ---------------------------------------------------------------- one step

  lemma PendingQueued(s: State, t: State, j: Job, i: SocketId)
    requires t.jobs == s.jobs + [j] && t.running == s.running && t.deferred == s.deferred
    ensures Pending(t, i) == Pending(s, i) + if JobOwner(j) == Some(i) then 1 else 0
  {
    assert JobOwners(t.jobs) == JobOwners(s.jobs) + [JobOwner(j)];
    TimesAdd(JobOwners(s.jobs), JobOwner(j), Some(i));
  }

  lemma PendingMove(r: Rules, s: State, sid: SocketId, text: string, i: SocketId)
    requires sid in s.conns
    ensures Pending(OnMove(r, s, sid, text), i) == Pending(s, i)
  {
    if Accepted(r, s, sid, text) {
      var g := s.conns[sid].gameId;
      var p := Played(r, s, g, text);
      PlayedFrame(r, s, g, text);
      if r.over(p.rooms[g].board).1 != NoResult {
        FinishFrame(r, p, sid, g);
        PendingQueued(p, Finish(r, p, sid, g), Finish(r, p, sid, g).jobs[|p.jobs|], i);
      }
    }
  }

  /** A frame that asks for nothing adds nothing. */
  lemma PendingOther(r: Rules, s: State, sid: SocketId, now: int, frame: Frame, i: SocketId)
    requires sid in s.conns
    requires Limiter.Passes(s.conns[sid].window, now) && frame.Json?
             ==> frame.payload.PlayMove? || frame.payload.UnknownType?
    ensures Pending(OnFrame(r, s, sid, now, frame), i) == Pending(s, i)
  {
    if frame.Json? && frame.payload.PlayMove? {
      PendingMove(r, Count(s, sid, now), sid, frame.payload.move, i);
    }
  }

  lemma PendingFrame(r: Rules, s: State, e: Event, i: SocketId)
    requires e.Received? && e.sid in s.conns
    ensures Pending(OnFrame(r, s, e.sid, e.now, e.frame), i) == Pending(s, i) + if Asks(s, e, i) then 1 else 0
  {
    if Asks(s, e, e.sid) {
      var t := OnFrame(r, s, e.sid, e.now, e.frame);
      PendingQueued(s, t, t.jobs[|s.jobs|], i);
    } else {
      PendingOther(r, s, e.sid, e.now, e.frame, i);
    }
  }

  lemma PendingTaken(s: State, i: SocketId)
    requires s.jobs != []
    ensures Pending(OnTaken(s), i) == Pending(s, i)
  {
    var t, owner := OnTaken(s), JobOwner(s.jobs[0]);
    assert JobOwners(t.jobs) == JobOwners(s.jobs)[1..];
    assert TaskOwners(t.running) == TaskOwners(s.running) + [owner];
    TimesFront(JobOwners(s.jobs), Some(i));
    TimesAdd(TaskOwners(s.running), owner, Some(i));
  }

  /** A worker is done with its task, and hands back a callback for its owner if it has one. */
  lemma PendingDone(s: State, t: State, k: nat, i: SocketId)
    requires k < |s.running| && t.running == RemoveAt(s.running, k) && t.jobs == s.jobs
    requires var owner := TaskOwner(s.running[k]);
             if owner.None? then t.deferred == s.deferred
             else |t.deferred| == |s.deferred| + 1 && t.deferred[..|s.deferred|] == s.deferred
                  && t.deferred[|s.deferred|].sid == owner.value
    ensures Pending(t, i) == Pending(s, i)
  {
    var owner := TaskOwner(s.running[k]);
    assert TaskOwners(t.running) == RemoveAt(TaskOwners(s.running), k);
    TimesRemove(TaskOwners(s.running), k, Some(i));
    if owner.Some? {
      assert CallbackOwners(t.deferred) == CallbackOwners(s.deferred) + [owner];
      TimesAdd(CallbackOwners(s.deferred), owner, Some(i));
    }
  }

  lemma PendingSecondCall(s: State, t: State, k: nat, i: SocketId)
    requires k < |s.running| && |t.running| == |s.running| && t.running == s.running[k := t.running[k]]
    requires TaskOwner(t.running[k]) == TaskOwner(s.running[k]) && t.jobs == s.jobs && t.deferred == s.deferred
    ensures Pending(t, i) == Pending(s, i)
  {
    assert TaskOwners(t.running) == TaskOwners(s.running);
  }

  lemma PendingWorker(r: Rules, s: State, e: Event, i: SocketId)
    requires Enabled(s, e) && !Local(e)
    ensures Pending(Step(r, s, e), i) == Pending(s, i)
  {
    var t := Step(r, s, e);
    if (e.VerifyReturned? && e.reply.Some?) || (e.ResolveReturned? && e.seat.Some?) {
      PendingSecondCall(s, t, e.k, i);
    } else {
      PendingDone(s, t, e.k, i);
    }
  }

  lemma PendingCallback(r: Rules, s: State, k: nat, i: SocketId)
    requires k < |s.deferred|
    ensures Pending(OnCallback(r, s, k), i) == Pending(s, i) - if s.deferred[k].sid == i then 1 else 0
  {
    HandleQueues(r, s.(deferred := RemoveAt(s.deferred, k)), s.deferred[k]);
    assert CallbackOwners(RemoveAt(s.deferred, k)) == RemoveAt(CallbackOwners(s.deferred), k);
    TimesRemove(CallbackOwners(s.deferred), k, Some(i));
  }

  lemma PendingStep(r: Rules, s: State, e: Event, i: SocketId)
    requires Sound(s) && Enabled(s, e)
    ensures Pending(Step(r, s, e), i) + (if Answers(s, e, i) then 1 else 0)
            == Pending(s, i) + if Asks(s, e, i) then 1 else 0
  {
    match e
    case Opened =>
    case Received(_, _, _) => PendingFrame(r, s, e, i);
    case Closed(sid) => CloseFrame(s, sid);
    case Taken => PendingTaken(s, i);
    case CallbackRun(k) => PendingCallback(r, s, k, i);
    case _ => PendingWorker(r, s, e, i);
  }

  // ---------------------------------------------------------------- all runs

  /** On every run, for every connection: the joins and resumes let in are those answered by a
      callback and those still pending, so each is answered at most once. */
  lemma {:induction false} EachAnsweredOnce(r: Rules, es: seq<Event>, i: SocketId)
    requires IsRun(r, es)
    ensures Asked(r, es, i) == Answered(r, es, i) + Pending(Exec(r, es), i)
    decreases |es|
  {
    if es != [] {
      var pre := es[..|es| - 1];
      EachAnsweredOnce(r, pre, i);
      SoundAlways(r, pre);
      PendingStep(r, Exec(r, pre), es[|es| - 1], i);
    }
  }
}
