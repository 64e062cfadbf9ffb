/** The gRPC worker pool: four threads, one locked queue, one condition variable. The
    steps are the critical sections and the notifications, interleaved in any order;
    `notify_one` comes some time after the lock was released, and a sleeping worker may
    wake for no reason. */
module WorkerPool {
  import opened Wrappers

  const WORKER_COUNT := 4

  type Job = nat

  /** Ready: about to look at the queue under the lock. */
  datatype Worker = Ready | Sleeping | Running(job: Job) | Exited

  /** `notifyOnes` counts pushes whose notification is still to come, and `notifyAll` says
      that the one of `stop` is. `enqueued` and `started` are the jobs so far, in order. */
  datatype Pool = Pool(
    queue: seq<Job>,
    stopping: bool,
    workers: seq<Worker>,
    notifyOnes: nat,
    notifyAll: bool,
    enqueued: seq<Job>,
    started: seq<Job>)

  const Started := Pool([], false, [Ready, Ready, Ready, Ready], 0, false, [], [])

  datatype Event =
    | Push(job: Job)
    | NotifyOne(woken: Option<nat>)
    | Stop
    | NotifyAll
    | Look(w: nat)
    | Done(w: nat)
    | Spurious(w: nat)

  ghost predicate SomeAre(ws: seq<Worker>, state: Worker) {
    exists i :: 0 <= i < |ws| && ws[i] == state
  }

  /** A notification goes to a sleeping worker when there is one, whichever it is. */
  ghost predicate Enabled(p: Pool, e: Event) {
    match e
    case Push(_) => true
    case NotifyOne(None) => p.notifyOnes > 0 && !SomeAre(p.workers, Sleeping)
    case NotifyOne(Some(w)) => p.notifyOnes > 0 && w < |p.workers| && p.workers[w] == Sleeping
    case Stop => !p.stopping
    case NotifyAll => p.notifyAll
    case Look(w) => w < |p.workers| && p.workers[w] == Ready
    case Done(w) => w < |p.workers| && p.workers[w].Running?
    case Spurious(w) => w < |p.workers| && p.workers[w] == Sleeping
  }

  function Wake(w: Worker): Worker {
    if w == Sleeping then Ready else w
  }

  function WakeAll(ws: seq<Worker>): (r: seq<Worker>)
    ensures |r| == |ws| && forall i :: 0 <= i < |ws| ==> r[i] == Wake(ws[i])
  {
    if ws == [] then [] else [Wake(ws[0])] + WakeAll(ws[1..])
  }

  function Step(p: Pool, e: Event): Pool
    requires Enabled(p, e)
  {
    match e
    case Push(j) => p.(queue := p.queue + [j], notifyOnes := p.notifyOnes + 1, enqueued := p.enqueued + [j])
    case NotifyOne(woken) =>
      p.(notifyOnes := p.notifyOnes - 1,
         workers := if woken.Some? then p.workers[woken.value := Ready] else p.workers)
    case Stop => p.(stopping := true, notifyAll := true)
    case NotifyAll => p.(notifyAll := false, workers := WakeAll(p.workers))
    case Look(w) =>
      if p.queue != [] then
        p.(queue := p.queue[1..],
           workers := p.workers[w := Running(p.queue[0])],
           started := p.started + [p.queue[0]])
      else
        p.(workers := p.workers[w := if p.stopping then Exited else Sleeping])
    case Done(w) => p.(workers := p.workers[w := Ready])
    case Spurious(w) => p.(workers := p.workers[w := Ready])
  }

  ghost predicate IsRun(es: seq<Event>)
    decreases |es|, 0
  {
    es == [] || (IsRun(es[..|es| - 1]) && Enabled(Exec(es[..|es| - 1]), es[|es| - 1]))
  }

  ghost function Exec(es: seq<Event>): Pool
    requires IsRun(es)
    decreases |es|, 1
  {
    if es == [] then Started else Step(Exec(es[..|es| - 1]), es[|es| - 1])
  }

  // ---------------------------------------------------------------- counting workers

  function Weight(w: Worker): nat {
    match w
    case Ready => 1
    case Sleeping => 2
    case Running(_) => 2
    case Exited => 0
  }

  function ReadyCount(ws: seq<Worker>): nat {
    if ws == [] then 0 else (if ws[0] == Ready then 1 else 0) + ReadyCount(ws[1..])
  }

  function RunningCount(ws: seq<Worker>): nat {
    if ws == [] then 0 else (if ws[0].Running? then 1 else 0) + RunningCount(ws[1..])
  }

  function TotalWeight(ws: seq<Worker>): nat {
    if ws == [] then 0 else Weight(ws[0]) + TotalWeight(ws[1..])
  }

  lemma {:induction false} CountsSet(ws: seq<Worker>, i: nat, w: Worker)
    requires i < |ws|
    ensures ReadyCount(ws[i := w])
            == ReadyCount(ws) + (if w == Ready then 1 else 0) - (if ws[i] == Ready then 1 else 0)
    ensures RunningCount(ws[i := w])
            == RunningCount(ws) + (if w.Running? then 1 else 0) - (if ws[i].Running? then 1 else 0)
    ensures TotalWeight(ws[i := w]) == TotalWeight(ws) + Weight(w) - Weight(ws[i])
  {
    if i > 0 {
      CountsSet(ws[1..], i - 1, w);
      assert ws[i := w][1..] == ws[1..][i - 1 := w];
    } else {
      assert ws[i := w][1..] == ws[1..];
    }
  }

  lemma {:induction false} CountsWakeAll(ws: seq<Worker>)
    ensures ReadyCount(WakeAll(ws)) >= ReadyCount(ws)
    ensures RunningCount(WakeAll(ws)) == RunningCount(ws)
    ensures TotalWeight(WakeAll(ws)) <= TotalWeight(ws)
  {
    if ws != [] {
      CountsWakeAll(ws[1..]);
      assert WakeAll(ws)[1..] == WakeAll(ws[1..]);
    }
  }

  lemma {:induction false} RunningAtMostAll(ws: seq<Worker>, i: nat)
    requires i < |ws| && !ws[i].Running?
    ensures RunningCount(ws) < |ws|
  {
    if i > 0 {
      RunningAtMostAll(ws[1..], i - 1);
    } else {
      RunningAtMost(ws[1..]);
    }
  }

  lemma {:induction false} RunningAtMost(ws: seq<Worker>)
    ensures RunningCount(ws) <= |ws|
  {
    if ws != [] {
      RunningAtMost(ws[1..]);
    }
  }

  // ---------------------------------------------------------------- no wakeup is lost

  /** While anyone sleeps, each waiting job has a notification on its way or a ready
      worker to take it. */
  ghost predicate NoLostWakeup(p: Pool) {
    SomeAre(p.workers, Sleeping) ==> |p.queue| <= p.notifyOnes + ReadyCount(p.workers)
  }

  ghost predicate Ordered(p: Pool) {
    && |p.workers| == WORKER_COUNT
    && p.enqueued == p.started + p.queue
    && forall i :: 0 <= i < |p.workers| && p.workers[i].Running? ==> p.workers[i].job in p.started
  }

  lemma SleepersBefore(p: Pool, q: Pool, i: nat)
    requires i < |p.workers| == |q.workers| && q.workers == p.workers[i := q.workers[i]] && q.workers[i] != Sleeping
    ensures SomeAre(q.workers, Sleeping) ==> SomeAre(p.workers, Sleeping)
  {
  }

  lemma WakeupStep(p: Pool, e: Event)
    requires NoLostWakeup(p) && Enabled(p, e)
    ensures NoLostWakeup(Step(p, e))
  {
    var q := Step(p, e);
    match e
    case Push(_) =>
    case Stop =>
    case NotifyAll =>
      CountsWakeAll(p.workers);
    case NotifyOne(woken) =>
      if woken.Some? {
        CountsSet(p.workers, woken.value, Ready);
        assert SomeAre(p.workers, Sleeping);
      }
    case Look(w) =>
      CountsSet(p.workers, w, q.workers[w]);
      if q.workers[w] != Sleeping {
        SleepersBefore(p, q, w);
      }
    case Done(w) =>
      CountsSet(p.workers, w, Ready);
      SleepersBefore(p, q, w);
    case Spurious(w) =>
      CountsSet(p.workers, w, Ready);
      SleepersBefore(p, q, w);
  }

  lemma OrderedStep(p: Pool, e: Event)
    requires Ordered(p) && Enabled(p, e)
    ensures Ordered(Step(p, e))
  {
  }

  lemma {:induction false} PoolAlways(es: seq<Event>)
    requires IsRun(es)
    ensures NoLostWakeup(Exec(es)) && Ordered(Exec(es))
    decreases |es|
  {
    if es != [] {
      var pre := es[..|es| - 1];
      PoolAlways(pre);
      WakeupStep(Exec(pre), es[|es| - 1]);
      OrderedStep(Exec(pre), es[|es| - 1]);
    }
  }

  lemma {:induction false} NoneReady(ws: seq<Worker>)
    requires forall i :: 0 <= i < |ws| ==> ws[i] != Ready
    ensures ReadyCount(ws) == 0
  {
    if ws != [] {
      NoneReady(ws[1..]);
    }
  }

  /** A pool gone quiet has nothing left to do: no worker is ready, one sleeps, and no
      notification is on its way only when the queue is empty and all is started. */
  lemma QuietMeansEmpty(es: seq<Event>)
    requires IsRun(es)
    requires var p := Exec(es);
             && p.notifyOnes == 0
             && SomeAre(p.workers, Sleeping)
             && forall i :: 0 <= i < |p.workers| ==> p.workers[i] != Ready
    ensures Exec(es).queue == [] && Exec(es).started == Exec(es).enqueued
  {
    PoolAlways(es);
    NoneReady(Exec(es).workers);
    assert Exec(es).started + [] == Exec(es).started;
  }

  /** Jobs start in the order they were queued, each once, and never more than four run:
      a step starts nothing, or the oldest waiting job when at most three were running. */
  lemma StartsOldest(es: seq<Event>, e: Event)
    requires IsRun(es) && Enabled(Exec(es), e)
    ensures var p, q := Exec(es), Step(Exec(es), e);
            || (q.started == p.started && RunningCount(q.workers) <= RunningCount(p.workers))
            || (&& |p.started| < |p.enqueued|
                && q.started == p.started + [p.enqueued[|p.started|]]
                && RunningCount(p.workers) < WORKER_COUNT
                && RunningCount(q.workers) == RunningCount(p.workers) + 1)
  {
    var p, q := Exec(es), Step(Exec(es), e);
    PoolAlways(es);
    match e
    case NotifyAll => CountsWakeAll(p.workers);
    case NotifyOne(woken) =>
      if woken.Some? {
        CountsSet(p.workers, woken.value, Ready);
      }
    case Look(w) =>
      CountsSet(p.workers, w, q.workers[w]);
      RunningAtMostAll(p.workers, w);
    case Done(w) => CountsSet(p.workers, w, Ready);
    case Spurious(w) => CountsSet(p.workers, w, Ready);
    case _ =>
  }

  // ---------------------------------------------------------------- waiting jobs are started

  /** On every run, stopping or not: a ready worker that looks while a job waits starts the
      oldest one, and nobody else changes. */
  lemma LookStartsOldest(es: seq<Event>, w: nat)
    requires IsRun(es) && Enabled(Exec(es), Look(w)) && |Exec(es).started| < |Exec(es).enqueued|
    ensures var p, q := Exec(es), Step(Exec(es), Look(w));
            var n := |p.started|;
            && q.started == p.enqueued[..n + 1]
            && q.workers == p.workers[w := Running(p.enqueued[n])]
            && q.enqueued == p.enqueued && q.queue == p.enqueued[n + 1..]
            && q.stopping == p.stopping && q.notifyOnes == p.notifyOnes && q.notifyAll == p.notifyAll
  {
    PoolAlways(es);
    var p := Exec(es);
    assert p.enqueued == p.started + p.queue;
    assert p.enqueued[..|p.started|] == p.started;
  }

  /** A ready worker that finds nothing sleeps, or leaves if the pool is stopping. */
  lemma LookFindsNothing(es: seq<Event>, w: nat)
    requires IsRun(es) && Enabled(Exec(es), Look(w)) && |Exec(es).started| == |Exec(es).enqueued|
    ensures var p := Exec(es);
            Step(p, Look(w)) == p.(workers := p.workers[w := if p.stopping then Exited else Sleeping])
  {
    PoolAlways(es);
  }

  function Effort(w: Worker): nat {
    match w
    case Ready => 1
    case Sleeping => 0
    case Running(_) => 2
    case Exited => 0
  }

  function TotalEffort(ws: seq<Worker>): nat {
    if ws == [] then 0 else Effort(ws[0]) + TotalEffort(ws[1..])
  }

  lemma {:induction false} EffortSet(ws: seq<Worker>, i: nat, w: Worker)
    requires i < |ws|
    ensures TotalEffort(ws[i := w]) == TotalEffort(ws) + Effort(w) - Effort(ws[i])
  {
    if i > 0 {
      EffortSet(ws[1..], i - 1, w);
      assert ws[i := w][1..] == ws[1..][i - 1 := w];
    } else {
      assert ws[i := w][1..] == ws[1..];
    }
  }

  /** What is left to do in a pool that is not stopping. */
  function Backlog(p: Pool): nat {
    2 * |p.queue| + 2 * p.notifyOnes + TotalEffort(p.workers)
  }

  /** The event brings no work in, and is no accident. */
  predicate Works(e: Event) {
    !e.Push? && !e.Stop? && !e.Spurious?
  }

  lemma BacklogStep(p: Pool, e: Event)
    requires !p.stopping && StopSound(p) && Enabled(p, e) && Works(e)
    ensures !Step(p, e).stopping && Backlog(Step(p, e)) < Backlog(p)
  {
    match e
    case NotifyOne(woken) =>
      if woken.Some? {
        EffortSet(p.workers, woken.value, Ready);
      }
    case Look(w) => EffortSet(p.workers, w, Step(p, e).workers[w]);
    case Done(w) => EffortSet(p.workers, w, Ready);
  }

  /** Only pushes, a stop or a spurious wakeup can come next. */
  ghost predicate AtRest(p: Pool) {
    forall e :: Enabled(p, e) ==> !Works(e)
  }

  /** A running pool at rest has nobody ready or busy, and no notification on its way. */
  lemma RestIsSleep(p: Pool)
    requires !p.stopping && StopSound(p) && AtRest(p)
    ensures p.notifyOnes == 0 && forall i :: 0 <= i < |p.workers| ==> p.workers[i] == Sleeping
  {
    forall w | 0 <= w < |p.workers|
      ensures !(p.notifyOnes > 0 && p.workers[w] == Sleeping) && p.workers[w] == Sleeping
    {
      assert Enabled(p, NotifyOne(Some(w))) ==> !Works(NotifyOne(Some(w)));
      assert Enabled(p, Look(w)) ==> !Works(Look(w));
      assert Enabled(p, Done(w)) ==> !Works(Done(w));
    }
    assert Enabled(p, NotifyOne(None)) ==> !Works(NotifyOne(None));
  }

  ghost predicate Good(p: Pool) {
    NoLostWakeup(p) && Ordered(p) && StopSound(p)
  }

  /** A running pool at rest has started every job it was ever given. */
  lemma RestMeansAllStarted(p: Pool)
    requires Good(p) && !p.stopping && AtRest(p)
    ensures p.queue == [] && p.started == p.enqueued
  {
    RestIsSleep(p);
    NoneReady(p.workers);
    assert p.workers[0] == Sleeping;
    assert p.started + [] == p.started;
  }

  /** Steps from one pool to another that bring no work in. */
  ghost predicate WorksOff(p: Pool, es: seq<Event>, q: Pool)
    decreases |es|
  {
    if es == [] then p == q
    else Enabled(p, es[0]) && Works(es[0]) && WorksOff(Step(p, es[0]), es[1..], q)
  }

  lemma {:induction false} WorkEnds(p: Pool, es: seq<Event>, q: Pool)
    requires Good(p) && !p.stopping && WorksOff(p, es, q)
    ensures |es| + Backlog(q) <= Backlog(p)
    ensures Good(q) && !q.stopping && q.enqueued == p.enqueued
    decreases |es|
  {
    if es != [] {
      BacklogStep(p, es[0]);
      WakeupStep(p, es[0]);
      OrderedStep(p, es[0]);
      StopStep(p, es[0]);
      WorkEnds(Step(p, es[0]), es[1..], q);
    }
  }

  /** A running pool left to itself comes to rest: from any point of any run, every
      interleaving ends within `Backlog` steps, and when it cannot go on all jobs were
      started, in order. */
  lemma EveryJobIsStarted(es: seq<Event>, more: seq<Event>, q: Pool)
    requires IsRun(es) && !Exec(es).stopping && WorksOff(Exec(es), more, q)
    ensures |more| <= Backlog(Exec(es))
    ensures AtRest(q) ==> q.started == Exec(es).enqueued
  {
    PoolAlways(es);
    StopAlways(es);
    WorkEnds(Exec(es), more, q);
    if AtRest(q) {
      RestMeansAllStarted(q);
    }
  }

  /** A pushed job waits at the back, with a notification to come. */
  lemma PushDoes(p: Pool, j: Job)
    ensures Enabled(p, Push(j))
    ensures Step(p, Push(j))
            == p.(queue := p.queue + [j], enqueued := p.enqueued + [j], notifyOnes := p.notifyOnes + 1)
  {
  }

  /** A worker that is done is ready for the next job, and a woken one looks again. */
  lemma FreedWorkersLook(p: Pool, w: nat)
    requires w < |p.workers| && (p.workers[w].Running? || p.workers[w] == Sleeping)
    ensures var e := if p.workers[w].Running? then Done(w) else Spurious(w);
            Enabled(p, e) && Step(p, e) == p.(workers := p.workers[w := Ready])
  {
  }

  // ---------------------------------------------------------------- shutting down

  /** Once the last notification of `stop` is out nobody sleeps, and only a stopping pool
      loses workers. */
  ghost predicate StopSound(p: Pool) {
    && (p.notifyAll ==> p.stopping)
    && (p.stopping && !p.notifyAll ==> !SomeAre(p.workers, Sleeping))
    && (SomeAre(p.workers, Exited) ==> p.stopping)
  }

  /** Whoever left found the queue empty, and it stayed so. */
  ghost predicate Drained(p: Pool) {
    SomeAre(p.workers, Exited) ==> p.queue == []
  }

  lemma StopStep(p: Pool, e: Event)
    requires StopSound(p) && Enabled(p, e)
    ensures StopSound(Step(p, e))
  {
  }

  lemma {:induction false} StopAlways(es: seq<Event>)
    requires IsRun(es)
    ensures StopSound(Exec(es))
    decreases |es|
  {
    if es != [] {
      StopAlways(es[..|es| - 1]);
      StopStep(Exec(es[..|es| - 1]), es[|es| - 1]);
    }
  }

  /** Workers leave only a drained queue, exactly as long as nothing is queued after the
      first of them left. */
  lemma DrainedStep(p: Pool, e: Event)
    requires Drained(p) && Enabled(p, e)
    ensures Drained(Step(p, e)) <==> !(e.Push? && SomeAre(p.workers, Exited))
  {
  }

  /** What is left to do once the pool is stopping. */
  function Measure(p: Pool): nat {
    2 * |p.queue| + TotalWeight(p.workers) + p.notifyOnes + if p.notifyAll then 1 else 0
  }

  lemma MeasureStep(p: Pool, e: Event)
    requires p.stopping && Enabled(p, e) && !e.Push?
    ensures Step(p, e).stopping && Measure(Step(p, e)) < Measure(p)
  {
    match e
    case NotifyAll => CountsWakeAll(p.workers);
    case NotifyOne(woken) =>
      if woken.Some? {
        CountsSet(p.workers, woken.value, Ready);
      }
    case Look(w) => CountsSet(p.workers, w, Step(p, e).workers[w]);
    case Done(w) => CountsSet(p.workers, w, Ready);
    case Spurious(w) => CountsSet(p.workers, w, Ready);
    case _ =>
  }

  /** Runs from a given pool in which nothing is queued any more. */
  ghost predicate WindsDown(p: Pool, es: seq<Event>, q: Pool)
    decreases |es|
  {
    if es == [] then p == q
    else Enabled(p, es[0]) && !es[0].Push? && WindsDown(Step(p, es[0]), es[1..], q)
  }

  lemma {:induction false} ShutdownIsBounded(p: Pool, es: seq<Event>, q: Pool)
    requires p.stopping && Drained(p) && StopSound(p) && Ordered(p) && WindsDown(p, es, q)
    ensures |es| + Measure(q) <= Measure(p)
    ensures q.stopping && Drained(q) && StopSound(q) && Ordered(q) && q.enqueued == p.enqueued
    decreases |es|
  {
    if es != [] {
      var m := Step(p, es[0]);
      MeasureStep(p, es[0]);
      DrainedStep(p, es[0]);
      StopStep(p, es[0]);
      OrderedStep(p, es[0]);
      ShutdownIsBounded(m, es[1..], q);
    }
  }

  /** A stopping pool that can take no further step has run everything. */
  lemma StuckMeansDone(p: Pool)
    requires p.stopping && Drained(p) && StopSound(p) && Ordered(p)
    requires forall e :: Enabled(p, e) ==> e.Push?
    ensures forall i :: 0 <= i < |p.workers| ==> p.workers[i] == Exited
    ensures p.queue == [] && p.started == p.enqueued
  {
    assert !Enabled(p, NotifyAll);
    forall i | 0 <= i < |p.workers|
      ensures p.workers[i] == Exited
    {
      assert !Enabled(p, Look(i)) && !Enabled(p, Done(i)) && !Enabled(p, Spurious(i));
    }
    assert p.workers[0] == Exited;
    assert SomeAre(p.workers, Exited);
    assert p.started + [] == p.started;
  }

  /** From the moment of `stop`, if nothing more is queued: every interleaving ends within
      `Measure` steps, and when it cannot go on all jobs ever queued were started, in
      order, and all four workers have left. */
  lemma ShutdownRunsEverything(es: seq<Event>, down: seq<Event>, q: Pool)
    requires IsRun(es) && Enabled(Exec(es), Stop)
    requires WindsDown(Step(Exec(es), Stop), down, q)
    ensures |down| <= Measure(Step(Exec(es), Stop))
    ensures (forall e :: Enabled(q, e) ==> e.Push?) ==>
              && q.queue == []
              && q.started == Exec(es).enqueued
              && forall i :: 0 <= i < |q.workers| ==> q.workers[i] == Exited
  {
    PoolAlways(es);
    StopAlways(es);
    var p := Step(Exec(es), Stop);
    OrderedStep(Exec(es), Stop);
    StopStep(Exec(es), Stop);
    ShutdownIsBounded(p, down, q);
    if forall e :: Enabled(q, e) ==> e.Push? {
      StuckMeansDone(q);
    }
  }

  // ---------------------------------------------------------------- the pool as an object

  /** The shared fields and the threads' positions; each method is one atomic section. */
  class GrpcPool {
    var jobs: seq<Job>
    var stopping: bool
    var workers: array<Worker>
    ghost var notifyOnes: nat
    ghost var notifyAll: bool
    ghost var enqueued: seq<Job>
    ghost var startedJobs: seq<Job>

    ghost function View(): Pool
      reads this, workers
    {
      Pool(jobs, stopping, workers[..], notifyOnes, notifyAll, enqueued, startedJobs)
    }

    constructor ()
      ensures fresh(workers) && View() == Started
    {
      jobs, stopping := [], false;
      workers := new Worker[WORKER_COUNT](_ => Ready);
      notifyOnes, notifyAll, enqueued, startedJobs := 0, false, [], [];
    }

    /** The locked part of enqueueing. */
    method PushJob(job: Job)
      modifies this`jobs, this`notifyOnes, this`enqueued
      ensures View() == Step(old(View()), Push(job))
      ensures jobs == old(jobs) + [job] && notifyOnes == old(notifyOnes) + 1
    {
      jobs := jobs + [job];
      notifyOnes := notifyOnes + 1;
      enqueued := enqueued + [job];
    }

    /** `notify_one`: a sleeping worker, whichever the system picks, gets to look again. */
    method NotifyOneWorker(woken: Option<nat>)
      requires Enabled(View(), NotifyOne(woken))
      modifies this`notifyOnes, workers
      ensures View() == Step(old(View()), NotifyOne(woken))
    {
      notifyOnes := notifyOnes - 1;
      if woken.Some? {
        workers[woken.value] := Ready;
      }
    }

    method BeginStop()
      requires !stopping
      modifies this`stopping, this`notifyAll
      ensures View() == Step(old(View()), Stop)
    {
      stopping := true;
      notifyAll := true;
    }

    method NotifyAllWorkers()
      requires notifyAll
      modifies this`notifyAll, workers
      ensures View() == Step(old(View()), NotifyAll)
    {
      notifyAll := false;
      var i := 0;
      while i < workers.Length
        invariant 0 <= i <= workers.Length && !notifyAll
        invariant forall k :: 0 <= k < workers.Length
                    ==> workers[k] == if k < i then Wake(old(workers[k])) else old(workers[k])
      {
        if workers[i] == Sleeping {
          workers[i] := Ready;
        }
        i := i + 1;
      }
      assert workers[..] == WakeAll(old(workers[..]));
    }

    /** One turn of a worker under the lock: leave, take a job, or go to sleep. */
    method LookForJob(w: nat)
      requires w < workers.Length && workers[w] == Ready
      modifies this`jobs, this`startedJobs, workers
      ensures View() == Step(old(View()), Look(w))
      ensures old(jobs) != [] ==> workers[w] == Running(old(jobs)[0]) && jobs == old(jobs)[1..]
      ensures old(jobs) == [] ==> workers[w] == (if stopping then Exited else Sleeping) && jobs == []
      ensures forall k :: 0 <= k < workers.Length && k != w ==> workers[k] == old(workers[k])
    {
      if stopping && jobs == [] {
        workers[w] := Exited;
      } else if jobs == [] {
        workers[w] := Sleeping;
      } else {
        workers[w] := Running(jobs[0]);
        startedJobs := startedJobs + [jobs[0]];
        jobs := jobs[1..];
      }
    }

    method FinishJob(w: nat)
      requires w < workers.Length && workers[w].Running?
      modifies workers
      ensures View() == Step(old(View()), Done(w))
    {
      workers[w] := Ready;
    }

    method WakeSpuriously(w: nat)
      requires w < workers.Length && workers[w] == Sleeping
      modifies workers
      ensures View() == Step(old(View()), Spurious(w))
    {
      workers[w] := Ready;
    }

    method Perform(e: Event)
      requires Enabled(View(), e)
      modifies this, workers
      ensures View() == Step(old(View()), e) && workers == old(workers)
    {
      match e {
        case Push(job) => PushJob(job);
        case NotifyOne(woken) => NotifyOneWorker(woken);
        case Stop => BeginStop();
        case NotifyAll => NotifyAllWorkers();
        case Look(w) => LookForJob(w);
        case Done(w) => FinishJob(w);
        case Spurious(w) => WakeSpuriously(w);
      }
    }
  }

  lemma {:induction false} PrefixIsRun(es: seq<Event>, n: nat)
    requires IsRun(es) && n <= |es|
    ensures IsRun(es[..n])
    decreases |es|
  {
    if n < |es| {
      PrefixIsRun(es[..|es| - 1], n);
      assert es[..|es| - 1][..n] == es[..n];
    } else {
      assert es[..n] == es;
    }
  }

  /** The last event of a run happens after the others. */
  lemma LastStep(pre: seq<Event>, e: Event)
    requires IsRun(pre + [e])
    ensures IsRun(pre) && Enabled(Exec(pre), e) && Exec(pre + [e]) == Step(Exec(pre), e)
  {
    assert (pre + [e])[..|pre|] == pre;
  }

  /** A pool that lives through a run ends in the state the run ends in. */
  method Live(es: seq<Event>) returns (pool: GrpcPool)
    requires IsRun(es)
    ensures pool.View() == Exec(es)
  {
    pool := new GrpcPool();
    var n := 0;
    while n < |es|
      invariant 0 <= n <= |es| && fresh(pool) && fresh(pool.workers)
      invariant IsRun(es[..n]) && pool.View() == Exec(es[..n])
    {
      PrefixIsRun(es, n + 1);
      assert es[..n + 1] == es[..n] + [es[n]];
      LastStep(es[..n], es[n]);
      pool.Perform(es[n]);
      n := n + 1;
    }
    assert es[..n] == es;
  }
}
