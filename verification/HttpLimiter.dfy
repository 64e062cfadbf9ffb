/** The HTTP rate limiter on one Redis key: INCR, then EXPIRE when the count came back as
    one, with other requests and the passing of time in between. The only Redis error is
    an EXPIRE that is lost. */
module HttpLimiter {
  import opened Wrappers

  /** The key may go once `deadline` has passed; a key without one stays. */
  datatype Key = Absent | Present(count: nat, deadline: Option<int>)

  /** A request let through: when its INCR ran, and in which lifetime of the key. */
  datatype Admission = Admission(time: int, life: nat)

  datatype Config = Config(maxRequests: nat, windowSeconds: nat)

  function WindowMs(c: Config): nat {
    1000 * c.windowSeconds
  }

  /** `awaiting` are the requests between an INCR that returned one and their EXPIRE;
      `births` are the times the key came into being; `lost` says that an EXPIRE was lost. */
  datatype State = State(
    key: Key,
    now: int,
    awaiting: set<nat>,
    lost: bool,
    births: seq<int>,
    log: seq<Admission>)

  function Initial(now: int): State {
    State(Absent, now, {}, false, [], [])
  }

  datatype Event =
    | Elapse(ms: nat)
    | KeyGoes
    | Incr(request: nat)
    | Expire(request: nat)
    | ExpireLost(request: nat)

  predicate Enabled(s: State, e: Event) {
    match e
    case Elapse(_) => true
    case KeyGoes => s.key.Present? && s.key.deadline.Some? && s.key.deadline.value < s.now
    case Incr(r) => r !in s.awaiting
    case Expire(r) => r in s.awaiting
    case ExpireLost(r) => r in s.awaiting
  }

  function Count(k: Key): nat {
    if k.Absent? then 0 else k.count
  }

  function OnIncr(c: Config, s: State, r: nat): State {
    var current := Count(s.key) + 1;
    var births := if s.key.Absent? then s.births + [s.now] else s.births;
    s.(key := Present(current, if s.key.Absent? then None else s.key.deadline),
       births := births,
       awaiting := if current == 1 then s.awaiting + {r} else s.awaiting,
       log := if current <= c.maxRequests && |births| > 0 then s.log + [Admission(s.now, |births| - 1)] else s.log)
  }

  /** The error is caught, and the request let through even if the limit is zero. */
  function OnExpireLost(c: Config, s: State, r: nat): State {
    s.(awaiting := s.awaiting - {r},
       lost := true,
       log := if c.maxRequests == 0 && |s.births| > 0 then s.log + [Admission(s.now, |s.births| - 1)] else s.log)
  }

  function Step(c: Config, s: State, e: Event): State
    requires Enabled(s, e)
  {
    match e
    case Elapse(ms) => s.(now := s.now + ms)
    case KeyGoes => s.(key := Absent)
    case Incr(r) => OnIncr(c, s, r)
    case Expire(r) =>
      s.(awaiting := s.awaiting - {r},
         key := if s.key.Absent? then s.key else s.key.(deadline := Some(s.now + WindowMs(c))))
    case ExpireLost(r) => OnExpireLost(c, s, r)
  }

  predicate CanRun(c: Config, s: State, es: seq<Event>)
    decreases |es|
  {
    es == [] || (Enabled(s, es[0]) && CanRun(c, Step(c, s, es[0]), es[1..]))
  }

  function Run(c: Config, s: State, es: seq<Event>): State
    requires CanRun(c, s, es)
    decreases |es|
  {
    if es == [] then s else Run(c, Step(c, s, es[0]), es[1..])
  }

  // ---------------------------------------------------------------- the invariant

  predicate LacksDeadline(k: Key) {
    k.Present? && k.deadline.None?
  }

  /** A key lacks its deadline exactly while one request is on its way to set it, or when
      that request's EXPIRE was lost. */
  ghost predicate AwaitingExact(s: State) {
    && |s.awaiting| <= 1
    && (LacksDeadline(s.key) <==> |s.awaiting| == 1 || s.lost)
    && (s.lost ==> s.awaiting == {})
    && (s.key.Present? ==> s.key.count > 0)
  }

  /** Lifetimes start more than a window apart. */
  ghost predicate BirthsSpaced(c: Config, s: State) {
    && (forall i :: 0 <= i < |s.births| ==> s.births[i] <= s.now)
    && (forall i, j :: 0 <= i < j < |s.births| ==> s.births[i] + WindowMs(c) < s.births[j])
    && (s.key.Present? ==> s.births != [])
    && (s.key.Present? && s.key.deadline.Some? ==>
          s.births[|s.births| - 1] + WindowMs(c) <= s.key.deadline.value)
    && (s.key.Absent? && s.births != [] ==> s.births[|s.births| - 1] + WindowMs(c) < s.now)
  }

  /** Admissions of one lifetime. */
  function InLife(log: seq<Admission>, life: nat): nat {
    if log == [] then 0
    else InLife(log[..|log| - 1], life) + if log[|log| - 1].life == life then 1 else 0
  }

  /** Admissions lie within their lifetimes, and lifetimes follow one another. */
  ghost predicate LogOrdered(births: seq<int>, log: seq<Admission>, now: int) {
    && (forall i :: 0 <= i < |log| ==> log[i].life < |births| && births[log[i].life] <= log[i].time <= now)
    && (forall i, k :: 0 <= i < |log| && log[i].life < k < |births| ==> log[i].time <= births[k])
    && (forall i, j :: 0 <= i < j < |log| ==> log[i].life <= log[j].life)
  }

  /** At most `maxRequests` in each lifetime, and in the current one all up to the limit. A
      lost EXPIRE makes a difference only to a limit of zero, which it lets one request past. */
  ghost predicate LogBounded(c: Config, s: State) {
    (s.lost && c.maxRequests == 0) || LivesBounded(c, s)
  }

  ghost predicate LivesBounded(c: Config, s: State) {
    && (forall k: nat :: InLife(s.log, k) <= c.maxRequests)
    && (forall k: nat :: k >= |s.births| ==> InLife(s.log, k) == 0)
    && (s.key.Present? && s.births != [] ==>
          InLife(s.log, |s.births| - 1) == if s.key.count <= c.maxRequests then s.key.count else c.maxRequests)
  }

  ghost predicate Sound(c: Config, s: State) {
    AwaitingExact(s) && BirthsSpaced(c, s) && LogOrdered(s.births, s.log, s.now) && LogBounded(c, s)
  }

  lemma InLifeAdd(log: seq<Admission>, a: Admission, life: nat)
    ensures InLife(log + [a], life) == InLife(log, life) + if a.life == life then 1 else 0
  {
  }

  lemma AwaitingStep(c: Config, s: State, e: Event)
    requires AwaitingExact(s) && Enabled(s, e)
    ensures AwaitingExact(Step(c, s, e))
  {
  }

  lemma BirthsStep(c: Config, s: State, e: Event)
    requires AwaitingExact(s) && BirthsSpaced(c, s) && Enabled(s, e)
    ensures BirthsSpaced(c, Step(c, s, e))
  {
  }

  lemma OrderedBirth(births: seq<int>, log: seq<Admission>, now: int)
    requires LogOrdered(births, log, now)
    ensures LogOrdered(births + [now], log, now)
  {
  }

  lemma OrderedAdmit(births: seq<int>, log: seq<Admission>, now: int)
    requires LogOrdered(births, log, now) && births != [] && births[|births| - 1] <= now
    ensures LogOrdered(births, log + [Admission(now, |births| - 1)], now)
  {
  }

  lemma OrderedLater(births: seq<int>, log: seq<Admission>, now: int, later: int)
    requires LogOrdered(births, log, now) && now <= later
    ensures LogOrdered(births, log, later)
  {
  }

  lemma OrderedIncr(c: Config, s: State, r: nat)
    requires BirthsSpaced(c, s) && LogOrdered(s.births, s.log, s.now)
    ensures LogOrdered(OnIncr(c, s, r).births, OnIncr(c, s, r).log, s.now)
  {
    var births, log := OnIncr(c, s, r).births, OnIncr(c, s, r).log;
    if s.key.Absent? {
      OrderedBirth(s.births, s.log, s.now);
      assert births == s.births + [s.now];
    } else {
      assert births == s.births;
    }
    OrderedAdmitted(births, s.log, s.now);
    assert log == s.log || log == s.log + [Admission(s.now, |births| - 1)];
  }

  lemma OrderedAdmitted(births: seq<int>, log: seq<Admission>, now: int)
    requires LogOrdered(births, log, now) && births != [] && births[|births| - 1] <= now
    ensures forall more :: more == log || more == log + [Admission(now, |births| - 1)]
              ==> LogOrdered(births, more, now)
  {
    OrderedAdmit(births, log, now);
  }

  lemma OrderedLost(c: Config, s: State, r: nat)
    requires BirthsSpaced(c, s) && LogOrdered(s.births, s.log, s.now)
    ensures LogOrdered(s.births, OnExpireLost(c, s, r).log, s.now)
  {
    if c.maxRequests == 0 && |s.births| > 0 {
      OrderedAdmit(s.births, s.log, s.now);
      assert OnExpireLost(c, s, r).log == s.log + [Admission(s.now, |s.births| - 1)];
    } else {
      assert OnExpireLost(c, s, r).log == s.log;
    }
  }

  lemma OrderedStep(c: Config, s: State, e: Event)
    requires BirthsSpaced(c, s) && LogOrdered(s.births, s.log, s.now) && Enabled(s, e)
    ensures var t := Step(c, s, e); LogOrdered(t.births, t.log, t.now)
  {
    match e
    case Incr(r) => OrderedIncr(c, s, r);
    case Elapse(ms) => OrderedLater(s.births, s.log, s.now, s.now + ms);
    case ExpireLost(r) => OrderedLost(c, s, r);
    case _ =>
  }

  lemma BoundedIncr(c: Config, s: State, r: nat)
    requires BirthsSpaced(c, s) && LivesBounded(c, s) && (s.key.Present? ==> s.key.count > 0)
    ensures LivesBounded(c, OnIncr(c, s, r))
  {
    var t := OnIncr(c, s, r);
    var life := |t.births| - 1;
    assert s.key.Absent? ==> InLife(s.log, life) == 0;
    forall k: nat
      ensures InLife(t.log, k) == InLife(s.log, k) + if k == life && |t.log| > |s.log| then 1 else 0
    {
      InLifeAdd(s.log, Admission(s.now, life), k);
    }
  }

  lemma BoundedStep(c: Config, s: State, e: Event)
    requires AwaitingExact(s) && BirthsSpaced(c, s) && LogBounded(c, s) && Enabled(s, e)
    ensures LogBounded(c, Step(c, s, e))
  {
    if e.Incr? && LivesBounded(c, s) {
      BoundedIncr(c, s, e.request);
    }
  }

  lemma SoundStep(c: Config, s: State, e: Event)
    requires Sound(c, s) && Enabled(s, e)
    ensures Sound(c, Step(c, s, e))
  {
    AwaitingStep(c, s, e);
    BirthsStep(c, s, e);
    OrderedStep(c, s, e);
    BoundedStep(c, s, e);
  }

  /** On every run: the deadline is missing exactly while one request is between its INCR
      and its EXPIRE or after that EXPIRE was lost; and no lifetime of the key admits more
      than the limit, unless that is zero and an EXPIRE was lost. */
  lemma {:induction false} AlwaysSound(c: Config, s: State, es: seq<Event>)
    requires Sound(c, s) && CanRun(c, s, es)
    ensures Sound(c, Run(c, s, es))
    decreases |es|
  {
    if es != [] {
      SoundStep(c, s, es[0]);
      AlwaysSound(c, Step(c, s, es[0]), es[1..]);
    }
  }

  /** EXPIRE gives the key one window from now, counted in seconds; nothing else gives it a
      deadline, or takes it away while the key stays. */
  lemma DeadlineIsOneWindow(c: Config, s: State, e: Event)
    requires AwaitingExact(s) && Enabled(s, e)
    ensures var t := Step(c, s, e);
            && (e.Expire? ==> t.key.Present? && t.key.deadline == Some(s.now + 1000 * c.windowSeconds))
            && (!e.Expire? && s.key.Present? && t.key.Present? ==> t.key.deadline == s.key.deadline)
            && (s.key.Absent? && t.key.Present? ==> t.key.deadline == None && t.key.count == 1)
  {
    if e.Expire? {
      assert s.awaiting == (s.awaiting - {e.request}) + {e.request};
    }
  }

  /** A request is let through exactly when its lifetime of the key has admitted fewer
      than the limit. */
  lemma AdmitsUpToLimit(c: Config, s: State, r: nat)
    requires Sound(c, s) && Enabled(s, Incr(r)) && (s.lost ==> c.maxRequests > 0)
    ensures var t := Step(c, s, Incr(r));
            && |t.births| > 0
            && (|t.log| == |s.log| + 1 <==> InLife(s.log, |t.births| - 1) < c.maxRequests)
  {
  }

  // ---------------------------------------------------------------- the sliding bound

  predicate Within(a: Admission, lo: int, hi: int) {
    lo <= a.time <= hi
  }

  function InInterval(log: seq<Admission>, lo: int, hi: int): nat {
    if log == [] then 0
    else InInterval(log[..|log| - 1], lo, hi) + if Within(log[|log| - 1], lo, hi) then 1 else 0
  }

  lemma {:induction false} FirstWithin(log: seq<Admission>, lo: int, hi: int) returns (i: nat)
    requires InInterval(log, lo, hi) > 0
    ensures i < |log| && Within(log[i], lo, hi)
    ensures forall j :: 0 <= j < i ==> !Within(log[j], lo, hi)
  {
    var n := |log| - 1;
    if InInterval(log[..n], lo, hi) > 0 {
      i := FirstWithin(log[..n], lo, hi);
    } else {
      i := n;
      NoneWithin(log[..n], lo, hi);
      forall j | 0 <= j < n
        ensures !Within(log[j], lo, hi)
      {
        assert log[j] == log[..n][j];
      }
    }
  }

  lemma {:induction false} NoneWithin(log: seq<Admission>, lo: int, hi: int)
    requires InInterval(log, lo, hi) == 0
    ensures forall j :: 0 <= j < |log| ==> !Within(log[j], lo, hi)
  {
    if log != [] {
      var n := |log| - 1;
      NoneWithin(log[..n], lo, hi);
      assert forall j :: 0 <= j < n ==> log[j] == log[..n][j];
    }
  }

  lemma {:induction false} TwoLives(log: seq<Admission>, lo: int, hi: int, k: nat)
    requires forall i :: 0 <= i < |log| && Within(log[i], lo, hi) ==> log[i].life == k || log[i].life == k + 1
    ensures InInterval(log, lo, hi) <= InLife(log, k) + InLife(log, k + 1)
  {
    if log != [] {
      TwoLives(log[..|log| - 1], lo, hi, k);
    }
  }

  /** Admissions two lifetimes apart are a window apart. */
  lemma LivesApart(c: Config, s: State, i: nat, j: nat)
    requires Sound(c, s) && i <= j < |s.log|
    ensures s.log[i].life <= s.log[j].life
    ensures s.log[i].life + 2 <= s.log[j].life ==> s.log[i].time + WindowMs(c) < s.log[j].time
  {
    var k, m := s.log[i].life, s.log[j].life;
    if k + 2 <= m {
      assert s.log[i].time <= s.births[k + 1];
      assert s.births[k + 1] + WindowMs(c) < s.births[m];
    }
  }

  lemma OnlyTwoLives(c: Config, s: State, lo: int, hi: int, f: nat, i: nat)
    requires Sound(c, s) && hi - lo <= WindowMs(c)
    requires f < |s.log| && Within(s.log[f], lo, hi)
    requires forall j :: 0 <= j < f ==> !Within(s.log[j], lo, hi)
    requires i < |s.log| && Within(s.log[i], lo, hi)
    ensures s.log[i].life == s.log[f].life || s.log[i].life == s.log[f].life + 1
  {
    assert f <= i;
    LivesApart(c, s, f, i);
  }

  lemma SlidingBoundAt(c: Config, s: State, lo: int, hi: int)
    requires Sound(c, s) && (s.lost ==> c.maxRequests > 0) && hi - lo <= WindowMs(c)
    ensures InInterval(s.log, lo, hi) <= 2 * c.maxRequests
  {
    if InInterval(s.log, lo, hi) > 0 {
      var f := FirstWithin(s.log, lo, hi);
      var k := s.log[f].life;
      forall i | 0 <= i < |s.log| && Within(s.log[i], lo, hi)
        ensures s.log[i].life == k || s.log[i].life == k + 1
      {
        OnlyTwoLives(c, s, lo, hi, f, i);
      }
      TwoLives(s.log, lo, hi, k);
      assert InLife(s.log, k) <= c.maxRequests && InLife(s.log, k + 1) <= c.maxRequests;
    }
  }

  /** No closed interval as long as the window admits more than twice the limit, under any
      interleaving of INCR, EXPIRE, lost EXPIREs and the key's going; for a limit of zero,
      unless an EXPIRE was lost. */
  lemma SlidingBound(c: Config, start: int, es: seq<Event>, lo: int, hi: int)
    requires CanRun(c, Initial(start), es) && hi - lo <= 1000 * c.windowSeconds
    requires Run(c, Initial(start), es).lost ==> c.maxRequests > 0
    ensures InInterval(Run(c, Initial(start), es).log, lo, hi) <= 2 * c.maxRequests
  {
    AlwaysSound(c, Initial(start), es);
    SlidingBoundAt(c, Run(c, Initial(start), es), lo, hi);
  }

  // ---------------------------------------------------------------- a lost EXPIRE

  /** Whatever happens from here on, nobody is let through again. */
  ghost predicate LockedOut(c: Config, s: State) {
    forall es :: CanRun(c, s, es) ==> Run(c, s, es).log == s.log
  }

  lemma {:induction false} StaysLocked(c: Config, s: State, es: seq<Event>)
    requires AwaitingExact(s) && s.lost && Count(s.key) >= c.maxRequests && CanRun(c, s, es)
    ensures Run(c, s, es).log == s.log
    decreases |es|
  {
    if es != [] {
      AwaitingStep(c, s, es[0]);
      StaysLocked(c, Step(c, s, es[0]), es[1..]);
    }
  }

  /** If a quiet step leads to a state that is not locked out, neither is this one. */
  lemma NotLockedBefore(c: Config, s: State, e: Event)
    requires Enabled(s, e) && Step(c, s, e).log == s.log && !LockedOut(c, Step(c, s, e))
    ensures !LockedOut(c, s)
  {
    var es :| CanRun(c, Step(c, s, e), es) && Run(c, Step(c, s, e), es).log != s.log;
    assert ([e] + es)[1..] == es;
    assert CanRun(c, s, [e] + es) && Run(c, s, [e] + es).log != s.log;
  }

  lemma NotLockedNow(c: Config, s: State, e: Event)
    requires Enabled(s, e) && Step(c, s, e).log != s.log
    ensures !LockedOut(c, s)
  {
    var t := Step(c, s, e);
    assert [e][1..] == [];
    assert CanRun(c, t, []) && Run(c, t, []) == t;
    assert CanRun(c, s, [e]) && Run(c, s, [e]).log != s.log;
  }

  /** A new lifetime lets its first request through. */
  lemma AbsentAdmits(c: Config, s: State)
    requires AwaitingExact(s) && s.key.Absent?
    ensures !LockedOut(c, s)
  {
    var e, t := Incr(0), Step(c, s, Incr(0));
    if c.maxRequests > 0 {
      NotLockedNow(c, s, e);
    } else {
      NotLockedNow(c, t, ExpireLost(0));
      NotLockedBefore(c, s, e);
    }
  }

  lemma DeadlineAdmits(c: Config, s: State)
    requires AwaitingExact(s) && s.key.Present? && s.key.deadline.Some?
    ensures !LockedOut(c, s)
  {
    var e := Elapse(if s.key.deadline.value < s.now then 0 else s.key.deadline.value + 1 - s.now);
    var t := Step(c, s, e);
    AbsentAdmits(c, Step(c, t, KeyGoes));
    NotLockedBefore(c, t, KeyGoes);
    NotLockedBefore(c, s, e);
  }

  lemma NotLostAdmits(c: Config, s: State)
    requires AwaitingExact(s) && !s.lost
    ensures !LockedOut(c, s)
  {
    if s.key.Absent? {
      AbsentAdmits(c, s);
    } else if s.key.deadline.Some? {
      DeadlineAdmits(c, s);
    } else {
      assert |s.awaiting| == 1;
      var r :| r in s.awaiting;
      AwaitingStep(c, s, Expire(r));
      DeadlineAdmits(c, Step(c, s, Expire(r)));
      NotLockedBefore(c, s, Expire(r));
    }
  }

  /** After any run: clients are locked out for good exactly when an EXPIRE was lost and the
      limit is reached. */
  lemma LockedOutExactly(c: Config, start: int, es: seq<Event>)
    requires CanRun(c, Initial(start), es)
    ensures var s := Run(c, Initial(start), es);
            LockedOut(c, s) <==> s.lost && Count(s.key) >= c.maxRequests
  {
    AlwaysSound(c, Initial(start), es);
    var s := Run(c, Initial(start), es);
    if !s.lost {
      NotLostAdmits(c, s);
    } else if Count(s.key) < c.maxRequests {
      NotLockedNow(c, s, Incr(0));
    } else {
      forall more | CanRun(c, s, more)
        ensures Run(c, s, more).log == s.log
      {
        StaysLocked(c, s, more);
      }
    }
  }

  lemma {:induction false} Fill(c: Config, s: State, n: nat) returns (es: seq<Event>)
    requires s.awaiting == {} && s.key.Present? && s.key.count > 0
    ensures CanRun(c, s, es) && Run(c, s, es).lost == s.lost && Count(Run(c, s, es).key) == s.key.count + n
    decreases n
  {
    es := [];
    if n > 0 {
      var rest := Fill(c, Step(c, s, Incr(0)), n - 1);
      es := [Incr(0)] + rest;
      assert es[1..] == rest;
    }
  }

  /** It does happen, whatever the limit: the first request's EXPIRE is lost and as many
      more come as the limit allows. */
  lemma LockoutHappens(c: Config, start: int) returns (es: seq<Event>)
    ensures CanRun(c, Initial(start), es) && LockedOut(c, Run(c, Initial(start), es))
  {
    var s1 := Step(c, Initial(start), Incr(0));
    var s2 := Step(c, s1, ExpireLost(0));
    var rest := Fill(c, s2, c.maxRequests);
    var tail := [ExpireLost(0)] + rest;
    assert tail[1..] == rest;
    es := [Incr(0)] + tail;
    assert es[1..] == tail;
    LockedOutExactly(c, start, es);
  }

  // ---------------------------------------------------------------- the limiter as an object

  /** What the client is told: when to come back, in whole seconds. `ttl` is what Redis
      says, which is not positive for a key without a deadline or without a key. */
  function ResetTime(c: Config, clock: int, ttl: int): (reset: int)
    ensures c.windowSeconds > 0 ==> reset > clock
  {
    if ttl > 0 then clock + ttl else clock + c.windowSeconds
  }

  class RateLimiter {
    const config: Config
    var key: Key
    var now: int
    ghost var awaiting: set<nat>
    ghost var lost: bool
    ghost var births: seq<int>
    ghost var log: seq<Admission>

    ghost function View(): State
      reads this
    {
      State(key, now, awaiting, lost, births, log)
    }

    constructor (c: Config, time: int)
      ensures config == c && View() == Initial(time)
    {
      config, key, now := c, Absent, time;
      awaiting, lost, births, log := {}, false, [], [];
    }

    /** INCR, and the decision that follows from its result; says whether EXPIRE is due. */
    method CountRequest(request: nat) returns (current: nat, expireDue: bool)
      requires Enabled(View(), Incr(request)) && (key.Present? ==> births != [])
      modifies this`key, this`awaiting, this`births, this`log
      ensures View() == Step(config, old(View()), Incr(request))
      ensures current == Count(key) && (current <= config.maxRequests <==> log != old(log))
      ensures expireDue <==> request in awaiting
    {
      current := 1;
      if key.Present? {
        current := key.count + 1;
        key := key.(count := current);
      } else {
        key := Present(1, None);
        births := births + [now];
      }
      expireDue := current == 1;
      if expireDue {
        awaiting := awaiting + {request};
      }
      if current <= config.maxRequests {
        log := log + [Admission(now, |births| - 1)];
      }
    }

    /** EXPIRE. */
    method SetExpiry(request: nat)
      requires Enabled(View(), Expire(request))
      modifies this`key, this`awaiting
      ensures View() == Step(config, old(View()), Expire(request))
      ensures key.Present? ==> key.deadline == Some(now + 1000 * config.windowSeconds)
    {
      if key.Present? {
        key := key.(deadline := Some(now + WindowMs(config)));
      }
      awaiting := awaiting - {request};
    }

    /** EXPIRE fails. */
    ghost method LoseExpiry(request: nat)
      requires Enabled(View(), ExpireLost(request))
      modifies this`awaiting, this`lost, this`log
      ensures View() == Step(config, old(View()), ExpireLost(request))
    {
      if config.maxRequests == 0 && |births| > 0 {
        log := log + [Admission(now, |births| - 1)];
      }
      awaiting, lost := awaiting - {request}, true;
    }

    /** One check from start to end, when nothing else happens in between. A Redis error, at
        INCR, at EXPIRE or at TTL (`ttl` is then none), is answered by letting the request
        through; what INCR and EXPIRE did before it stays done. */
    method CheckRateLimit(request: nat, incrWorks: bool, expireWorks: bool, clock: int, ttl: Option<int>)
      returns (current: nat, remaining: nat, reset: int)
      requires Enabled(View(), Incr(request)) && (key.Present? ==> births != [])
      modifies this
      ensures var before := old(View());
              var counted := Step(config, before, Incr(request));
              var due := request in counted.awaiting;
              && View() == (if !incrWorks then before
                            else if !due then counted
                            else if expireWorks then Step(config, counted, Expire(request))
                            else Step(config, counted, ExpireLost(request)))
              && var fault := !incrWorks || (due && !expireWorks) || ttl.None?;
              && current == (if fault then 0 else Count(counted.key))
              && reset == (if fault then clock + config.windowSeconds else ResetTime(config, clock, ttl.value))
              && (!fault ==> (current <= config.maxRequests <==> log != old(log)))
      ensures remaining == if current > config.maxRequests then 0 else config.maxRequests - current
    {
      current, remaining, reset := 0, config.maxRequests, clock + config.windowSeconds;
      if !incrWorks {
        return;
      }
      var counted, expireDue := CountRequest(request);
      if expireDue && !expireWorks {
        LoseExpiry(request);
        return;
      }
      if expireDue {
        SetExpiry(request);
      }
      if ttl.Some? {
        current, reset := counted, ResetTime(config, clock, ttl.value);
        remaining := if current > config.maxRequests then 0 else config.maxRequests - current;
      }
    }

    method Perform(e: Event)
      requires Enabled(View(), e) && (key.Present? ==> births != [])
      modifies this
      ensures View() == Step(config, old(View()), e)
    {
      match e {
        case Elapse(ms) => now := now + ms;
        case KeyGoes => key := Absent;
        case Incr(r) => var _, _ := CountRequest(r);
        case Expire(r) => SetExpiry(r);
        case ExpireLost(r) => LoseExpiry(r);
      }
    }
  }

  /** A limiter that lives through a run ends in the state the run ends in. */
  method Live(c: Config, start: int, es: seq<Event>) returns (limiter: RateLimiter)
    requires CanRun(c, Initial(start), es)
    ensures limiter.config == c && limiter.View() == Run(c, Initial(start), es)
  {
    limiter := new RateLimiter(c, start);
    var n := 0;
    while n < |es|
      invariant 0 <= n <= |es| && fresh(limiter) && limiter.config == c
      invariant limiter.key.Present? ==> limiter.births != []
      invariant CanRun(c, limiter.View(), es[n..])
      invariant Run(c, limiter.View(), es[n..]) == Run(c, Initial(start), es)
    {
      assert es[n..][1..] == es[n + 1..];
      limiter.Perform(es[n]);
      n := n + 1;
    }
  }
}
