/** What the whole system keeps account of, on all runs: tokens against joins, and stored
    games against finished ones; then what a stored game says on disciplined runs. */
module Ledger {
  import opened Wrappers
  import opened ChessRules
  import opened Session
  import opened SessionInvariants
  import opened SessionHistory
  import opened Seating
  import opened Announcements
  import opened Callbacks
  import opened EndToEnd
  import Tokens = ResumeTokens
  import Records = GameRecords

  // ---------------------------------------------------------------- the game server within

  /** What the game server sees of a step of the system. */
  function SeenAs(y: System, e: SystemEvent): seq<Event>
    requires EndToEnd.Enabled(y, e)
  {
    match e
    case Loop(ev) => [ev]
    case Verify(k, reply) => [VerifyReturned(k, reply)]
    case Resolve(k, served, answered) =>
      [ResolveReturned(k, if served && answered then Tokens.Answer(y.store, TokenOf(y, k)) else None)]
    case MakeToken(k, token, served, answered) => [TokenReturned(k, if served && answered then token else "")]
    case ReportEnd(k, _) => [ReportReturned(k)]
    case _ => []
  }

  lemma SeenStep(r: Rules, y: System, e: SystemEvent)
    requires EndToEnd.Enabled(y, e)
    ensures if SeenAs(y, e) == [] then EndToEnd.Step(r, y, e).session == y.session
            else
              && Session.Enabled(y.session, SeenAs(y, e)[0])
              && EndToEnd.Step(r, y, e).session == Session.Step(r, y.session, SeenAs(y, e)[0])
  {
  }

  lemma OneMore(r: Rules, before: seq<Event>, ev: Event)
    requires Session.IsRun(r, before) && Session.Enabled(Session.Exec(r, before), ev)
    ensures Session.IsRun(r, before + [ev])
    ensures Session.Exec(r, before + [ev]) == Session.Step(r, Session.Exec(r, before), ev)
    ensures SeatDisciplined(r, before) && SeatDiscipline(Session.Exec(r, before), ev)
            ==> SeatDisciplined(r, before + [ev])
  {
    assert (before + [ev])[..|before|] == before;
  }

  lemma SeenObeys(y: System, e: SystemEvent)
    requires EndToEnd.Enabled(y, e) && SeenAs(y, e) != [] && Session.Enabled(y.session, SeenAs(y, e)[0])
    ensures Obeys(y, e, FreeHands) ==> SeatDiscipline(y.session, SeenAs(y, e)[0])
  {
  }

  /** The game server within a run of the system goes through a run of its own, so all that
      holds on those runs holds here. */
  lemma {:induction false} ServerWithin(r: Rules, es: seq<SystemEvent>) returns (within: seq<Event>)
    requires EndToEnd.IsRun(r, es)
    ensures Session.IsRun(r, within) && Session.Exec(r, within) == EndToEnd.Exec(r, es).session
    ensures ObeysThroughout(r, es, FreeHands) ==> SeatDisciplined(r, within)
    decreases |es|
  {
    within := [];
    if es != [] {
      var pre, e := es[..|es| - 1], es[|es| - 1];
      var y := EndToEnd.Exec(r, pre);
      within := ServerWithin(r, pre);
      SeenStep(r, y, e);
      if SeenAs(y, e) != [] {
        SeenObeys(y, e);
        OneMore(r, within, SeenAs(y, e)[0]);
        within := within + [SeenAs(y, e)[0]];
      }
    }
  }

  lemma ServerSound(r: Rules, es: seq<SystemEvent>)
    requires Lawful(r) && EndToEnd.IsRun(r, es)
    ensures var s := EndToEnd.Exec(r, es).session;
            && Sound(s) && Recorded(r, s) && ResultsExact(s)
            && (ObeysThroughout(r, es, FreeHands) ==> OnePerEnd(s.fates))
  {
    var within := ServerWithin(r, es);
    SoundAlways(r, within);
    RecordedAlways(r, within);
    ResultsReachPlayers(r, within);
    if ObeysThroughout(r, es, FreeHands) {
      OneResultEach(r, within);
    }
  }

  // ---------------------------------------------------------------- tokens and joins

  /** The resumes that are about to ask for a new token. */
  function Resuming(running: seq<Task>): nat {
    if running == [] then 0
    else Resuming(running[..|running| - 1]) + if running[|running| - 1].Resolved? then 1 else 0
  }

  lemma {:induction false} ResumingSet(running: seq<Task>, k: nat, t: Task)
    requires k < |running|
    ensures Resuming(running[k := t])
            == Resuming(running) + (if t.Resolved? then 1 else 0) - (if running[k].Resolved? then 1 else 0)
  {
    var n := |running| - 1;
    if k < n {
      ResumingSet(running[..n], k, t);
      assert running[k := t][..n] == running[..n][k := t];
    } else {
      assert running[k := t][..n] == running[..n];
    }
  }

  lemma {:induction false} ResumingRemove(running: seq<Task>, k: nat)
    requires k < |running|
    ensures Resuming(RemoveAt(running, k)) == Resuming(running) - if running[k].Resolved? then 1 else 0
  {
    var n := |running| - 1;
    if k < n {
      ResumingRemove(running[..n], k);
      assert RemoveAt(running, k)[..n - 1] == RemoveAt(running[..n], k);
    } else {
      assert RemoveAt(running, k) == running[..n];
    }
  }

  lemma ResumingTaken(running: seq<Task>, j: Job)
    ensures Resuming(running + [Begun(j)]) == Resuming(running)
  {
    assert (running + [Begun(j)])[..|running|] == running;
  }

  /** Tokens that can still be used, and resumes about to be given one, never outnumber the
      tokens made for joins; and each token was read back once at most. */
  ghost predicate TokensBudgeted(y: System) {
    && Tokens.TokensSound(y.store)
    && |y.store.values| + Resuming(y.session.running) <= y.joins
  }

  lemma ResolveBudget(r: Rules, y: System, e: SystemEvent)
    requires TokensBudgeted(y) && e.Resolve? && EndToEnd.Enabled(y, e)
    ensures TokensBudgeted(EndToEnd.Step(r, y, e))
  {
    var running, token := y.session.running, TokenOf(y, e.k);
    var seat := Tokens.Answer(y.store, token);
    Tokens.TokensStep(y.store, Tokens.Resolve(token));
    ResumingRemove(running, e.k);
    if seat.Some? {
      ResumingSet(running, e.k, Resolved(running[e.k].job.sid, seat.value.gameId, seat.value.userId, seat.value.color));
    }
    if token in y.store.values {
      assert (y.store.values - {token}).Keys == y.store.values.Keys - {token};
    }
  }

  lemma MakeBudget(r: Rules, y: System, e: SystemEvent)
    requires TokensBudgeted(y) && e.MakeToken? && EndToEnd.Enabled(y, e)
    ensures TokensBudgeted(EndToEnd.Step(r, y, e))
  {
    var seat := SeatOf(y.session.running[e.k]);
    Tokens.TokensStep(y.store, Tokens.Create(e.token, seat));
    ResumingRemove(y.session.running, e.k);
    assert y.store.values[e.token := Tokens.Encode(seat)].Keys == y.store.values.Keys + {e.token};
  }

  lemma LoopBudget(r: Rules, y: System, ev: Event)
    requires Sound(y.session) && TokensBudgeted(y) && EndToEnd.Enabled(y, Loop(ev))
    ensures TokensBudgeted(EndToEnd.Step(r, y, Loop(ev)))
  {
    LocalQueues(r, y.session, ev);
    if ev.Taken? {
      ResumingTaken(y.session.running, y.session.jobs[0]);
    }
  }

  lemma BudgetStep(r: Rules, y: System, e: SystemEvent)
    requires Sound(y.session) && TokensBudgeted(y) && EndToEnd.Enabled(y, e)
    ensures TokensBudgeted(EndToEnd.Step(r, y, e))
  {
    var running := y.session.running;
    match e
    case NewMatch(_, _, _, _) =>
    case Loop(ev) => LoopBudget(r, y, ev);
    case Verify(k, reply) =>
      ResumingRemove(running, k);
      if reply.Some? {
        ResumingSet(running, k, Verified(running[k].job.sid, reply.value.0, reply.value.1, running[k].job.color));
      }
    case Resolve(_, _, _) => ResolveBudget(r, y, e);
    case MakeToken(_, _, _, _) => MakeBudget(r, y, e);
    case ReportEnd(k, _) => ResumingRemove(running, k);
    case TokenExpires(token) =>
      Tokens.TokensStep(y.store, Tokens.Expires(token));
      assert (y.store.values - {token}).Keys == y.store.values.Keys - {token};
  }

  /** On every run of the whole system: a resume uses up one token and makes at most one, so
      live tokens never outnumber those made for joins. */
  lemma {:induction false} TokensNeverOutnumberJoins(r: Rules, es: seq<SystemEvent>)
    requires Lawful(r) && EndToEnd.IsRun(r, es)
    ensures TokensBudgeted(EndToEnd.Exec(r, es))
    decreases |es|
  {
    if es != [] {
      var pre := es[..|es| - 1];
      ServerSound(r, pre);
      TokensNeverOutnumberJoins(r, pre);
      BudgetStep(r, EndToEnd.Exec(r, pre), es[|es| - 1]);
    }
  }

  // ---------------------------------------------------------------- a token gives back its seat

  /** The event reads the token back, or lets it expire. */
  predicate Spends(y: System, e: SystemEvent, token: string)
    requires EndToEnd.Enabled(y, e)
  {
    || (e.Resolve? && e.served && TokenOf(y, e.k) == token)
    || (e.TokenExpires? && e.token == token)
  }

  /** No event after the first `n` spends the token. */
  ghost predicate SparedSince(r: Rules, es: seq<SystemEvent>, n: nat, token: string)
    requires EndToEnd.IsRun(r, es)
    decreases |es|
  {
    |es| > n ==>
      var pre := es[..|es| - 1];
      SparedSince(r, pre, n, token) && !Spends(EndToEnd.Exec(r, pre), es[|es| - 1], token)
  }

  lemma TokenStays(r: Rules, y: System, e: SystemEvent, token: string)
    requires EndToEnd.Enabled(y, e) && !Spends(y, e, token)
    requires token in y.store.values && token in y.store.created
    ensures var t := EndToEnd.Step(r, y, e).store;
            token in t.values && token in t.created && t.values[token] == y.store.values[token]
  {
  }

  lemma {:induction false} TokenStaysOn(r: Rules, before: seq<SystemEvent>, more: seq<SystemEvent>, token: string)
    requires EndToEnd.IsRun(r, before) && EndToEnd.IsRun(r, before + more)
    requires SparedSince(r, before + more, |before|, token)
    requires var s := EndToEnd.Exec(r, before).store; token in s.values && token in s.created
    ensures var s, t := EndToEnd.Exec(r, before).store, EndToEnd.Exec(r, before + more).store;
            token in t.values && token in t.created && t.values[token] == s.values[token]
    decreases |more|
  {
    if more == [] {
      assert before + more == before;
    } else {
      var n := |more| - 1;
      var all := before + more;
      assert all[..|all| - 1] == before + more[..n] && all[|all| - 1] == more[n];
      TokenStaysOn(r, before, more[..n], token);
      TokenStays(r, EndToEnd.Exec(r, before + more[..n]), more[n], token);
    }
  }

  /** On every run of the whole system: a token that was made for a task answers, until it is
      spent, with the seat of that task, exactly when the seat holds no colon. */
  lemma TokenGivesItsSeat(r: Rules, before: seq<SystemEvent>, make: SystemEvent, more: seq<SystemEvent>)
    requires EndToEnd.IsRun(r, before) && EndToEnd.Enabled(EndToEnd.Exec(r, before), make)
    requires make.MakeToken? && make.served
    requires EndToEnd.IsRun(r, before + [make] + more)
    requires SparedSince(r, before + [make] + more, |before| + 1, make.token)
    ensures var seat := SeatOf(EndToEnd.Exec(r, before).session.running[make.k]);
            Tokens.Answer(EndToEnd.Exec(r, before + [make] + more).store, make.token)
            == if Tokens.Plain(seat) then Some(seat) else None
  {
    var y := EndToEnd.Exec(r, before);
    assert (before + [make])[..|before|] == before;
    assert EndToEnd.IsRun(r, before + [make]);
    TokenStaysOn(r, before + [make], more, make.token);
    Tokens.RoundTrip(SeatOf(y.session.running[make.k]));
  }

  lemma {:induction false} SpentStaysSpent(r: Rules, before: seq<SystemEvent>, more: seq<SystemEvent>, token: string)
    requires EndToEnd.IsRun(r, before) && EndToEnd.IsRun(r, before + more)
    requires var s := EndToEnd.Exec(r, before).store; token !in s.values && token in s.created
    ensures var t := EndToEnd.Exec(r, before + more).store; token !in t.values && token in t.created
    decreases |more|
  {
    if more == [] {
      assert before + more == before;
    } else {
      var n := |more| - 1;
      var all := before + more;
      assert all[..|all| - 1] == before + more[..n] && all[|all| - 1] == more[n];
      SpentStaysSpent(r, before, more[..n], token);
    }
  }

  /** On every run of the whole system: a token that was read back, or whose time ran out,
      answers with nothing ever after. */
  lemma SpentAnswersNothing(r: Rules, before: seq<SystemEvent>, e: SystemEvent, more: seq<SystemEvent>, token: string)
    requires Lawful(r) && EndToEnd.IsRun(r, before) && EndToEnd.Enabled(EndToEnd.Exec(r, before), e)
    requires Spends(EndToEnd.Exec(r, before), e, token) && token in EndToEnd.Exec(r, before).store.created
    requires EndToEnd.IsRun(r, before + [e] + more)
    ensures Tokens.Answer(EndToEnd.Exec(r, before + [e] + more).store, token) == None
  {
    assert (before + [e])[..|before|] == before;
    assert EndToEnd.IsRun(r, before + [e]);
    SpentStaysSpent(r, before + [e], more, token);
  }

  // ---------------------------------------------------------------- each report is filed once

  /** The job waits, or is with a worker, or was filed; and no more often than it was issued. */
  ghost predicate JobFiledOnce(s: State, filed: seq<Job>, j: Job) {
    Times(s.jobs, j) + Times(s.running, Begun(j)) + Times(filed, j) <= Times(s.issued, j)
  }

  ghost predicate AllFiledOnce(s: State, filed: seq<Job>) {
    forall j :: JobFiledOnce(s, filed, j)
  }

  lemma QueueCounts(s: State, t: State, e: Event, filed: seq<Job>, j: Job)
    requires Session.Enabled(s, e) && QueueMoves(s, t, e) && JobFiledOnce(s, filed, j)
    ensures JobFiledOnce(t, filed, j)
  {
    if e.Taken? {
      TimesFront(s.jobs, j);
      TimesAdd(s.running, Begun(s.jobs[0]), Begun(j));
    } else {
      var more := t.issued[|s.issued|..];
      assert t.issued == s.issued + more;
      TimesConcat(s.issued, more, j);
      TimesConcat(s.jobs, more, j);
    }
  }

  /** A worker is done with its task, having filed it or not. */
  lemma RemoveCounts(s: State, t: State, k: nat, filed: seq<Job>, now: seq<Job>, j: Job)
    requires k < |s.running| && t.running == RemoveAt(s.running, k) && t.jobs == s.jobs && t.issued == s.issued
    requires now == filed || (s.running[k].Begun? && now == filed + [s.running[k].job])
    requires JobFiledOnce(s, filed, j)
    ensures JobFiledOnce(t, now, j)
  {
    TimesRemove(s.running, k, Begun(j));
    if now != filed {
      TimesAdd(filed, s.running[k].job, j);
    }
  }

  /** A worker goes on to its second call. */
  lemma SetCounts(s: State, t: State, k: nat, task: Task, filed: seq<Job>, j: Job)
    requires k < |s.running| && t.running == s.running[k := task] && t.jobs == s.jobs && t.issued == s.issued
    requires !task.Begun? && JobFiledOnce(s, filed, j)
    ensures JobFiledOnce(t, filed, j)
  {
    TimesSet(s.running, k, task, Begun(j));
  }

  lemma ResolveCounts(r: Rules, y: System, e: SystemEvent, j: Job)
    requires e.Resolve? && EndToEnd.Enabled(y, e) && JobFiledOnce(y.session, y.filed, j)
    ensures var t := EndToEnd.Step(r, y, e); JobFiledOnce(t.session, t.filed, j)
  {
    var s, t := y.session, EndToEnd.Step(r, y, e).session;
    var reply := if e.served && e.answered then Tokens.Answer(y.store, TokenOf(y, e.k)) else None;
    if reply.Some? {
      var seat := reply.value;
      SetCounts(s, t, e.k, Resolved(s.running[e.k].job.sid, seat.gameId, seat.userId, seat.color), y.filed, j);
    } else {
      RemoveCounts(s, t, e.k, y.filed, y.filed, j);
    }
  }

  lemma VerifyCounts(r: Rules, y: System, e: SystemEvent, j: Job)
    requires e.Verify? && EndToEnd.Enabled(y, e) && JobFiledOnce(y.session, y.filed, j)
    ensures var t := EndToEnd.Step(r, y, e); JobFiledOnce(t.session, t.filed, j)
  {
    var s, t := y.session, EndToEnd.Step(r, y, e).session;
    if e.reply.Some? {
      var job := s.running[e.k].job;
      SetCounts(s, t, e.k, Verified(job.sid, e.reply.value.0, e.reply.value.1, job.color), y.filed, j);
    } else {
      RemoveCounts(s, t, e.k, y.filed, y.filed, j);
    }
  }

  lemma WorkerCounts(r: Rules, y: System, e: SystemEvent, j: Job)
    requires EndToEnd.Enabled(y, e) && !e.Loop? && JobFiledOnce(y.session, y.filed, j)
    ensures var t := EndToEnd.Step(r, y, e); JobFiledOnce(t.session, t.filed, j)
  {
    var t := EndToEnd.Step(r, y, e);
    match e
    case Verify(_, _) => VerifyCounts(r, y, e, j);
    case Resolve(_, _, _) => ResolveCounts(r, y, e, j);
    case MakeToken(k, _, _, _) => RemoveCounts(y.session, t.session, k, y.filed, t.filed, j);
    case ReportEnd(k, _) => RemoveCounts(y.session, t.session, k, y.filed, t.filed, j);
    case _ =>
  }

  lemma FiledOnceStep(r: Rules, y: System, e: SystemEvent)
    requires Sound(y.session) && EndToEnd.Enabled(y, e) && AllFiledOnce(y.session, y.filed)
    ensures var t := EndToEnd.Step(r, y, e); AllFiledOnce(t.session, t.filed)
  {
    var t := EndToEnd.Step(r, y, e);
    forall j
      ensures JobFiledOnce(t.session, t.filed, j)
    {
      assert JobFiledOnce(y.session, y.filed, j);
      if e.Loop? {
        LocalQueues(r, y.session, e.event);
        QueueCounts(y.session, t.session, e.event, y.filed, j);
      } else {
        WorkerCounts(r, y, e, j);
      }
    }
  }

  /** Each stored game is what its report said, about a match that is known. */
  ghost predicate GameFiled(t: Records.Tables, j: Job, row: Records.GameRow) {
    && j.ReportJob? && j.gameId in t.matches
    && row == Records.StoredGame(t.matches[j.gameId], j.gameId, j.winner, j.moves)
  }

  ghost predicate GamesFiled(t: Records.Tables, filed: seq<Job>) {
    |t.games| == |filed| && forall i :: 0 <= i < |filed| ==> GameFiled(t, filed[i], t.games[i])
  }

  lemma GamesFiledStep(r: Rules, y: System, e: SystemEvent)
    requires EndToEnd.Enabled(y, e) && GamesFiled(y.tables, y.filed)
    ensures var t := EndToEnd.Step(r, y, e); GamesFiled(t.tables, t.filed)
  {
    var t := EndToEnd.Step(r, y, e);
    forall i | 0 <= i < |t.filed|
      ensures |t.tables.games| == |t.filed| && GameFiled(t.tables, t.filed[i], t.tables.games[i])
    {
      assert i < |y.filed| ==> GameFiled(y.tables, y.filed[i], y.tables.games[i]);
    }
  }

  lemma {:induction false} FiledAlways(r: Rules, es: seq<SystemEvent>)
    requires Lawful(r) && EndToEnd.IsRun(r, es)
    ensures var y := EndToEnd.Exec(r, es);
            AllFiledOnce(y.session, y.filed) && GamesFiled(y.tables, y.filed)
    decreases |es|
  {
    if es != [] {
      var pre := es[..|es| - 1];
      ServerSound(r, pre);
      FiledAlways(r, pre);
      FiledOnceStep(r, EndToEnd.Exec(r, pre), es[|es| - 1]);
      GamesFiledStep(r, EndToEnd.Exec(r, pre), es[|es| - 1]);
    }
  }

  // ---------------------------------------------------------------- one room for each stored game

  /** `ks` assigns to each element of `a` a place of its own in `b` that holds it. */
  ghost predicate Assigned(a: seq<Job>, b: seq<Job>, ks: seq<nat>) {
    && |ks| == |a| && Distinct(ks)
    && forall i :: 0 <= i < |a| ==> ks[i] < |b| && b[ks[i]] == a[i]
  }

  /** Places after the removed one move up by one. */
  function Shift(ks: seq<nat>, p: nat): (r: seq<nat>)
    ensures |r| == |ks| && forall i :: 0 <= i < |ks| ==> r[i] == if ks[i] < p then ks[i] else ks[i] + 1
  {
    seq(|ks|, i requires 0 <= i < |ks| => if ks[i] < p then ks[i] else ks[i] + 1)
  }

  /** Nothing occurs more often in `a` than in `b`. */
  ghost predicate Within(a: seq<Job>, b: seq<Job>) {
    forall j :: Times(a, j) <= Times(b, j)
  }

  lemma WithinRemove(a: seq<Job>, b: seq<Job>, p: nat)
    requires a != [] && Within(a, b) && p < |b| && b[p] == a[|a| - 1]
    ensures Within(a[..|a| - 1], RemoveAt(b, p))
  {
    forall j
      ensures Times(a[..|a| - 1], j) <= Times(RemoveAt(b, p), j)
    {
      TimesRemove(b, p, j);
    }
  }

  lemma {:induction false} Occurring(b: seq<Job>, j: Job) returns (p: nat)
    requires Times(b, j) > 0
    ensures p < |b| && b[p] == j
  {
    p := |b| - 1;
    if b[p] != j {
      p := Occurring(b[..p], j);
    }
  }

  lemma AssignMore(a: seq<Job>, b: seq<Job>, p: nat, rest: seq<nat>)
    requires a != [] && p < |b| && b[p] == a[|a| - 1] && Assigned(a[..|a| - 1], RemoveAt(b, p), rest)
    ensures Assigned(a, b, Shift(rest, p) + [p])
  {
    var n, ks := |a| - 1, Shift(rest, p) + [p];
    forall i | 0 <= i < |a|
      ensures ks[i] < |b| && b[ks[i]] == a[i]
    {
      if i < n {
        assert RemoveAt(b, p)[rest[i]] == a[..n][i];
      }
    }
  }

  lemma {:induction false} Assign(a: seq<Job>, b: seq<Job>) returns (ks: seq<nat>)
    requires Within(a, b)
    ensures Assigned(a, b, ks)
    decreases |a|
  {
    ks := [];
    if a != [] {
      var last := a[|a| - 1];
      assert Times(a, last) > 0;
      var p := Occurring(b, last);
      WithinRemove(a, b, p);
      var rest := Assign(a[..|a| - 1], RemoveAt(b, p));
      AssignMore(a, b, p, rest);
      ks := Shift(rest, p) + [p];
    }
  }

  lemma {:induction false} ReportsCount(jobs: seq<Job>, j: Job)
    requires j.ReportJob?
    ensures Times(Reports(jobs), j) == Times(jobs, j)
  {
    if jobs != [] {
      var n := |jobs| - 1;
      ReportsCount(jobs[..n], j);
      TimesAdd(Reports(jobs[..n]), jobs[n], j);
    }
  }

  lemma {:induction false} NotFiled(t: Records.Tables, filed: seq<Job>, j: Job)
    requires !j.ReportJob? && forall f :: f in filed ==> f.ReportJob?
    ensures Times(filed, j) == 0
  {
    if filed != [] {
      NotFiled(t, filed[..|filed| - 1], j);
    }
  }

  lemma FiledAmongReports(y: System, j: Job)
    requires AllFiledOnce(y.session, y.filed) && GamesFiled(y.tables, y.filed)
    ensures Times(y.filed, j) <= Times(Reports(y.session.issued), j)
  {
    assert JobFiledOnce(y.session, y.filed, j);
    if j.ReportJob? {
      ReportsCount(y.session.issued, j);
    } else {
      forall f | f in y.filed
        ensures f.ReportJob?
      {
        var i :| 0 <= i < |y.filed| && y.filed[i] == f;
        assert GameFiled(y.tables, y.filed[i], y.tables.games[i]);
      }
      NotFiled(y.tables, y.filed, j);
    }
  }

  /** `rooms` gives each stored game an ended room of its own, which it is the game of. */
  ghost predicate RoomsOf(y: System, rooms: seq<nat>) {
    && |rooms| == |y.tables.games| && Distinct(rooms)
    && forall i :: 0 <= i < |rooms| ==>
         && rooms[i] < |y.session.fates|
         && StoredFrom(y.tables, y.tables.games[i], y.session.fates[rooms[i]])
  }

  ghost predicate StoredFrom(t: Records.Tables, row: Records.GameRow, f: Fate) {
    && f.Ended? && f.gameId in t.matches
    && row == Records.StoredGame(t.matches[f.gameId], f.gameId, f.winner, f.moves)
  }

  /** On every run, whatever the clients do: stored games are the games of different ended
      rooms, so no game is stored twice. */
  lemma StoredOnce(r: Rules, es: seq<SystemEvent>) returns (rooms: seq<nat>)
    requires Lawful(r) && EndToEnd.IsRun(r, es)
    ensures RoomsOf(EndToEnd.Exec(r, es), rooms)
  {
    var y := EndToEnd.Exec(r, es);
    FiledAlways(r, es);
    ServerSound(r, es);
    rooms := RoomsFound(r, y);
  }

  lemma RoomsFound(r: Rules, y: System) returns (rooms: seq<nat>)
    requires Recorded(r, y.session) && AllFiledOnce(y.session, y.filed) && GamesFiled(y.tables, y.filed)
    ensures RoomsOf(y, rooms)
  {
    FiledWithinReports(y);
    var ks := Assign(y.filed, Reports(y.session.issued));
    rooms := seq(|ks|, i requires 0 <= i < |ks| => y.session.reported[ks[i]]);
    forall i | 0 <= i < |rooms|
      ensures rooms[i] < |y.session.fates|
      ensures StoredFrom(y.tables, y.tables.games[i], y.session.fates[rooms[i]])
    {
      RoomFound(r, y, ks[i], i);
    }
  }

  lemma FiledWithinReports(y: System)
    requires AllFiledOnce(y.session, y.filed) && GamesFiled(y.tables, y.filed)
    ensures Within(y.filed, Reports(y.session.issued))
  {
    forall j
      ensures Times(y.filed, j) <= Times(Reports(y.session.issued), j)
    {
      FiledAmongReports(y, j);
    }
  }

  lemma RoomFound(r: Rules, y: System, k: nat, i: nat)
    requires Recorded(r, y.session) && GamesFiled(y.tables, y.filed)
    requires i < |y.filed| && k < |Reports(y.session.issued)| && Reports(y.session.issued)[k] == y.filed[i]
    ensures k < |y.session.reported| && y.session.reported[k] < |y.session.fates|
    ensures StoredFrom(y.tables, y.tables.games[i], y.session.fates[y.session.reported[k]])
  {
    assert ReportMatches(y.session.fates, y.session.reported[k], y.filed[i]);
    assert GameFiled(y.tables, y.filed[i], y.tables.games[i]);
  }

  // ---------------------------------------------------------------- the result

  /** The game was finished, its result follows from its moves, and the winner of a game
      that is not drawn made the last of them. */
  ghost predicate FairEnd(r: Rules, f: Fate) {
    && f.Ended?
    && Finished(r, f.moves)
    && f.result == ResultText(r, Replay(r, f.moves))
    && (f.result == "draw" <==> f.winner == "")
    && (f.result != "draw" ==> f.winner == f.moverUser)
  }

  /** The stored game tells of a fair end. */
  ghost predicate ToldTruly(r: Rules, row: Records.GameRow, f: Fate) {
    Tells(row, f) && FairEnd(r, f) && row.result != "abandoned"
  }

  lemma TrulyTold(r: Rules, y: System, row: Records.GameRow, n: nat)
    requires Good(r, y) && n < |y.session.fates| && StoredFrom(y.tables, row, y.session.fates[n])
    ensures ToldTruly(r, row, y.session.fates[n]) && n in y.session.reported
  {
    assert EndRight(y.tables.matches, y.session.fates[n]);
    assert FateSound(r, y.session.rooms, n, y.session.fates[n]);
  }

  /** Every inbox holds the results of the rooms it sat in: in the order in which they were
      reported, and one message for each. */
  ghost predicate InboxesTell(s: State) {
    ResultsExact(s) && OnePerEnd(s.fates)
  }

  /** On disciplined runs the stored games are, one for one, games that were finished and
      reported: the stored result is the one announced, on a loss the winner is the player
      who made the last move, the whole move list is stored, and nothing is stored as
      abandoned; and those who sat there were told that result once, in its turn. */
  lemma StoredIsAnnounced(r: Rules, es: seq<SystemEvent>) returns (rooms: seq<nat>)
    requires Lawful(r) && EndToEnd.IsRun(r, es) && DisciplinedRun(r, es)
    ensures RoomsOf(EndToEnd.Exec(r, es), rooms) && InboxesTell(EndToEnd.Exec(r, es).session)
    ensures var y := EndToEnd.Exec(r, es);
            forall i :: 0 <= i < |rooms| ==>
              && ToldTruly(r, y.tables.games[i], y.session.fates[rooms[i]])
              && rooms[i] in y.session.reported
  {
    var y := EndToEnd.Exec(r, es);
    rooms := StoredOnce(r, es);
    GoodAlways(r, es);
    ServerSound(r, es);
    forall i | 0 <= i < |rooms|
      ensures ToldTruly(r, y.tables.games[i], y.session.fates[rooms[i]]) && rooms[i] in y.session.reported
    {
      TrulyTold(r, y, y.tables.games[i], rooms[i]);
    }
  }

  // ---------------------------------------------------------------- without discipline

  /** The match rows that a run can hold. */
  lemma {:induction false} MatchesAlways(r: Rules, es: seq<SystemEvent>)
    requires EndToEnd.IsRun(r, es)
    ensures MatchesSound(EndToEnd.Exec(r, es).tables.matches)
    decreases |es|
  {
    if es != [] {
      MatchesAlways(r, es[..|es| - 1]);
    }
  }

  /** A game that is not drawn was won by the colour that moved last. */
  lemma MoverColour(r: Rules, s: State, n: nat)
    requires Lawful(r) && Recorded(r, s) && n < |s.fates| && s.fates[n].Ended?
    ensures var f := s.fates[n];
            && (f.result == "draw" || f.result == if f.moverIsWhite then "white_wins" else "black_wins")
            && (f.result == "draw" ==> f.winner == "")
  {
    assert FateSound(r, s.rooms, n, s.fates[n]);
    SidesAlternate(r, s.fates[n].moves);
  }

  /** Whatever the clients do, a stored game has the announced result exactly when it was
      drawn or was reported as won by the player the match row gives the mover's colour. */
  lemma StoredRightOnAllRuns(r: Rules, es: seq<SystemEvent>) returns (rooms: seq<nat>)
    requires Lawful(r) && EndToEnd.IsRun(r, es)
    ensures var y := EndToEnd.Exec(r, es);
            && RoomsOf(y, rooms)
            && forall i :: 0 <= i < |rooms| ==> RightExactly(y, y.tables.games[i], y.session.fates[rooms[i]])
  {
    var y := EndToEnd.Exec(r, es);
    rooms := StoredOnce(r, es);
    ServerSound(r, es);
    MatchesAlways(r, es);
    forall i | 0 <= i < |rooms|
      ensures RightExactly(y, y.tables.games[i], y.session.fates[rooms[i]])
    {
      StoredRight(r, y, y.tables.games[i], rooms[i]);
    }
  }

  ghost predicate RightExactly(y: System, row: Records.GameRow, f: Fate) {
    && f.Ended? && f.gameId in y.tables.matches
    && (Corresponds(f.result, row.result)
        <==> f.result == "draw"
             || f.winner == PlayerOf(y.tables.matches[f.gameId], if f.moverIsWhite then "white" else "black"))
  }

  lemma StoredRight(r: Rules, y: System, row: Records.GameRow, n: nat)
    requires Lawful(r) && Recorded(r, y.session) && MatchesSound(y.tables.matches)
    requires n < |y.session.fates| && StoredFrom(y.tables, row, y.session.fates[n])
    ensures RightExactly(y, row, y.session.fates[n])
  {
    var f := y.session.fates[n];
    MoverColour(r, y.session, n);
    ResultsAgree(y.tables.matches[f.gameId], if f.moverIsWhite then "white" else "black", f.result, f.winner);
  }
}
