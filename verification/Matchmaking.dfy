/** One matchmaking queue. A request awaits Redis several times, and other requests may run
    at each await; what it does between two awaits is one step. */
module Matchmaking {
  import opened Wrappers

  /** Users and requests are UUIDs, so numbers do for them. */
  type UserId = nat

  /** A queued request: its fresh id and the user who made it. */
  datatype Entry = Entry(id: nat, user: UserId)

  /** Why two popped entries went nowhere. */
  datatype Loss = SameUser | InsertFailed

  /** Where a request stands: before LLEN, before LPOP, with what LPOP gave it, or done. */
  datatype Phase = Counting | Popping | Holding | Queued | Failed | Answered

  datatype Request = Request(user: UserId, phase: Phase)

  /** What LPOP gave a request that has not gone on yet. */
  datatype Hand = Hand(id: nat, popped: seq<Entry>)

  datatype Match = Match(white: Entry, black: Entry, requester: UserId)

  /** `tickets` are the Redis keys `mm:ticket:<user>`, naming a match by its index. */
  datatype State = State(
    queue: seq<Entry>,
    requests: map<nat, Request>,
    hands: seq<Hand>,
    pushed: seq<Entry>,
    matches: seq<Match>,
    losses: seq<(Entry, Entry, Loss)>,
    tickets: map<UserId, nat>)

  const Initial := State([], map[], [], [], [], [], map[])

  datatype Event =
    | Push(id: nat, user: UserId)
    | Count(id: nat)
    | Pop(id: nat)
    | Conclude(k: nat, inserted: bool)

  predicate Enabled(s: State, e: Event) {
    match e
    case Push(id, _) => id !in s.requests
    case Count(id) => id in s.requests && s.requests[id].phase == Counting
    case Pop(id) => id in s.requests && s.requests[id].phase == Popping
    case Conclude(k, _) => k < |s.hands| && s.hands[k].id in s.requests
  }

  function Go(s: State, id: nat, p: Phase): State
    requires id in s.requests
  {
    s.(requests := s.requests[id := s.requests[id].(phase := p)])
  }

  /** The other player, as the requester sees it. */
  function OtherUser(p1: Entry, p2: Entry, user: UserId): UserId {
    if p1.user == user then p2.user else p1.user
  }

  /** RPUSH. */
  function OnPush(s: State, id: nat, user: UserId): State {
    var e := Entry(id, user);
    s.(requests := s.requests[id := Request(user, Counting)], queue := s.queue + [e], pushed := s.pushed + [e])
  }

  /** LLEN: fewer than two means wait. */
  function OnCount(s: State, id: nat): State
    requires id in s.requests
  {
    Go(s, id, if |s.queue| < 2 then Queued else Popping)
  }

  /** LPOP 2. */
  function OnPop(s: State, id: nat): State
    requires id in s.requests
  {
    var n := if |s.queue| < 2 then |s.queue| else 2;
    Go(s, id, Holding).(queue := s.queue[n..], hands := s.hands + [Hand(id, s.queue[..n])])
  }

  /** Put the entries back one by one at the front. */
  function PushBack(popped: seq<Entry>, queue: seq<Entry>): seq<Entry>
    decreases |popped|
  {
    if popped == [] then queue else PushBack(popped[1..], [popped[0]] + queue)
  }

  /** After LPOP: give back too few, or create the match and hand out two tickets. */
  function OnConclude(s: State, k: nat, inserted: bool): State
    requires Enabled(s, Conclude(k, inserted))
  {
    var id, popped := s.hands[k].id, s.hands[k].popped;
    var s1 := s.(hands := RemoveAt(s.hands, k));
    if |popped| < 2 then Go(s1, id, Queued).(queue := PushBack(popped, s.queue))
    else
      Pair(s1, id, popped[0], popped[1], inserted)
  }

  /** `create_match`, then the tickets. */
  function Pair(s: State, id: nat, p1: Entry, p2: Entry, inserted: bool): State
    requires id in s.requests
  {
    var user := s.requests[id].user;
    if p1.user == p2.user then Go(s, id, Failed).(losses := s.losses + [(p1, p2, SameUser)])
    else if !inserted then Go(s, id, Failed).(losses := s.losses + [(p1, p2, InsertFailed)])
    else
      Go(s, id, Answered).(
        matches := s.matches + [Match(p1, p2, user)],
        tickets := s.tickets[OtherUser(p1, p2, user) := |s.matches|])
  }

  function Step(s: State, e: Event): State
    requires Enabled(s, e)
  {
    match e
    case Push(id, user) => OnPush(s, id, user)
    case Count(id) => OnCount(s, id)
    case Pop(id) => OnPop(s, id)
    case Conclude(k, inserted) => OnConclude(s, k, inserted)
  }

  predicate CanRun(s: State, es: seq<Event>)
    decreases |es|
  {
    es == [] || (Enabled(s, es[0]) && CanRun(Step(s, es[0]), es[1..]))
  }

  function Run(s: State, es: seq<Event>): State
    requires CanRun(s, es)
    decreases |es|
  {
    if es == [] then s else Run(Step(s, es[0]), es[1..])
  }

  // ---------------------------------------------------------------- nobody is lost or doubled

  function InHands(hs: seq<Hand>): multiset<Entry> {
    if hs == [] then multiset{} else InHands(hs[1..]) + multiset(hs[0].popped)
  }

  function InMatches(ms: seq<Match>): multiset<Entry> {
    if ms == [] then multiset{}
    else InMatches(ms[..|ms| - 1]) + multiset{ms[|ms| - 1].white, ms[|ms| - 1].black}
  }

  function InLosses(ls: seq<(Entry, Entry, Loss)>): multiset<Entry> {
    if ls == [] then multiset{}
    else InLosses(ls[..|ls| - 1]) + multiset{ls[|ls| - 1].0, ls[|ls| - 1].1}
  }

  /** Every place an entry can be: in the queue, in one request's hand, matched, or lost. */
  function Places(s: State): multiset<Entry> {
    multiset(s.queue) + InHands(s.hands) + Settled(s.matches, s.losses)
  }

  function Settled(ms: seq<Match>, ls: seq<(Entry, Entry, Loss)>): multiset<Entry> {
    InMatches(ms) + InLosses(ls)
  }

  /** Request ids are fresh, so no entry was pushed twice. */
  ghost predicate IdsFresh(s: State) {
    && (forall i :: 0 <= i < |s.pushed| ==> s.pushed[i].id in s.requests)
    && forall i, j :: 0 <= i < j < |s.pushed| ==> s.pushed[i].id != s.pushed[j].id
  }

  /** LPOP gives two at most, to a request that is known. */
  ghost predicate HandsSound(s: State) {
    forall k :: 0 <= k < |s.hands| ==> |s.hands[k].popped| <= 2 && s.hands[k].id in s.requests
  }

  /** Entries are lost to a same-user pair or a failed insert only, and a match has two
      different players. */
  ghost predicate LossesTrue(s: State) {
    && (forall i :: 0 <= i < |s.losses| ==>
          (s.losses[i].2 == SameUser <==> s.losses[i].0.user == s.losses[i].1.user))
    && forall i :: 0 <= i < |s.matches| ==> s.matches[i].white.user != s.matches[i].black.user
  }

  ghost predicate Conserved(s: State) {
    Places(s) == multiset(s.pushed) && IdsFresh(s) && HandsSound(s) && LossesTrue(s)
  }

  lemma {:induction false} PushBackKeeps(popped: seq<Entry>, queue: seq<Entry>)
    ensures multiset(PushBack(popped, queue)) == multiset(popped) + multiset(queue)
    decreases |popped|
  {
    if popped != [] {
      PushBackKeeps(popped[1..], [popped[0]] + queue);
      assert popped == [popped[0]] + popped[1..];
    }
  }

  /** What was popped goes back to the front: one entry as it was, more of them one by one, so
      the last of them comes out first. */
  lemma {:induction false} PushBackFront(popped: seq<Entry>, queue: seq<Entry>)
    ensures |PushBack(popped, queue)| == |popped| + |queue|
    ensures PushBack(popped, queue)[|popped|..] == queue
    ensures forall i :: 0 <= i < |popped| ==> PushBack(popped, queue)[i] == popped[|popped| - 1 - i]
    decreases |popped|
  {
    if popped != [] {
      var rest := PushBack(popped[1..], [popped[0]] + queue);
      PushBackFront(popped[1..], [popped[0]] + queue);
      assert rest[|popped| - 1..] == [popped[0]] + queue;
      assert rest[|popped|..] == ([popped[0]] + queue)[1..];
    }
  }

  /** A request that popped too few puts them back where they were, and waits. */
  lemma RequeueDoes(s: State, k: nat, inserted: bool)
    requires Enabled(s, Conclude(k, inserted)) && |s.hands[k].popped| < 2
    ensures var t := Step(s, Conclude(k, inserted));
            && t.queue == s.hands[k].popped + s.queue
            && t.requests == s.requests[s.hands[k].id := Request(s.requests[s.hands[k].id].user, Queued)]
            && t.matches == s.matches && t.losses == s.losses && t.tickets == s.tickets && t.pushed == s.pushed
  {
    var popped := s.hands[k].popped;
    PushBackFront(popped, s.queue);
    var q := PushBack(popped, s.queue);
    assert q == q[..|popped|] + q[|popped|..];
  }

  lemma {:induction false} InHandsConcat(a: seq<Hand>, b: seq<Hand>)
    ensures InHands(a + b) == InHands(a) + InHands(b)
  {
    if a == [] {
      assert a + b == b;
    } else {
      assert (a + b)[1..] == a[1..] + b;
      InHandsConcat(a[1..], b);
    }
  }

  lemma Swap(a: multiset<Entry>, b: multiset<Entry>, c: multiset<Entry>)
    ensures a + b + c == a + c + b
  {
  }

  lemma {:induction false} InHandsRemove(hs: seq<Hand>, k: nat)
    requires k < |hs|
    ensures InHands(RemoveAt(hs, k)) + multiset(hs[k].popped) == InHands(hs)
  {
    var rest := hs[1..];
    if k == 0 {
      assert RemoveAt(hs, 0) == rest;
    } else {
      assert RemoveAt(hs, k)[1..] == RemoveAt(rest, k - 1);
      InHandsRemove(rest, k - 1);
      Swap(InHands(RemoveAt(rest, k - 1)), multiset(hs[0].popped), multiset(hs[k].popped));
    }
  }

  lemma SplitAt(queue: seq<Entry>, n: nat)
    requires n <= |queue|
    ensures multiset(queue) == multiset(queue[n..]) + multiset(queue[..n])
  {
    assert queue == queue[..n] + queue[n..];
  }

  lemma InHandsAdd(hs: seq<Hand>, h: Hand)
    ensures InHands(hs + [h]) == InHands(hs) + multiset(h.popped)
  {
    InHandsConcat(hs, [h]);
    assert InHands([h][1..]) == multiset{};
  }

  lemma PlacesPop(s: State, id: nat)
    requires id in s.requests
    ensures Places(OnPop(s, id)) == Places(s)
  {
    var n := if |s.queue| < 2 then |s.queue| else 2;
    SplitAt(s.queue, n);
    InHandsAdd(s.hands, Hand(id, s.queue[..n]));
    Gather(multiset(s.queue[n..]), multiset(s.queue[..n]), InHands(s.hands), Settled(s.matches, s.losses));
  }

  lemma Gather(a: multiset<Entry>, b: multiset<Entry>, c: multiset<Entry>, d: multiset<Entry>)
    ensures a + (c + b) + d == a + b + c + d
  {
  }

  lemma SettledMatch(ms: seq<Match>, ls: seq<(Entry, Entry, Loss)>, m: Match)
    ensures Settled(ms + [m], ls) == Settled(ms, ls) + multiset{m.white, m.black}
  {
  }

  lemma SettledLoss(ms: seq<Match>, ls: seq<(Entry, Entry, Loss)>, l: (Entry, Entry, Loss))
    ensures Settled(ms, ls + [l]) == Settled(ms, ls) + multiset{l.0, l.1}
  {
  }

  lemma SettledPair(s: State, id: nat, p1: Entry, p2: Entry, inserted: bool)
    requires id in s.requests
    ensures var t := Pair(s, id, p1, p2, inserted);
            && t.queue == s.queue && t.hands == s.hands
            && Settled(t.matches, t.losses) == Settled(s.matches, s.losses) + multiset{p1, p2}
  {
    SettledLoss(s.matches, s.losses, (p1, p2, SameUser));
    SettledLoss(s.matches, s.losses, (p1, p2, InsertFailed));
    SettledMatch(s.matches, s.losses, Match(p1, p2, s.requests[id].user));
  }

  lemma PlacesPair(s: State, id: nat, p1: Entry, p2: Entry, inserted: bool)
    requires id in s.requests
    ensures Places(Pair(s, id, p1, p2, inserted)) == Places(s) + multiset{p1, p2}
  {
    SettledPair(s, id, p1, p2, inserted);
  }

  lemma PlacesRequeue(s: State, id: nat, popped: seq<Entry>)
    requires id in s.requests
    ensures Places(Go(s, id, Queued).(queue := PushBack(popped, s.queue))) == Places(s) + multiset(popped)
  {
    PushBackKeeps(popped, s.queue);
  }

  lemma PlacesLetGo(s: State, k: nat)
    requires k < |s.hands|
    ensures Places(s) == Places(s.(hands := RemoveAt(s.hands, k))) + multiset(s.hands[k].popped)
  {
    InHandsRemove(s.hands, k);
  }

  lemma TwoOf(popped: seq<Entry>)
    requires |popped| == 2
    ensures multiset(popped) == multiset{popped[0], popped[1]}
  {
    assert popped == [popped[0], popped[1]];
  }

  lemma PlacesConclude(s: State, k: nat, inserted: bool)
    requires Enabled(s, Conclude(k, inserted)) && |s.hands[k].popped| <= 2
    ensures Places(OnConclude(s, k, inserted)) == Places(s)
  {
    var id, popped := s.hands[k].id, s.hands[k].popped;
    var s1 := s.(hands := RemoveAt(s.hands, k));
    ghost var before, without, after := Places(s), Places(s1), Places(OnConclude(s, k, inserted));
    assert before == without + multiset(popped) by {
      PlacesLetGo(s, k);
    }
    assert after == without + multiset(popped) by {
      if |popped| < 2 {
        PlacesRequeue(s1, id, popped);
      } else {
        PlacesPair(s1, id, popped[0], popped[1], inserted);
        TwoOf(popped);
      }
    }
  }

  lemma PlacesPush(s: State, id: nat, user: UserId)
    ensures Places(OnPush(s, id, user)) == Places(s) + multiset{Entry(id, user)}
  {
  }

  /** No step makes or destroys an entry. */
  lemma PlacesStep(s: State, e: Event)
    requires HandsSound(s) && Enabled(s, e)
    ensures Places(Step(s, e)) == Places(s) + if e.Push? then multiset{Entry(e.id, e.user)} else multiset{}
  {
    match e
    case Push(id, user) => PlacesPush(s, id, user);
    case Count(_) => assert Places(Step(s, e)) == Places(s);
    case Pop(id) => PlacesPop(s, id);
    case Conclude(k, inserted) => PlacesConclude(s, k, inserted);
  }

  lemma IdsStep(s: State, e: Event)
    requires IdsFresh(s) && HandsSound(s) && Enabled(s, e)
    ensures IdsFresh(Step(s, e))
  {
  }

  lemma HandsStep(s: State, e: Event)
    requires HandsSound(s) && Enabled(s, e)
    ensures HandsSound(Step(s, e))
  {
    var t := Step(s, e);
    assert t.requests.Keys >= s.requests.Keys;
    forall k | 0 <= k < |t.hands|
      ensures |t.hands[k].popped| <= 2 && t.hands[k].id in t.requests
    {
      assert t.hands[k] in s.hands || e.Pop?;
    }
  }

  lemma LossesStep(s: State, e: Event)
    requires LossesTrue(s) && Enabled(s, e)
    ensures LossesTrue(Step(s, e))
  {
  }

  lemma ConservedStep(s: State, e: Event)
    requires Conserved(s) && Enabled(s, e)
    ensures Conserved(Step(s, e))
  {
    IdsStep(s, e);
    HandsStep(s, e);
    LossesStep(s, e);
    PlacesStep(s, e);
    PushedStep(s, e);
  }

  lemma PushedStep(s: State, e: Event)
    requires Enabled(s, e)
    ensures multiset(Step(s, e).pushed)
            == multiset(s.pushed) + if e.Push? then multiset{Entry(e.id, e.user)} else multiset{}
  {
  }

  /** Under every interleaving each pushed entry is in exactly one place, once, and it is
      lost only to a same-user pair or a failed insert. */
  lemma {:induction false} NobodyLost(s: State, es: seq<Event>)
    requires Conserved(s) && CanRun(s, es)
    ensures Conserved(Run(s, es))
    decreases |es|
  {
    if es != [] {
      ConservedStep(s, es[0]);
      NobodyLost(Step(s, es[0]), es[1..]);
    }
  }

  lemma {:induction false} Once(es: seq<Entry>, i: nat)
    requires i < |es| && forall a, b :: 0 <= a < b < |es| ==> es[a].id != es[b].id
    ensures multiset(es)[es[i]] == 1
  {
    assert es == es[..i] + [es[i]] + es[i + 1..];
    assert es[i] !in es[..i] && es[i] !in es[i + 1..];
  }

  lemma ExactlyOnePlace(es: seq<Event>, i: nat)
    requires CanRun(Initial, es) && i < |Run(Initial, es).pushed|
    ensures var s := Run(Initial, es);
            var e := s.pushed[i];
            multiset(s.queue)[e] + InHands(s.hands)[e] + InMatches(s.matches)[e] + InLosses(s.losses)[e] == 1
  {
    NobodyLost(Initial, es);
    var s := Run(Initial, es);
    Once(s.pushed, i);
    assert Places(s)[s.pushed[i]] == 1;
  }

  // ---------------------------------------------------------------- one request at a time

  /** The request has been answered, one way or another. */
  predicate Done(p: Phase) {
    p.Queued? || p.Failed? || p.Answered?
  }

  ghost predicate Quiet(s: State) {
    s.hands == [] && forall id :: id in s.requests ==> Done(s.requests[id].phase)
  }

  /** No request begins before all earlier ones are done. Ids and users are arbitrary. */
  ghost predicate Serial(s: State, es: seq<Event>)
    requires CanRun(s, es)
    decreases |es|
  {
    es != [] ==> (es[0].Push? ==> Quiet(s)) && Serial(Step(s, es[0]), es[1..])
  }

  /** What became of the inserts, in order. */
  function Inserts(es: seq<Event>): seq<bool> {
    if es == [] then [] else Outcome(es[0]) + Inserts(es[1..])
  }

  function Outcome(e: Event): seq<bool> {
    if e.Conclude? then [e.inserted] else []
  }

  predicate Matched(pushed: seq<Entry>, k: nat, inserted: bool)
    requires 2 * k + 1 < |pushed|
  {
    pushed[2 * k].user != pushed[2 * k + 1].user && inserted
  }

  /** The matches that pairing arrivals 2k and 2k+1 must give, in order. */
  function Pairing(pushed: seq<Entry>, inserts: seq<bool>): seq<Match>
    requires 2 * |inserts| <= |pushed|
  {
    if inserts == [] then []
    else
      var k := |inserts| - 1;
      Pairing(pushed, inserts[..k])
      + if Matched(pushed, k, inserts[k]) then
          [Match(pushed[2 * k], pushed[2 * k + 1], pushed[2 * k + 1].user)]
        else []
  }

  /** How the k-th pair of requests was answered. */
  ghost predicate PairAnswered(s: State, inserts: seq<bool>, k: nat)
    requires k < |inserts| && 2 * |inserts| <= |s.pushed|
  {
    var first, second := s.pushed[2 * k].id, s.pushed[2 * k + 1].id;
    && first in s.requests && s.requests[first].phase == Queued
    && second in s.requests
    && s.requests[second].phase == if Matched(s.pushed, k, inserts[k]) then Answered else Failed
  }

  /** Where the latest request, of an odd or an even number of them, can be. */
  predicate AtStage(s: State, pairs: nat) {
    var n := |s.pushed|;
    n > 0 && s.pushed[n - 1].id in s.requests &&
    var last := s.pushed[n - 1];
    var phase := s.requests[last.id].phase;
    && s.requests[last.id].user == last.user
    && (n % 2 == 0 ==> s.pushed[n - 2].id in s.requests && s.requests[s.pushed[n - 2].id].phase == Queued)
    && if n % 2 == 1 then
         pairs == n / 2 && s.queue == [last] && s.hands == [] && (phase.Counting? || phase.Queued?)
       else if phase.Counting? || phase.Popping? then
         pairs == n / 2 - 1 && s.queue == [s.pushed[n - 2], last] && s.hands == []
       else if phase.Holding? then
         pairs == n / 2 - 1 && s.queue == [] && s.hands == [Hand(last.id, [s.pushed[n - 2], last])]
       else
         pairs == n / 2 && s.queue == [] && s.hands == [] && !phase.Queued?
  }

  /** All requests but the latest are done. */
  ghost predicate OthersDone(s: State) {
    forall id :: id in s.requests && (s.pushed == [] || id != s.pushed[|s.pushed| - 1].id)
      ==> s.pushed != [] && Done(s.requests[id].phase)
  }

  ghost predicate SerialState(s: State, inserts: seq<bool>) {
    && IdsFresh(s)
    && 2 * |inserts| <= |s.pushed|
    && s.matches == Pairing(s.pushed, inserts)
    && (forall k :: 0 <= k < |inserts| ==> PairAnswered(s, inserts, k))
    && OthersDone(s)
    && (if s.pushed == [] then s.queue == [] && s.hands == [] else AtStage(s, |inserts|))
  }

  lemma {:induction false} PairingPrefix(a: seq<Entry>, b: seq<Entry>, inserts: seq<bool>)
    requires 2 * |inserts| <= |a| && a <= b
    ensures Pairing(a, inserts) == Pairing(b, inserts)
  {
    if inserts != [] {
      PairingPrefix(a, b, inserts[..|inserts| - 1]);
    }
  }

  /** The earlier pairs stay answered as they were. */
  lemma PairsKept(s: State, t: State, inserts: seq<bool>)
    requires 2 * |inserts| <= |s.pushed| && s.pushed <= t.pushed
    requires forall k :: 0 <= k < |inserts| ==> PairAnswered(s, inserts, k)
    requires forall id :: id in s.requests && Done(s.requests[id].phase)
               ==> id in t.requests && t.requests[id] == s.requests[id]
    ensures forall k :: 0 <= k < |inserts| ==> PairAnswered(t, inserts, k)
  {
    forall k | 0 <= k < |inserts|
      ensures PairAnswered(t, inserts, k)
    {
      assert PairAnswered(s, inserts, k);
    }
  }

  lemma PushFresh(s: State, id: nat, user: UserId)
    requires IdsFresh(s) && id !in s.requests
    ensures IdsFresh(OnPush(s, id, user))
  {
  }

  /** The new request counts next, and the one before it, if it is the first of a pair, waits. */
  lemma PushStage(s: State, id: nat, user: UserId, inserts: seq<bool>)
    requires SerialState(s, inserts) && Quiet(s) && id !in s.requests
    ensures AtStage(OnPush(s, id, user), |inserts|) && OthersDone(OnPush(s, id, user))
  {
    var t := OnPush(s, id, user);
    assert t.pushed[|s.pushed|] == Entry(id, user);
    if s.pushed != [] {
      assert t.pushed[|s.pushed| - 1] == s.pushed[|s.pushed| - 1];
    }
  }

  lemma SerialPush(s: State, id: nat, user: UserId, inserts: seq<bool>)
    requires SerialState(s, inserts) && Quiet(s) && id !in s.requests
    ensures SerialState(OnPush(s, id, user), inserts)
  {
    var t := OnPush(s, id, user);
    PushFresh(s, id, user);
    PushStage(s, id, user, inserts);
    PairsKept(s, t, inserts);
    PairingPrefix(s.pushed, t.pushed, inserts);
  }

  /** A request that is not done is the latest one. */
  lemma OnlyLatest(s: State, inserts: seq<bool>, id: nat)
    requires SerialState(s, inserts) && id in s.requests && !Done(s.requests[id].phase)
    ensures s.pushed != [] && id == s.pushed[|s.pushed| - 1].id
  {
  }

  lemma SerialCount(s: State, id: nat, inserts: seq<bool>)
    requires SerialState(s, inserts) && Enabled(s, Count(id))
    ensures SerialState(OnCount(s, id), inserts)
  {
    OnlyLatest(s, inserts, id);
    PairsKept(s, OnCount(s, id), inserts);
  }

  lemma SerialPop(s: State, id: nat, inserts: seq<bool>)
    requires SerialState(s, inserts) && Enabled(s, Pop(id))
    ensures SerialState(OnPop(s, id), inserts)
  {
    OnlyLatest(s, inserts, id);
    assert s.queue[..2] == s.queue;
    PairsKept(s, OnPop(s, id), inserts);
  }

  /** The latest request holds its own entry and the one before. */
  ghost predicate HoldsPair(s: State, inserts: seq<bool>) {
    var n := |s.pushed|;
    && n >= 2 && n == 2 * |inserts| + 2
    && s.pushed[n - 2].id in s.requests && s.requests[s.pushed[n - 2].id].phase == Queued
    && s.pushed[n - 1].id in s.requests && s.requests[s.pushed[n - 1].id].user == s.pushed[n - 1].user
    && s.queue == []
  }

  lemma SerialHand(s: State, k: nat, inserted: bool, inserts: seq<bool>)
    requires SerialState(s, inserts) && Enabled(s, Conclude(k, inserted))
    ensures HoldsPair(s, inserts)
    ensures var n := |s.pushed|;
            OnConclude(s, k, inserted)
            == Pair(s.(hands := []), s.pushed[n - 1].id, s.pushed[n - 2], s.pushed[n - 1], inserted)
  {
    assert k == 0 && RemoveAt(s.hands, 0) == [];
  }

  lemma LatestPairAnswered(s: State, inserts: seq<bool>, inserted: bool)
    requires IdsFresh(s) && HoldsPair(s, inserts) && s.matches == Pairing(s.pushed, inserts)
    ensures var n, more := |s.pushed|, inserts + [inserted];
            var t := Pair(s, s.pushed[n - 1].id, s.pushed[n - 2], s.pushed[n - 1], inserted);
            && PairAnswered(t, more, |inserts|)
            && t.matches == Pairing(t.pushed, more)
  {
    assert (inserts + [inserted])[..|inserts|] == inserts;
    assert s.pushed[|s.pushed| - 2].id != s.pushed[|s.pushed| - 1].id;
  }

  /** Only the latest request moved on, to an answer or a failure. */
  ghost predicate LatestAnswered(s: State, t: State) {
    s.pushed != [] &&
    var id := s.pushed[|s.pushed| - 1].id;
    && id in s.requests
    && t.pushed == s.pushed && t.queue == [] && t.hands == []
    && t.requests.Keys == s.requests.Keys
    && (forall i :: i in s.requests && i != id ==> t.requests[i] == s.requests[i])
    && t.requests[id].user == s.requests[id].user
    && (t.requests[id].phase == Failed || t.requests[id].phase == Answered)
  }

  lemma PairAnswers(s: State, inserts: seq<bool>, inserted: bool)
    requires HoldsPair(s, inserts)
    ensures var n := |s.pushed|;
            LatestAnswered(s, Pair(s.(hands := []), s.pushed[n - 1].id, s.pushed[n - 2], s.pushed[n - 1], inserted))
  {
  }

  lemma PairsExtended(s: State, t: State, inserts: seq<bool>, inserted: bool)
    requires SerialState(s, inserts) && HoldsPair(s, inserts) && LatestAnswered(s, t)
    requires PairAnswered(t, inserts + [inserted], |inserts|)
    ensures forall j :: 0 <= j <= |inserts| ==> PairAnswered(t, inserts + [inserted], j)
  {
    forall j | 0 <= j < |inserts|
      ensures PairAnswered(t, inserts + [inserted], j)
    {
      assert PairAnswered(s, inserts, j);
      assert s.pushed[2 * j].id != s.pushed[|s.pushed| - 1].id;
      assert s.pushed[2 * j + 1].id != s.pushed[|s.pushed| - 1].id;
    }
  }

  lemma ConcludedStage(s: State, t: State, inserts: seq<bool>, inserted: bool)
    requires SerialState(s, inserts) && HoldsPair(s, inserts) && LatestAnswered(s, t)
    ensures IdsFresh(t) && OthersDone(t) && AtStage(t, |inserts + [inserted]|)
  {
    assert s.pushed[|s.pushed| - 2].id != s.pushed[|s.pushed| - 1].id;
  }

  lemma SerialConclude(s: State, k: nat, inserted: bool, inserts: seq<bool>)
    requires SerialState(s, inserts) && Enabled(s, Conclude(k, inserted))
    ensures SerialState(OnConclude(s, k, inserted), inserts + [inserted])
  {
    var t := OnConclude(s, k, inserted);
    SerialHand(s, k, inserted, inserts);
    LatestPairAnswered(s.(hands := []), inserts, inserted);
    PairAnswers(s, inserts, inserted);
    PairsExtended(s, t, inserts, inserted);
    ConcludedStage(s, t, inserts, inserted);
  }

  lemma SerialStep(s: State, e: Event, inserts: seq<bool>)
    requires SerialState(s, inserts) && Enabled(s, e) && (e.Push? ==> Quiet(s))
    ensures SerialState(Step(s, e), inserts + Outcome(e))
  {
    assert inserts + [] == inserts;
    match e
    case Push(id, user) => SerialPush(s, id, user, inserts);
    case Count(id) => SerialCount(s, id, inserts);
    case Pop(id) => SerialPop(s, id, inserts);
    case Conclude(k, inserted) => SerialConclude(s, k, inserted, inserts);
  }

  lemma {:induction false} SerialFrom(s: State, es: seq<Event>, inserts: seq<bool>)
    requires SerialState(s, inserts) && CanRun(s, es) && Serial(s, es)
    ensures SerialState(Run(s, es), inserts + Inserts(es))
    decreases |es|
  {
    if es == [] {
      assert inserts + [] == inserts;
    } else {
      SerialStep(s, es[0], inserts);
      Regroup(inserts, Outcome(es[0]), Inserts(es[1..]));
      SerialFrom(Step(s, es[0]), es[1..], inserts + Outcome(es[0]));
    }
  }

  lemma Regroup(a: seq<bool>, b: seq<bool>, c: seq<bool>)
    ensures (a + b) + c == a + (b + c)
  {
  }

  /** On every serial run from an empty queue: arrivals 2k and 2k+1 become white and black of
      a match unless they are one user or the insert fails, the first of them was told to
      wait and the second was answered, and between requests at most one entry waits. */
  lemma SerialPairing(es: seq<Event>)
    requires CanRun(Initial, es) && Serial(Initial, es)
    ensures SerialState(Run(Initial, es), Inserts(es))
    ensures var s := Run(Initial, es); Quiet(s) ==> AllPaired(s, Inserts(es))
  {
    SerialFrom(Initial, es, []);
    assert [] + Inserts(es) == Inserts(es);
    if Quiet(Run(Initial, es)) {
      QuietIsPaired(Run(Initial, es), Inserts(es));
    }
  }

  predicate AllPaired(s: State, inserts: seq<bool>) {
    |inserts| == |s.pushed| / 2 && s.queue == s.pushed[2 * |inserts|..] && |s.queue| <= 1
  }

  lemma QuietIsPaired(s: State, inserts: seq<bool>)
    requires SerialState(s, inserts) && Quiet(s)
    ensures AllPaired(s, inserts)
  {
  }

  /** Serial service never gets stuck: a request that is not done has a next step. */
  lemma SerialGoesOn(s: State, inserts: seq<bool>)
    requires SerialState(s, inserts)
    ensures Quiet(s) <==> forall e :: Enabled(s, e) ==> e.Push?
  {
    if !Quiet(s) {
      var last := s.pushed[|s.pushed| - 1].id;
      assert Enabled(s, Count(last)) || Enabled(s, Pop(last)) || Enabled(s, Conclude(0, true));
    }
  }

  // ---------------------------------------------------------------- who gets the tickets

  function Other(m: Match): UserId {
    OtherUser(m.white, m.black, m.requester)
  }

  /** The users the two tickets of a match are made out to. */
  function TicketUsers(m: Match): multiset<UserId> {
    multiset{m.requester, Other(m)}
  }

  /** The tickets name exactly the two players just when the requester is one of them. */
  lemma TicketsNamePlayers(m: Match)
    requires m.white.user != m.black.user
    ensures TicketUsers(m) == multiset{m.white.user, m.black.user}
            <==> m.requester == m.white.user || m.requester == m.black.user
  {
  }

  /** The Redis keys: each match left a ticket for its other player, and a user's key names
      the latest match that did. */
  ghost predicate TicketsHeld(ms: seq<Match>, tickets: map<UserId, nat>) {
    && (forall i :: 0 <= i < |ms| ==> Other(ms[i]) in tickets && tickets[Other(ms[i])] >= i)
    && forall u :: u in tickets ==> tickets[u] < |ms| && Other(ms[tickets[u]]) == u
  }

  lemma {:induction false} TicketsAlwaysHeld(s: State, es: seq<Event>)
    requires TicketsHeld(s.matches, s.tickets) && CanRun(s, es)
    ensures TicketsHeld(Run(s, es).matches, Run(s, es).tickets)
    decreases |es|
  {
    if es != [] {
      TicketsAlwaysHeld(Step(s, es[0]), es[1..]);
    }
  }

  lemma {:induction false} PairingPlayers(pushed: seq<Entry>, inserts: seq<bool>, i: nat)
    requires 2 * |inserts| <= |pushed| && i < |Pairing(pushed, inserts)|
    ensures var m := Pairing(pushed, inserts)[i];
            m.requester == m.black.user && Other(m) == m.white.user && m.white.user != m.black.user
  {
    if i < |Pairing(pushed, inserts[..|inserts| - 1])| {
      PairingPlayers(pushed, inserts[..|inserts| - 1], i);
    }
  }

  /** On every serial run the requester of a match plays black and is handed its ticket, and
      the stored ticket is white's: white's key names that match, or a later one in which
      the same user is white again. */
  lemma SerialTickets(es: seq<Event>, i: nat)
    requires CanRun(Initial, es) && Serial(Initial, es) && i < |Run(Initial, es).matches|
    ensures var s := Run(Initial, es);
            var m := s.matches[i];
            && m.requester == m.black.user
            && TicketUsers(m) == multiset{m.white.user, m.black.user}
            && m.white.user in s.tickets && i <= s.tickets[m.white.user] < |s.matches|
            && s.matches[s.tickets[m.white.user]].white.user == m.white.user
  {
    var s := Run(Initial, es);
    SerialPairing(es);
    TicketsAlwaysHeld(Initial, es);
    PairingPlayers(s.pushed, Inserts(es), i);
    PairingPlayers(s.pushed, Inserts(es), s.tickets[s.matches[i].white.user]);
  }

  // ---------------------------------------------------------------- requests that interleave

  /** The k-th pair of arrivals. */
  predicate PairAt(pushed: seq<Entry>, k: nat, a: Entry, b: Entry) {
    2 * k + 1 < |pushed| && a == pushed[2 * k] && b == pushed[2 * k + 1]
  }

  ghost predicate Consecutive(pushed: seq<Entry>, a: Entry, b: Entry) {
    exists k: nat :: PairAt(pushed, k, a, b)
  }

  /** How many requests hold two entries. */
  function PairsHeld(hs: seq<Hand>): nat {
    if hs == [] then 0 else PairsHeld(hs[..|hs| - 1]) + if |hs[|hs| - 1].popped| == 2 then 1 else 0
  }

  lemma PairsHeldAdd(hs: seq<Hand>, h: Hand)
    ensures PairsHeld(hs + [h]) == PairsHeld(hs) + if |h.popped| == 2 then 1 else 0
  {
    assert (hs + [h])[..|hs|] == hs;
  }

  lemma {:induction false} PairsHeldRemove(hs: seq<Hand>, k: nat)
    requires k < |hs|
    ensures PairsHeld(RemoveAt(hs, k)) == PairsHeld(hs) - if |hs[k].popped| == 2 then 1 else 0
  {
    var n := |hs| - 1;
    if k < n {
      assert RemoveAt(hs, k)[..n - 1] == RemoveAt(hs[..n], k);
      PairsHeldRemove(hs[..n], k);
    } else {
      assert RemoveAt(hs, k) == hs[..n];
    }
  }

  ghost predicate HandInOrder(pushed: seq<Entry>, h: Hand) {
    h.popped == [] || (|h.popped| == 2 && Consecutive(pushed, h.popped[0], h.popped[1]))
  }

  /** Every pair taken so far, held, matched or lost, is of consecutive arrivals, and the queue
      is the arrivals after them. */
  ghost predicate PairsInOrder(s: State) {
    && (forall k :: 0 <= k < |s.hands| ==> HandInOrder(s.pushed, s.hands[k]))
    && (forall k :: 0 <= k < |s.matches| ==> Consecutive(s.pushed, s.matches[k].white, s.matches[k].black))
    && (forall k :: 0 <= k < |s.losses| ==> Consecutive(s.pushed, s.losses[k].0, s.losses[k].1))
  }

  function PairsTaken(s: State): nat {
    PairsHeld(s.hands) + |s.matches| + |s.losses|
  }

  ghost predicate InOrder(s: State) {
    && PairsInOrder(s)
    && 2 * PairsTaken(s) <= |s.pushed|
    && s.queue == s.pushed[2 * PairsTaken(s)..]
  }

  lemma StillConsecutive(pushed: seq<Entry>, more: seq<Entry>, a: Entry, b: Entry)
    requires pushed <= more && Consecutive(pushed, a, b)
    ensures Consecutive(more, a, b)
  {
    var k: nat :| PairAt(pushed, k, a, b);
    assert PairAt(more, k, a, b);
  }

  lemma OrderPush(s: State, id: nat, user: UserId)
    requires InOrder(s)
    ensures InOrder(OnPush(s, id, user))
  {
    var t := OnPush(s, id, user);
    forall k | 0 <= k < |t.hands|
      ensures HandInOrder(t.pushed, t.hands[k])
    {
      assert HandInOrder(s.pushed, s.hands[k]);
      if t.hands[k].popped != [] {
        StillConsecutive(s.pushed, t.pushed, t.hands[k].popped[0], t.hands[k].popped[1]);
      }
    }
    forall k | 0 <= k < |t.matches|
      ensures Consecutive(t.pushed, t.matches[k].white, t.matches[k].black)
    {
      StillConsecutive(s.pushed, t.pushed, t.matches[k].white, t.matches[k].black);
    }
    forall k | 0 <= k < |t.losses|
      ensures Consecutive(t.pushed, t.losses[k].0, t.losses[k].1)
    {
      StillConsecutive(s.pushed, t.pushed, t.losses[k].0, t.losses[k].1);
    }
  }

  /** An LPOP keeps the order exactly when it does not come back with a single entry. */
  lemma OrderPop(s: State, id: nat)
    requires InOrder(s) && id in s.requests
    ensures InOrder(OnPop(s, id)) <==> |s.queue| != 1
  {
    var t := OnPop(s, id);
    var h := t.hands[|s.hands|];
    PairsHeldAdd(s.hands, h);
    assert t.hands == s.hands + [h];
    if |s.queue| >= 2 {
      assert PairAt(s.pushed, PairsTaken(s), h.popped[0], h.popped[1]);
    }
    if |s.queue| == 1 {
      assert !HandInOrder(t.pushed, h);
    } else {
      forall k | 0 <= k < |t.hands|
        ensures HandInOrder(t.pushed, t.hands[k])
      {
        assert k < |s.hands| ==> HandInOrder(s.pushed, s.hands[k]);
      }
    }
  }

  lemma OrderPair(s: State, id: nat, p1: Entry, p2: Entry, inserted: bool)
    requires PairsInOrder(s) && id in s.requests && Consecutive(s.pushed, p1, p2)
    ensures var t := Pair(s, id, p1, p2, inserted);
            && PairsInOrder(t) && PairsTaken(t) == PairsTaken(s) + 1
            && t.pushed == s.pushed && t.queue == s.queue
  {
  }

  lemma OrderLetGo(s: State, k: nat)
    requires PairsInOrder(s) && k < |s.hands|
    ensures var t := s.(hands := RemoveAt(s.hands, k));
            && PairsInOrder(t)
            && PairsTaken(t) == PairsTaken(s) - if |s.hands[k].popped| == 2 then 1 else 0
  {
    var t := s.(hands := RemoveAt(s.hands, k));
    PairsHeldRemove(s.hands, k);
    forall j | 0 <= j < |t.hands|
      ensures HandInOrder(t.pushed, t.hands[j])
    {
      assert HandInOrder(s.pushed, s.hands[if j < k then j else j + 1]);
    }
  }

  lemma OrderConclude(s: State, k: nat, inserted: bool)
    requires InOrder(s) && Enabled(s, Conclude(k, inserted))
    ensures InOrder(OnConclude(s, k, inserted))
  {
    var id, popped := s.hands[k].id, s.hands[k].popped;
    var s1 := s.(hands := RemoveAt(s.hands, k));
    OrderLetGo(s, k);
    assert HandInOrder(s.pushed, s.hands[k]);
    if popped == [] {
      assert OnConclude(s, k, inserted) == Go(s1, id, Queued);
    } else {
      OrderPair(s1, id, popped[0], popped[1], inserted);
    }
  }

  /** One step keeps the pairs in order of arrival exactly when it is no LPOP of one entry. */
  lemma OrderStep(s: State, e: Event)
    requires InOrder(s) && Enabled(s, e)
    ensures InOrder(Step(s, e)) <==> !(e.Pop? && |s.queue| == 1)
  {
    match e
    case Push(id, user) => OrderPush(s, id, user);
    case Count(_) =>
    case Pop(id) => OrderPop(s, id);
    case Conclude(k, inserted) => OrderConclude(s, k, inserted);
  }

  /** No LPOP along the run comes back with a single entry. */
  ghost predicate NoSinglePop(s: State, es: seq<Event>)
    requires CanRun(s, es)
    decreases |es|
  {
    es != [] ==> !(es[0].Pop? && |s.queue| == 1) && NoSinglePop(Step(s, es[0]), es[1..])
  }

  ghost predicate InOrderThroughout(s: State, es: seq<Event>)
    requires CanRun(s, es)
    decreases |es|
  {
    InOrder(s) && (es != [] ==> InOrderThroughout(Step(s, es[0]), es[1..]))
  }

  /** However requests interleave: all along a run consecutive arrivals are paired, exactly
      when no LPOP comes back with a single entry. */
  lemma {:induction false} PairsStayInOrder(s: State, es: seq<Event>)
    requires InOrder(s) && CanRun(s, es)
    ensures InOrderThroughout(s, es) <==> NoSinglePop(s, es)
    decreases |es|
  {
    if es != [] {
      OrderStep(s, es[0]);
      if InOrder(Step(s, es[0])) {
        PairsStayInOrder(Step(s, es[0]), es[1..]);
      } else {
        NotInOrder(Step(s, es[0]), es[1..]);
      }
    }
  }

  lemma NotInOrder(s: State, es: seq<Event>)
    requires !InOrder(s) && CanRun(s, es)
    ensures !InOrderThroughout(s, es)
  {
  }

  // ---------------------------------------------------------------- requesters that play

  predicate Plays(user: UserId, a: Entry, b: Entry) {
    a.user == b.user || user == a.user || user == b.user
  }

  /** Whoever holds two entries of different users, or made a match of them, is one of the two. */
  ghost predicate RequestersPlay(s: State) {
    && (forall k :: 0 <= k < |s.matches| ==> Plays(s.matches[k].requester, s.matches[k].white, s.matches[k].black))
    && forall k :: 0 <= k < |s.hands| && |s.hands[k].popped| == 2 ==>
         && s.hands[k].id in s.requests
         && Plays(s.requests[s.hands[k].id].user, s.hands[k].popped[0], s.hands[k].popped[1])
  }

  /** The request finds itself among the two entries it is about to take, if they are two and
      of different users. */
  predicate FindsItself(s: State, e: Event)
    requires Enabled(s, e)
  {
    e.Pop? && |s.queue| >= 2 ==> Plays(s.requests[e.id].user, s.queue[0], s.queue[1])
  }

  lemma PlayPop(s: State, id: nat)
    requires RequestersPlay(s) && HandsSound(s) && Enabled(s, Pop(id))
    ensures RequestersPlay(OnPop(s, id)) <==> FindsItself(s, Pop(id))
  {
    var t := OnPop(s, id);
    var h := t.hands[|s.hands|];
    assert |s.queue| >= 2 ==> h.popped[0] == s.queue[0] && h.popped[1] == s.queue[1];
    forall k | 0 <= k < |s.hands|
      ensures t.hands[k] == s.hands[k] && t.requests[s.hands[k].id].user == s.requests[s.hands[k].id].user
    {
    }
  }

  lemma PlayConclude(s: State, k: nat, inserted: bool)
    requires RequestersPlay(s) && HandsSound(s) && Enabled(s, Conclude(k, inserted))
    ensures RequestersPlay(OnConclude(s, k, inserted))
  {
    var t := OnConclude(s, k, inserted);
    forall j | 0 <= j < |t.hands| && |t.hands[j].popped| == 2
      ensures t.hands[j].id in t.requests
      ensures Plays(t.requests[t.hands[j].id].user, t.hands[j].popped[0], t.hands[j].popped[1])
    {
      assert t.hands[j] == s.hands[if j < k then j else j + 1];
    }
  }

  lemma PlayStep(s: State, e: Event)
    requires RequestersPlay(s) && HandsSound(s) && Enabled(s, e)
    ensures RequestersPlay(Step(s, e)) <==> FindsItself(s, e)
  {
    match e
    case Push(_, _) =>
    case Count(_) =>
    case Pop(id) => PlayPop(s, id);
    case Conclude(k, inserted) => PlayConclude(s, k, inserted);
  }

  ghost predicate AllFindThemselves(s: State, es: seq<Event>)
    requires CanRun(s, es)
    decreases |es|
  {
    es != [] ==> FindsItself(s, es[0]) && AllFindThemselves(Step(s, es[0]), es[1..])
  }

  ghost predicate PlayThroughout(s: State, es: seq<Event>)
    requires CanRun(s, es)
    decreases |es|
  {
    RequestersPlay(s) && (es != [] ==> PlayThroughout(Step(s, es[0]), es[1..]))
  }

  /** However requests interleave: all along a run every requester is a player of the match it
      makes or is about to make, exactly when every LPOP of two gives a request its own user. */
  lemma {:induction false} RequestersArePlayers(s: State, es: seq<Event>)
    requires RequestersPlay(s) && HandsSound(s) && CanRun(s, es)
    ensures PlayThroughout(s, es) <==> AllFindThemselves(s, es)
    decreases |es|
  {
    if es != [] {
      PlayStep(s, es[0]);
      HandsStep(s, es[0]);
      if RequestersPlay(Step(s, es[0])) {
        RequestersArePlayers(Step(s, es[0]), es[1..]);
      } else {
        NotPlaying(Step(s, es[0]), es[1..]);
      }
    }
  }

  lemma NotPlaying(s: State, es: seq<Event>)
    requires !RequestersPlay(s) && CanRun(s, es)
    ensures !PlayThroughout(s, es)
  {
  }

  lemma {:induction false} PlayAtTheEnd(s: State, es: seq<Event>)
    requires CanRun(s, es) && PlayThroughout(s, es)
    ensures RequestersPlay(Run(s, es))
    decreases |es|
  {
    if es != [] {
      PlayAtTheEnd(Step(s, es[0]), es[1..]);
    }
  }

  /** Then the two tickets of every match name its two players. */
  lemma TicketsRight(es: seq<Event>, i: nat)
    requires CanRun(Initial, es) && AllFindThemselves(Initial, es) && i < |Run(Initial, es).matches|
    ensures var m := Run(Initial, es).matches[i];
            TicketUsers(m) == multiset{m.white.user, m.black.user}
  {
    RequestersArePlayers(Initial, es);
    PlayAtTheEnd(Initial, es);
    NobodyLost(Initial, es);
    var m := Run(Initial, es).matches[i];
    assert Plays(m.requester, m.white, m.black);
    TicketsNamePlayers(m);
  }

  /** When requests interleave the hypothesis is needed: three arrivals before the first
      count, and the third gets a ticket for a match between the first two, one of whom
      gets none. */
  lemma InterleavedTickets()
    ensures var es := [Push(0, 10), Push(1, 20), Push(2, 30), Count(2), Pop(2), Conclude(0, true)];
            && CanRun(Initial, es)
            && Run(Initial, es).matches == [Match(Entry(0, 10), Entry(1, 20), 30)]
            && TicketUsers(Run(Initial, es).matches[0]) == multiset{30, 10}
            && Run(Initial, es).tickets == map[10 := 0]
  {
    var waiting := [Entry(0, 10), Entry(1, 20), Entry(2, 30)];
    var s3 := Step(Step(Step(Initial, Push(0, 10)), Push(1, 20)), Push(2, 30));
    assert s3.queue == waiting;
    var s5 := Step(Step(s3, Count(2)), Pop(2));
    assert s5.hands == [Hand(2, waiting[..2])];
  }

  // ---------------------------------------------------------------- the endpoint as an object

  /** The Redis list and the requests in flight; each method runs from one await to the next. */
  class Matchmaker {
    var queue: seq<Entry>
    var requests: map<nat, Request>
    var hands: seq<Hand>
    var matches: seq<Match>
    var losses: seq<(Entry, Entry, Loss)>
    var tickets: map<UserId, nat>
    ghost var pushed: seq<Entry>

    ghost function View(): State
      reads this
    {
      State(queue, requests, hands, pushed, matches, losses, tickets)
    }

    constructor ()
      ensures View() == Initial
    {
      queue, requests, hands := [], map[], [];
      matches, losses, tickets := [], [], map[];
      pushed := [];
    }

    method SetPhase(id: nat, phase: Phase)
      requires id in requests
      modifies this`requests
      ensures View() == Go(old(View()), id, phase)
    {
      requests := requests[id := requests[id].(phase := phase)];
    }

    /** The request enters the queue. */
    method CreateRequest(id: nat, user: UserId)
      requires id !in requests
      modifies this
      ensures View() == Step(old(View()), Push(id, user))
    {
      requests := requests[id := Request(user, Counting)];
      queue := queue + [Entry(id, user)];
      pushed := pushed + [Entry(id, user)];
    }

    method ReadLength(id: nat) returns (position: nat)
      requires Enabled(View(), Count(id))
      modifies this
      ensures position == |queue| && View() == Step(old(View()), Count(id))
    {
      position := |queue|;
      if position < 2 {
        SetPhase(id, Queued);
      } else {
        SetPhase(id, Popping);
      }
    }

    method PopTwo(id: nat)
      requires Enabled(View(), Pop(id))
      modifies this
      ensures View() == Step(old(View()), Pop(id))
    {
      var n := if |queue| < 2 then |queue| else 2;
      hands := hands + [Hand(id, queue[..n])];
      queue := queue[n..];
      SetPhase(id, Holding);
    }

    /** The defensive requeue. */
    method Requeue(popped: seq<Entry>)
      modifies this`queue
      ensures queue == PushBack(popped, old(queue))
    {
      var i := 0;
      while i < |popped|
        invariant 0 <= i <= |popped|
        invariant PushBack(popped[i..], queue) == PushBack(popped, old(queue))
      {
        queue := [popped[i]] + queue;
        i := i + 1;
      }
    }

    method FinishRequest(k: nat, inserted: bool)
      requires Enabled(View(), Conclude(k, inserted))
      modifies this
      ensures View() == Step(old(View()), Conclude(k, inserted))
    {
      var id, popped := hands[k].id, hands[k].popped;
      hands := RemoveAt(hands, k);
      if |popped| < 2 {
        Requeue(popped);
        SetPhase(id, Queued);
        return;
      }
      CreateMatch(id, popped[0], popped[1], inserted);
    }

    method CreateMatch(id: nat, p1: Entry, p2: Entry, inserted: bool)
      requires id in requests
      modifies this
      ensures View() == Pair(old(View()), id, p1, p2, inserted)
    {
      var user := requests[id].user;
      if p1.user == p2.user {
        losses := losses + [(p1, p2, SameUser)];
        SetPhase(id, Failed);
      } else if !inserted {
        losses := losses + [(p1, p2, InsertFailed)];
        SetPhase(id, Failed);
      } else {
        var other := if p1.user == user then p2.user else p1.user;
        tickets := tickets[other := |matches|];
        matches := matches + [Match(p1, p2, user)];
        SetPhase(id, Answered);
      }
    }

    method Perform(e: Event)
      requires Enabled(View(), e)
      modifies this
      ensures View() == Step(old(View()), e)
    {
      match e {
        case Push(id, user) => CreateRequest(id, user);
        case Count(id) => var _ := ReadLength(id);
        case Pop(id) => PopTwo(id);
        case Conclude(k, inserted) => FinishRequest(k, inserted);
      }
    }
  }

  /** A queue that lives through a run ends in the state the run ends in. */
  method Live(es: seq<Event>) returns (queue: Matchmaker)
    requires CanRun(Initial, es)
    ensures queue.View() == Run(Initial, es)
  {
    queue := new Matchmaker();
    var n := 0;
    while n < |es|
      invariant 0 <= n <= |es| && fresh(queue)
      invariant CanRun(queue.View(), es[n..]) && Run(queue.View(), es[n..]) == Run(Initial, es)
    {
      assert es[n..][1..] == es[n + 1..];
      queue.Perform(es[n]);
      n := n + 1;
    }
  }
}
