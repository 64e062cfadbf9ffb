/** Refresh-token rotation: the rows of the token table under sign-in, refresh and logout,
    each taken as one transaction. A row is found by the hash of its token; hashes and
    signatures are taken to be without collisions and forgeries, so a token is its id. */
module RefreshTokens {
  import opened Wrappers

  type UserId = nat
  type TokenId = nat

  /** `parent` is the row this one was refreshed from, and none for a sign-in. */
  datatype Row = Row(id: TokenId, user: UserId, expires: int, revoked: Option<int>, parent: Option<nat>)

  /** What a client presents. `genuine`: signed by us, unexpired, and of the refresh type. */
  datatype Token = Token(id: TokenId, subject: UserId, genuine: bool)

  datatype Event =
    | SignIn(user: UserId, id: TokenId, expires: int)
    | Refresh(token: Token, now: int, newId: TokenId, newExpires: int)
    | Logout(id: TokenId, now: int)

  /** The row of a token. */
  function Find(rows: seq<Row>, id: TokenId): (r: Option<nat>)
    ensures r.Some? ==> r.value < |rows| && rows[r.value].id == id
    ensures r.None? ==> forall i :: 0 <= i < |rows| ==> rows[i].id != id
  {
    if rows == [] then None
    else if rows[|rows| - 1].id == id then Some(|rows| - 1)
    else Find(rows[..|rows| - 1], id)
  }

  /** Fresh ids are fresh, and a genuine token names the user of its row. */
  predicate Enabled(rows: seq<Row>, e: Event) {
    match e
    case SignIn(_, id, _) => Find(rows, id).None?
    case Refresh(token, _, newId, _) =>
      && Find(rows, newId).None?
      && (token.genuine && Find(rows, token.id).Some? ==> rows[Find(rows, token.id).value].user == token.subject)
    case Logout(_, _) => true
  }

  /** The SELECT of `refresh`: known, not revoked, not expired. */
  predicate Usable(rows: seq<Row>, id: TokenId, now: int) {
    var i := Find(rows, id);
    i.Some? && rows[i.value].revoked.None? && rows[i.value].expires > now
  }

  predicate Accepts(rows: seq<Row>, token: Token, now: int) {
    token.genuine && Usable(rows, token.id, now)
  }

  /** The UPDATE and the INSERT of `refresh`. */
  function Rotate(rows: seq<Row>, i: nat, subject: UserId, now: int, newId: TokenId, newExpires: int): seq<Row>
    requires i < |rows|
  {
    rows[i := rows[i].(revoked := Some(now))] + [Row(newId, subject, newExpires, None, Some(i))]
  }

  function Step(rows: seq<Row>, e: Event): seq<Row>
    requires Enabled(rows, e)
  {
    match e
    case SignIn(user, id, expires) => rows + [Row(id, user, expires, None, None)]
    case Refresh(token, now, newId, newExpires) =>
      if Accepts(rows, token, now) then
        Rotate(rows, Find(rows, token.id).value, token.subject, now, newId, newExpires)
      else rows
    case Logout(id, now) =>
      var i := Find(rows, id);
      if i.Some? then rows[i.value := rows[i.value].(revoked := Some(now))] else rows
  }

  predicate CanRun(rows: seq<Row>, es: seq<Event>)
    decreases |es|
  {
    es == [] || (Enabled(rows, es[0]) && CanRun(Step(rows, es[0]), es[1..]))
  }

  function Run(rows: seq<Row>, es: seq<Event>): seq<Row>
    requires CanRun(rows, es)
    decreases |es|
  {
    if es == [] then rows else Run(Step(rows, es[0]), es[1..])
  }

  // ---------------------------------------------------------------- chains

  ghost predicate IdsDistinct(rows: seq<Row>) {
    forall i, j :: 0 <= i < j < |rows| ==> rows[i].id != rows[j].id
  }

  /** A refreshed row is older, revoked, of the same user, and refreshed only once. */
  ghost predicate ParentsSound(rows: seq<Row>) {
    && (forall i :: 0 <= i < |rows| && rows[i].parent.Some? ==>
          && rows[i].parent.value < i
          && rows[rows[i].parent.value].user == rows[i].user
          && rows[rows[i].parent.value].revoked.Some?)
    && forall i, j :: 0 <= i < j < |rows| && rows[i].parent.Some? ==> rows[i].parent != rows[j].parent
  }

  ghost predicate Backward(rows: seq<Row>) {
    forall i :: 0 <= i < |rows| && rows[i].parent.Some? ==> rows[i].parent.value < i
  }

  /** The sign-in a row descends from. */
  ghost function Root(rows: seq<Row>, i: nat): (r: nat)
    requires Backward(rows) && i < |rows|
    ensures r <= i && rows[r].parent.None?
    decreases i
  {
    if rows[i].parent.None? then i else Root(rows, rows[i].parent.value)
  }

  lemma {:induction false} RootUser(rows: seq<Row>, i: nat)
    requires ParentsSound(rows) && i < |rows|
    ensures Backward(rows) && rows[Root(rows, i)].user == rows[i].user
    decreases i
  {
    if rows[i].parent.Some? {
      RootUser(rows, rows[i].parent.value);
    }
  }

  /** Roots depend on the parent links only, and later rows do not matter. */
  lemma {:induction false} RootSame(a: seq<Row>, b: seq<Row>, i: nat)
    requires Backward(a) && Backward(b) && i < |a| <= |b|
    requires forall k :: 0 <= k < |a| ==> a[k].parent == b[k].parent
    ensures Root(a, i) == Root(b, i)
    decreases i
  {
    if a[i].parent.Some? {
      RootSame(a, b, a[i].parent.value);
    }
  }

  /** The row was not refreshed: it is the last of its chain. */
  ghost predicate Tip(rows: seq<Row>, i: nat) {
    forall k :: 0 <= k < |rows| ==> rows[k].parent != Some(i)
  }

  /** No two chains, and no two ends of one, descend from the same sign-in. */
  ghost predicate TipsApart(rows: seq<Row>)
    requires Backward(rows)
  {
    forall i, j :: 0 <= i < j < |rows| && Tip(rows, i) && Tip(rows, j) ==> Root(rows, i) != Root(rows, j)
  }

  ghost predicate Sound(rows: seq<Row>) {
    IdsDistinct(rows) && ParentsSound(rows) && Backward(rows) && TipsApart(rows)
  }

  /** Only the end of a chain can be unrevoked. */
  lemma LiveIsTip(rows: seq<Row>, i: nat)
    requires ParentsSound(rows) && i < |rows| && rows[i].revoked.None?
    ensures Tip(rows, i)
  {
  }

  lemma SoundRevoke(rows: seq<Row>, i: nat, now: int)
    requires Sound(rows) && i < |rows|
    ensures Sound(rows[i := rows[i].(revoked := Some(now))])
  {
    var after := rows[i := rows[i].(revoked := Some(now))];
    forall a, b | 0 <= a < b < |after| && Tip(after, a) && Tip(after, b)
      ensures Root(after, a) != Root(after, b)
    {
      TipsKept(rows, after, a);
      TipsKept(rows, after, b);
      RootSame(rows, after, a);
      RootSame(rows, after, b);
    }
  }

  lemma TipsKept(a: seq<Row>, b: seq<Row>, i: nat)
    requires |a| <= |b| && (forall k :: 0 <= k < |a| ==> a[k].parent == b[k].parent) && Tip(b, i)
    ensures Tip(a, i)
  {
    assert forall k :: 0 <= k < |a| ==> b[k].parent != Some(i);
  }

  lemma SoundSignIn(rows: seq<Row>, r: Row)
    requires Sound(rows) && r.parent.None? && Find(rows, r.id).None?
    ensures Sound(rows + [r])
  {
    var after := rows + [r];
    forall a, b | 0 <= a < b < |after| && Tip(after, a) && Tip(after, b)
      ensures Root(after, a) != Root(after, b)
    {
      TipsKept(rows, after, a);
      RootSame(rows, after, a);
      if b < |rows| {
        TipsKept(rows, after, b);
        RootSame(rows, after, b);
      }
    }
  }

  lemma ParentsAppend(rows: seq<Row>, i: nat, r: Row)
    requires IdsDistinct(rows) && ParentsSound(rows) && i < |rows| && rows[i].revoked.Some?
    requires r.parent == Some(i) && r.user == rows[i].user && Find(rows, r.id).None? && Tip(rows, i)
    ensures IdsDistinct(rows + [r]) && ParentsSound(rows + [r]) && Backward(rows + [r])
  {
  }

  /** The successor of a row that has none yet. */
  lemma SoundAppend(rows: seq<Row>, i: nat, r: Row)
    requires Sound(rows) && i < |rows| && rows[i].revoked.Some?
    requires r.parent == Some(i) && r.user == rows[i].user && Find(rows, r.id).None? && Tip(rows, i)
    ensures Sound(rows + [r])
  {
    var after := rows + [r];
    ParentsAppend(rows, i, r);
    forall a, b | 0 <= a < b < |after| && Tip(after, a) && Tip(after, b)
      ensures Root(after, a) != Root(after, b)
    {
      AppendedApart(rows, i, r, a, b);
    }
  }

  lemma AppendedApart(rows: seq<Row>, i: nat, r: Row, a: nat, b: nat)
    requires Sound(rows) && i < |rows| && Tip(rows, i) && r.parent == Some(i) && Backward(rows + [r])
    requires a < b <= |rows| && Tip(rows + [r], a) && Tip(rows + [r], b)
    ensures Root(rows + [r], a) != Root(rows + [r], b)
  {
    var after := rows + [r];
    var source := if b < |rows| then b else i;
    assert after[|rows|].parent == Some(i);
    TipsKept(rows, after, a);
    RootSame(rows, after, a);
    RootSame(rows, after, source);
    if b < |rows| {
      TipsKept(rows, after, b);
    } else {
      assert Root(rows, if a < i then a else i) != Root(rows, if a < i then i else a);
    }
  }

  lemma FindNone(rows: seq<Row>, id: TokenId)
    requires forall i :: 0 <= i < |rows| ==> rows[i].id != id
    ensures Find(rows, id).None?
  {
  }

  /** Refreshing a row keeps the chains exactly when the row was not refreshed before. */
  lemma RotateExactly(rows: seq<Row>, i: nat, now: int, newId: TokenId, newExpires: int)
    requires Sound(rows) && i < |rows| && Find(rows, newId).None?
    ensures Sound(Rotate(rows, i, rows[i].user, now, newId, newExpires)) <==> Tip(rows, i)
  {
    var revoked := rows[i := rows[i].(revoked := Some(now))];
    var last := Row(newId, rows[i].user, newExpires, None, Some(i));
    assert Rotate(rows, i, rows[i].user, now, newId, newExpires) == revoked + [last];
    if Tip(rows, i) {
      SoundRevoke(rows, i, now);
      FindNone(revoked, newId);
      assert Tip(revoked, i);
      SoundAppend(revoked, i, last);
    } else {
      var k :| 0 <= k < |rows| && rows[k].parent == Some(i);
      assert (revoked + [last])[k].parent == Some(i) && (revoked + [last])[|rows|].parent == Some(i);
    }
  }

  lemma SoundStep(rows: seq<Row>, e: Event)
    requires Sound(rows) && Enabled(rows, e)
    ensures Sound(Step(rows, e))
  {
    match e
    case SignIn(user, id, expires) => SoundSignIn(rows, Row(id, user, expires, None, None));
    case Refresh(token, now, newId, newExpires) =>
      if Accepts(rows, token, now) {
        var i := Find(rows, token.id).value;
        LiveIsTip(rows, i);
        RotateExactly(rows, i, now, newId, newExpires);
      }
    case Logout(id, now) =>
      if Find(rows, id).Some? {
        SoundRevoke(rows, Find(rows, id).value, now);
      }
  }

  /** On every run the rows form chains rooted at sign-ins, each row has at most one
      successor, and only the last row of a chain can be unrevoked. */
  lemma {:induction false} ChainsAlways(rows: seq<Row>, es: seq<Event>)
    requires Sound(rows) && CanRun(rows, es)
    ensures Sound(Run(rows, es))
    decreases |es|
  {
    if es != [] {
      SoundStep(rows, es[0]);
      ChainsAlways(Step(rows, es[0]), es[1..]);
    }
  }

  // ---------------------------------------------------------------- revocation is for good

  /** Rows keep their place, their owner and, once revoked, their revocation. */
  lemma {:induction false} RevokedForGood(rows: seq<Row>, es: seq<Event>, i: nat)
    requires CanRun(rows, es) && i < |rows|
    ensures i < |Run(rows, es)| && Run(rows, es)[i].id == rows[i].id && Run(rows, es)[i].user == rows[i].user
    ensures rows[i].revoked.Some? ==> Run(rows, es)[i].revoked.Some?
    decreases |es|
  {
    if es != [] {
      RevokedForGood(Step(rows, es[0]), es[1..], i);
    }
  }

  lemma {:induction false} FindUnique(rows: seq<Row>, i: nat)
    requires IdsDistinct(rows) && i < |rows|
    ensures Find(rows, rows[i].id) == Some(i)
  {
  }

  /** A token that was accepted once is never accepted again, whatever happens between. */
  lemma EachTokenRefreshesOnce(rows: seq<Row>, e: Event, es: seq<Event>, again: int)
    requires Sound(rows) && e.Refresh? && Enabled(rows, e) && Accepts(rows, e.token, e.now)
    requires CanRun(Step(rows, e), es)
    ensures !Accepts(Run(Step(rows, e), es), e.token, again)
  {
    var i := Find(rows, e.token.id).value;
    SoundStep(rows, e);
    ChainsAlways(Step(rows, e), es);
    RevokedForGood(Step(rows, e), es, i);
    FindUnique(Run(Step(rows, e), es), i);
  }

  // ---------------------------------------------------------------- accepted, and no longer

  /** A row's token can be refreshed exactly while it is unrevoked and unexpired. */
  lemma UsableExactly(rows: seq<Row>, i: nat, now: int)
    requires IdsDistinct(rows) && i < |rows|
    ensures Usable(rows, rows[i].id, now) <==> rows[i].revoked.None? && now < rows[i].expires
  {
    FindUnique(rows, i);
  }

  /** The event does not spend the token: it is neither logged out nor refreshed. */
  predicate SparesToken(e: Event, id: TokenId) {
    && (e.Logout? ==> e.id != id)
    && (e.Refresh? ==> e.token.id != id)
  }

  predicate SparedToken(es: seq<Event>, id: TokenId) {
    forall e :: e in es ==> SparesToken(e, id)
  }

  lemma {:induction false} RowStays(rows: seq<Row>, es: seq<Event>, i: nat)
    requires Sound(rows) && CanRun(rows, es) && i < |rows| && SparedToken(es, rows[i].id)
    ensures i < |Run(rows, es)| && Run(rows, es)[i] == rows[i]
    decreases |es|
  {
    if es != [] {
      assert SparesToken(es[0], rows[i].id);
      FindUnique(rows, i);
      SoundStep(rows, es[0]);
      RowStays(Step(rows, es[0]), es[1..], i);
    }
  }

  /** What an event issues: the token of a sign-in, or of a refresh that is accepted. */
  predicate Issues(rows: seq<Row>, e: Event, id: TokenId, user: UserId, expires: int)
    requires Enabled(rows, e)
  {
    match e
    case SignIn(u, newId, newExpires) => u == user && newId == id && newExpires == expires
    case Refresh(token, now, newId, newExpires) =>
      Accepts(rows, token, now) && token.subject == user && newId == id && newExpires == expires
    case Logout(_, _) => false
  }

  lemma IssuedRow(rows: seq<Row>, e: Event, id: TokenId, user: UserId, expires: int)
    requires Sound(rows) && Enabled(rows, e) && Issues(rows, e, id, user, expires)
    ensures var after := Step(rows, e);
            && |after| == |rows| + 1
            && after[|rows|].id == id && after[|rows|].user == user
            && after[|rows|].expires == expires && after[|rows|].revoked.None?
  {
  }

  /** A token that was issued, by a sign-in or by a refresh, is accepted from its user until it
      expires, whatever happens to other tokens; and not after. */
  lemma IssuedTokenWorks(rows: seq<Row>, e: Event, es: seq<Event>, token: Token, expires: int, now: int)
    requires Sound(rows) && Enabled(rows, e) && Issues(rows, e, token.id, token.subject, expires)
    requires CanRun(Step(rows, e), es) && SparedToken(es, token.id) && token.genuine
    ensures Accepts(Run(Step(rows, e), es), token, now) <==> now < expires
  {
    IssuedRow(rows, e, token.id, token.subject, expires);
    SoundStep(rows, e);
    RowStays(Step(rows, e), es, |rows|);
    ChainsAlways(Step(rows, e), es);
    UsableExactly(Run(Step(rows, e), es), |rows|, now);
  }

  // ---------------------------------------------------------------- logout

  /** A logout revokes the row of its token and touches no other; of an unknown one, none. */
  lemma LogoutDoes(rows: seq<Row>, id: TokenId, now: int)
    requires Sound(rows)
    ensures var after := Step(rows, Logout(id, now));
            && |after| == |rows|
            && (forall i :: 0 <= i < |rows| && rows[i].id == id ==> after[i] == rows[i].(revoked := Some(now)))
            && (forall i :: 0 <= i < |rows| && rows[i].id != id ==> after[i] == rows[i])
            && ((forall i :: 0 <= i < |rows| ==> rows[i].id != id) ==> after == rows)
  {
    forall i | 0 <= i < |rows| && rows[i].id == id
      ensures Step(rows, Logout(id, now))[i] == rows[i].(revoked := Some(now))
    {
      FindUnique(rows, i);
    }
  }

  lemma RevokedIsRefused(rows: seq<Row>, i: nat, token: Token, again: int)
    requires IdsDistinct(rows) && i < |rows| && rows[i].revoked.Some? && token.id == rows[i].id
    ensures !Accepts(rows, token, again)
  {
    FindUnique(rows, i);
  }

  /** After a logout no run accepts the token again, at any time. */
  lemma LoggedOutForGood(rows: seq<Row>, id: TokenId, now: int, es: seq<Event>, token: Token, again: int)
    requires Sound(rows) && Find(rows, id).Some? && token.id == id
    requires CanRun(Step(rows, Logout(id, now)), es)
    ensures !Accepts(Run(Step(rows, Logout(id, now)), es), token, again)
  {
    var i, after := Find(rows, id).value, Step(rows, Logout(id, now));
    LogoutDoes(rows, id, now);
    SoundStep(rows, Logout(id, now));
    ChainsAlways(after, es);
    RevokedForGood(after, es, i);
    RevokedIsRefused(Run(after, es), i, token, again);
  }

  // ---------------------------------------------------------------- live tokens and sign-ins

  ghost function LiveRows(rows: seq<Row>, user: UserId): set<nat> {
    set i | 0 <= i < |rows| && rows[i].user == user && rows[i].revoked.None?
  }

  ghost function SignIns(rows: seq<Row>, user: UserId): set<nat> {
    set i | 0 <= i < |rows| && rows[i].user == user && rows[i].parent.None?
  }

  ghost function Roots(rows: seq<Row>, live: set<nat>): set<nat>
    requires Backward(rows) && forall i :: i in live ==> i < |rows|
  {
    set i | i in live :: Root(rows, i)
  }

  lemma RootFresh(rows: seq<Row>, live: set<nat>, i: nat, user: UserId)
    requires Sound(rows) && live <= LiveRows(rows, user) && i in LiveRows(rows, user) && i !in live
    ensures Root(rows, i) !in Roots(rows, live)
  {
    LiveIsTip(rows, i);
    forall j | j in live
      ensures Root(rows, j) != Root(rows, i)
    {
      LiveIsTip(rows, j);
    }
  }

  lemma RootsSplit(rows: seq<Row>, live: set<nat>, i: nat, user: UserId)
    requires Sound(rows) && live <= LiveRows(rows, user) && i in live
    ensures Roots(rows, live) == Roots(rows, live - {i}) + {Root(rows, i)}
    ensures Root(rows, i) in SignIns(rows, user) && Root(rows, i) !in Roots(rows, live - {i})
  {
    RootUser(rows, i);
    RootFresh(rows, live - {i}, i, user);
  }

  /** Each live row has a sign-in of its own. */
  lemma {:induction false} RootsOf(rows: seq<Row>, live: set<nat>, user: UserId)
    requires Sound(rows) && live <= LiveRows(rows, user)
    ensures |Roots(rows, live)| == |live| && Roots(rows, live) <= SignIns(rows, user)
    decreases |live|
  {
    if live != {} {
      var i :| i in live;
      var rest := live - {i};
      assert |live| == |rest| + 1;
      RootsSplit(rows, live, i, user);
      RootsOf(rows, rest, user);
    } else {
      assert Roots(rows, live) == {};
    }
  }

  /** A user never has more tokens that can still be refreshed than times signed in. */
  lemma LiveAtMostSignIns(es: seq<Event>, user: UserId)
    requires CanRun([], es)
    ensures var rows := Run([], es); |LiveRows(rows, user)| <= |SignIns(rows, user)|
  {
    ChainsAlways([], es);
    LiveBound(Run([], es), user);
  }

  lemma LiveBound(rows: seq<Row>, user: UserId)
    requires Sound(rows)
    ensures |LiveRows(rows, user)| <= |SignIns(rows, user)|
  {
    RootsOf(rows, LiveRows(rows, user), user);
    SubsetSize(Roots(rows, LiveRows(rows, user)), SignIns(rows, user));
  }

  // ---------------------------------------------------------------- refreshes that interleave

  /** A refresh between its SELECT and its writes: the row it found, and for whom. */
  datatype Pending = Pending(row: nat, subject: UserId, now: int)

  datatype Table = Table(rows: seq<Row>, pending: seq<Pending>)

  const EmptyTable := Table([], [])

  datatype Action =
    | Simple(e: Event)
    | Select(token: Token, now: int)
    | Write(k: nat, newId: TokenId, newExpires: int)

  predicate CanAct(t: Table, a: Action) {
    match a
    case Simple(e) => !e.Refresh? && Enabled(t.rows, e)
    case Select(token, _) =>
      token.genuine && Find(t.rows, token.id).Some? ==> t.rows[Find(t.rows, token.id).value].user == token.subject
    case Write(k, newId, _) =>
      k < |t.pending| && t.pending[k].row < |t.rows| && Find(t.rows, newId).None?
  }

  function Act(t: Table, a: Action): Table
    requires CanAct(t, a)
  {
    match a
    case Simple(e) => t.(rows := Step(t.rows, e))
    case Select(token, now) =>
      if Accepts(t.rows, token, now) then
        t.(pending := t.pending + [Pending(Find(t.rows, token.id).value, token.subject, now)])
      else t
    case Write(k, newId, newExpires) =>
      var p := t.pending[k];
      Table(Rotate(t.rows, p.row, p.subject, p.now, newId, newExpires), RemoveAt(t.pending, k))
  }

  predicate CanActAll(t: Table, acts: seq<Action>)
    decreases |acts|
  {
    acts == [] || (CanAct(t, acts[0]) && CanActAll(Act(t, acts[0]), acts[1..]))
  }

  function ActAll(t: Table, acts: seq<Action>): Table
    requires CanActAll(t, acts)
    decreases |acts|
  {
    if acts == [] then t else ActAll(Act(t, acts[0]), acts[1..])
  }

  /** No refresh writes to a row that another one has refreshed since its SELECT. */
  ghost predicate InTime(t: Table, acts: seq<Action>)
    requires CanActAll(t, acts)
    decreases |acts|
  {
    acts != [] ==> WritesInTime(t, acts[0]) && InTime(Act(t, acts[0]), acts[1..])
  }

  ghost predicate WritesInTime(t: Table, a: Action)
    requires CanAct(t, a)
  {
    a.Write? ==> Tip(t.rows, t.pending[a.k].row)
  }

  ghost predicate SoundThroughout(t: Table, acts: seq<Action>)
    requires CanActAll(t, acts)
    decreases |acts|
  {
    Sound(t.rows) && (acts != [] ==> SoundThroughout(Act(t, acts[0]), acts[1..]))
  }

  ghost predicate PendingSound(t: Table) {
    forall k :: 0 <= k < |t.pending| ==>
      t.pending[k].row < |t.rows| && t.rows[t.pending[k].row].user == t.pending[k].subject
  }

  lemma PendingKept(t: Table, a: Action)
    requires PendingSound(t) && CanAct(t, a)
    ensures PendingSound(Act(t, a))
  {
  }

  lemma ActExactly(t: Table, a: Action)
    requires Sound(t.rows) && PendingSound(t) && CanAct(t, a)
    ensures Sound(Act(t, a).rows) <==> WritesInTime(t, a)
  {
    match a
    case Simple(e) => SoundStep(t.rows, e);
    case Select(_, _) =>
    case Write(k, newId, newExpires) =>
      RotateExactly(t.rows, t.pending[k].row, t.pending[k].now, newId, newExpires);
  }

  /** Under every interleaving of SELECTs and writes: the rows form chains all along, each
      row refreshed at most once, exactly when every write is in time. */
  lemma {:induction false} ChainsExactly(t: Table, acts: seq<Action>)
    requires Sound(t.rows) && PendingSound(t) && CanActAll(t, acts)
    ensures SoundThroughout(t, acts) <==> InTime(t, acts)
    decreases |acts|
  {
    if acts != [] {
      ActExactly(t, acts[0]);
      PendingKept(t, acts[0]);
      if WritesInTime(t, acts[0]) {
        ChainsExactly(Act(t, acts[0]), acts[1..]);
      } else if |acts| > 1 {
        assert !Sound(Act(t, acts[0]).rows);
      }
    }
  }

  lemma {:induction false} SoundAtTheEnd(t: Table, acts: seq<Action>)
    requires CanActAll(t, acts) && SoundThroughout(t, acts)
    ensures Sound(ActAll(t, acts).rows)
    decreases |acts|
  {
    if acts != [] {
      SoundAtTheEnd(Act(t, acts[0]), acts[1..]);
    }
  }

  /** In time, a user's live tokens never outnumber the sign-ins. */
  lemma InTimeLiveBound(acts: seq<Action>, user: UserId)
    requires CanActAll(EmptyTable, acts) && InTime(EmptyTable, acts)
    ensures var rows := ActAll(EmptyTable, acts).rows; |LiveRows(rows, user)| <= |SignIns(rows, user)|
  {
    ChainsExactly(EmptyTable, acts);
    SoundAtTheEnd(EmptyTable, acts);
    LiveBound(ActAll(EmptyTable, acts).rows, user);
  }

  /** A refresh whose writes follow its SELECT at once is in time, and is the transaction. */
  lemma AtOnceIsTransaction(t: Table, token: Token, now: int, newId: TokenId, newExpires: int)
    requires Sound(t.rows) && Enabled(t.rows, Refresh(token, now, newId, newExpires)) && Accepts(t.rows, token, now)
    ensures var select, write := Select(token, now), Write(|t.pending|, newId, newExpires);
            && CanAct(t, select) && CanAct(Act(t, select), write) && WritesInTime(Act(t, select), write)
            && Act(Act(t, select), write) == Table(Step(t.rows, Refresh(token, now, newId, newExpires)), t.pending)
  {
    var i := Find(t.rows, token.id).value;
    LiveIsTip(t.rows, i);
    assert RemoveAt(t.pending + [Pending(i, token.subject, now)], |t.pending|) == t.pending;
  }

  lemma IdsAct(t: Table, a: Action)
    requires IdsDistinct(t.rows) && CanAct(t, a)
    ensures IdsDistinct(Act(t, a).rows)
  {
  }

  lemma {:induction false} RevokedStays(t: Table, acts: seq<Action>, i: nat)
    requires IdsDistinct(t.rows) && CanActAll(t, acts) && i < |t.rows| && t.rows[i].revoked.Some?
    ensures IdsDistinct(ActAll(t, acts).rows) && i < |ActAll(t, acts).rows|
    ensures ActAll(t, acts).rows[i].revoked.Some? && ActAll(t, acts).rows[i].id == t.rows[i].id
    decreases |acts|
  {
    if acts != [] {
      IdsAct(t, acts[0]);
      RevokedStays(Act(t, acts[0]), acts[1..], i);
    }
  }

  /** Under every interleaving too: no SELECT that comes after the logout finds the token. Only
      a refresh whose SELECT came before it can still go through. */
  lemma NoSelectAfterLogout(t: Table, id: TokenId, now: int, acts: seq<Action>, token: Token, again: int)
    requires Sound(t.rows) && Find(t.rows, id).Some? && token.id == id
    requires CanActAll(Act(t, Simple(Logout(id, now))), acts)
    ensures var u := ActAll(Act(t, Simple(Logout(id, now))), acts);
            && !Accepts(u.rows, token, again)
            && (CanAct(u, Select(token, again)) ==> Act(u, Select(token, again)) == u)
  {
    var i, after := Find(t.rows, id).value, Act(t, Simple(Logout(id, now)));
    LogoutDoes(t.rows, id, now);
    SoundStep(t.rows, Logout(id, now));
    RevokedStays(after, acts, i);
    RevokedIsRefused(ActAll(after, acts).rows, i, token, again);
  }

  lemma ActOne(t: Table, a: Action, rest: seq<Action>)
    requires CanAct(t, a) && CanActAll(Act(t, a), rest)
    ensures CanActAll(t, [a] + rest) && ActAll(t, [a] + rest) == ActAll(Act(t, a), rest)
    ensures InTime(t, [a] + rest) <==> WritesInTime(t, a) && InTime(Act(t, a), rest)
  {
    assert ([a] + rest)[1..] == rest;
  }

  /** One sign-in, `n` refreshes that have read its row, and none that has written. */
  function Reads(user: UserId, now: int, n: nat): Table {
    Table([Row(0, user, now + 1, None, None)], seq(n, _ => Pending(0, user, now)))
  }

  function Forked(user: UserId, now: int): seq<Row> {
    [Row(0, user, now + 1, Some(now), None),
     Row(1, user, now + 1, None, Some(0)),
     Row(2, user, now + 1, None, Some(0))]
  }

  lemma ForkReads(user: UserId, now: int, n: nat)
    ensures var select := Select(Token(0, user, true), now);
            CanAct(Reads(user, now, n), select) && Act(Reads(user, now, n), select) == Reads(user, now, n + 1)
  {
    assert Find(Reads(user, now, n).rows, 0) == Some(0);
  }

  lemma ForkWrites(user: UserId, now: int)
    ensures var t, first, second := Reads(user, now, 2), Write(0, 1, now + 1), Write(0, 2, now + 1);
            && CanAct(t, first) && CanAct(Act(t, first), second)
            && !WritesInTime(Act(t, first), second)
            && Act(Act(t, first), second) == Table(Forked(user, now), [])
  {
    var t := Act(Reads(user, now, 2), Write(0, 1, now + 1));
    FindNone(Reads(user, now, 2).rows, 1);
    assert t == Table(Forked(user, now)[..2], [Pending(0, user, now)]);
    FindNone(t.rows, 2);
    assert t.rows[1].parent == Some(0);
  }

  lemma ForkedIsBad(user: UserId, now: int)
    ensures var rows := Forked(user, now);
            !ParentsSound(rows) && |LiveRows(rows, user)| == 2 && |SignIns(rows, user)| == 1
  {
    var rows := Forked(user, now);
    assert rows[1].parent == rows[2].parent == Some(0);
    assert LiveRows(rows, user) == {1, 2};
    assert SignIns(rows, user) == {0};
  }

  /** The actions end with these rows, and some write among them is too late. */
  ghost predicate Forks(t: Table, acts: seq<Action>, rows: seq<Row>) {
    CanActAll(t, acts) && !InTime(t, acts) && ActAll(t, acts).rows == rows
  }

  lemma ForksBefore(t: Table, a: Action, u: Table, acts: seq<Action>, rows: seq<Row>)
    requires CanAct(t, a) && Act(t, a) == u && Forks(u, acts, rows)
    ensures Forks(t, [a] + acts, rows)
  {
    ActOne(t, a, acts);
  }

  lemma ForkTail(user: UserId, now: int) returns (acts: seq<Action>)
    ensures Forks(Reads(user, now, 2), acts, Forked(user, now))
  {
    var t, first, second := Reads(user, now, 2), Write(0, 1, now + 1), Write(0, 2, now + 1);
    ForkWrites(user, now);
    ActOne(Act(t, first), second, []);
    ActOne(t, first, [second] + []);
    acts := [first] + ([second] + []);
  }

  /** From the sign-in on. */
  lemma ForkFromSignIn(user: UserId, now: int) returns (acts: seq<Action>)
    ensures Forks(Reads(user, now, 0), acts, Forked(user, now))
  {
    var select := Select(Token(0, user, true), now);
    var tail := ForkTail(user, now);
    ForkReads(user, now, 1);
    ForksBefore(Reads(user, now, 1), select, Reads(user, now, 2), tail, Forked(user, now));
    ForkReads(user, now, 0);
    ForksBefore(Reads(user, now, 0), select, Reads(user, now, 1), [select] + tail, Forked(user, now));
    acts := [select] + ([select] + tail);
  }

  /** Two refreshes of one token read before either writes: both succeed, the row has two
      successors, and the user has two live tokens after one sign-in. */
  lemma UnserialisedRefreshForks(user: UserId, now: int) returns (acts: seq<Action>)
    ensures CanActAll(EmptyTable, acts) && !InTime(EmptyTable, acts)
    ensures var rows := ActAll(EmptyTable, acts).rows;
            !ParentsSound(rows) && |LiveRows(rows, user)| == 2 && |SignIns(rows, user)| == 1
  {
    var signIn := Simple(SignIn(user, 0, now + 1));
    var tail := ForkFromSignIn(user, now);
    assert Act(EmptyTable, signIn) == Reads(user, now, 0);
    ForksBefore(EmptyTable, signIn, Reads(user, now, 0), tail, Forked(user, now));
    ForkedIsBad(user, now);
    acts := [signIn] + tail;
  }

  // ---------------------------------------------------------------- the endpoints

  class TokenTable {
    var rows: seq<Row>

    constructor ()
      ensures rows == []
    {
      rows := [];
    }

    method Signin(user: UserId, id: TokenId, expires: int)
      requires Enabled(rows, SignIn(user, id, expires))
      modifies this
      ensures rows == Step(old(rows), SignIn(user, id, expires))
    {
      rows := rows + [Row(id, user, expires, None, None)];
    }

    /** Fails on a token that does not decode, or whose row is missing, revoked or expired. */
    method RefreshToken(token: Token, now: int, newId: TokenId, newExpires: int) returns (ok: bool)
      requires Enabled(rows, Refresh(token, now, newId, newExpires))
      modifies this
      ensures ok == Accepts(old(rows), token, now)
      ensures rows == Step(old(rows), Refresh(token, now, newId, newExpires))
      ensures !ok ==> rows == old(rows)
    {
      ok := false;
      if !token.genuine {
        return;
      }
      var found := Find(rows, token.id);
      if found.None? {
        return;
      }
      var i := found.value;
      if rows[i].revoked.Some? || rows[i].expires <= now {
        return;
      }
      rows := rows[i := rows[i].(revoked := Some(now))];
      rows := rows + [Row(newId, token.subject, newExpires, None, Some(i))];
      ok := true;
    }

    method LogoutToken(id: TokenId, now: int)
      modifies this
      ensures rows == Step(old(rows), Logout(id, now))
    {
      var found := Find(rows, id);
      if found.Some? {
        rows := rows[found.value := rows[found.value].(revoked := Some(now))];
      }
    }

    method Perform(e: Event)
      requires Enabled(rows, e)
      modifies this
      ensures rows == Step(old(rows), e)
    {
      match e {
        case SignIn(user, id, expires) => Signin(user, id, expires);
        case Refresh(token, now, newId, newExpires) => var _ := RefreshToken(token, now, newId, newExpires);
        case Logout(id, now) => LogoutToken(id, now);
      }
    }
  }

  /** A table that lives through a run ends with the rows the run ends with. */
  method Live(es: seq<Event>) returns (table: TokenTable)
    requires CanRun([], es)
    ensures table.rows == Run([], es)
  {
    table := new TokenTable();
    var n := 0;
    while n < |es|
      invariant 0 <= n <= |es| && fresh(table)
      invariant CanRun(table.rows, es[n..]) && Run(table.rows, es[n..]) == Run([], es)
    {
      assert es[n..][1..] == es[n + 1..];
      table.Perform(es[n]);
      n := n + 1;
    }
  }
}
