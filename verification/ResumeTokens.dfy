/** Resume tokens: a seat is written to Redis under a fresh token as three fields joined
    by colons, and is read back, deleted and split in one step. */
module ResumeTokens {
  import opened Wrappers
  import opened Seats
  import Strings

  // ---------------------------------------------------------------- the encoding

  function Fields(seat: Seat): seq<string> {
    [seat.gameId, seat.userId, seat.color]
  }

  function Encode(seat: Seat): string {
    seat.gameId + ":" + seat.userId + ":" + seat.color
  }

  /** Unpacking into three names fails on any other number of parts. */
  function Decode(value: string): Option<Seat> {
    var parts := Strings.Split(value, ':');
    if |parts| == 3 then Some(Seat(parts[0], parts[1], parts[2])) else None
  }

  function Colons(s: string): nat {
    Strings.Count(s, ':')
  }

  lemma EncodeJoins(seat: Seat)
    ensures Encode(seat) == Strings.Join(Fields(seat), ':')
  {
    var tail := [seat.userId, seat.color];
    assert Fields(seat)[1..] == tail && tail[1..] == [seat.color];
    assert Strings.Join(tail, ':') == seat.userId + [':'] + seat.color;
    assert Strings.Join(Fields(seat), ':') == seat.gameId + [':'] + (seat.userId + [':'] + seat.color);
  }

  lemma PartCount(seat: Seat)
    ensures |Strings.Split(Encode(seat), ':')|
            == 3 + Colons(seat.gameId) + Colons(seat.userId) + Colons(seat.color)
  {
    var a, b, c := seat.gameId, seat.userId, seat.color;
    Strings.CountConcat(a, ":", ':');
    Strings.CountConcat(a + ":", b, ':');
    Strings.CountConcat(a + ":" + b, ":", ':');
    Strings.CountConcat(a + ":" + b + ":", c, ':');
    assert Encode(seat) == a + ":" + b + ":" + c;
    Strings.SplitCounts(Encode(seat), ':');
  }

  predicate Plain(seat: Seat) {
    Colons(seat.gameId) == 0 && Colons(seat.userId) == 0 && Colons(seat.color) == 0
  }

  /** Decoding undoes encoding exactly for fields without a colon; with a colon anywhere
      it fails, and never yields another seat. */
  lemma RoundTrip(seat: Seat)
    ensures Decode(Encode(seat)) == if Plain(seat) then Some(seat) else None
  {
    if Plain(seat) {
      EncodeJoins(seat);
      Strings.SplitJoin(Fields(seat), ':');
    } else {
      PartCount(seat);
    }
  }

  // ---------------------------------------------------------------- the store

  /** `created` are all tokens ever handed out, `used` those read back, and `expired` those
      whose time ran out. */
  datatype Store = Store(
    values: map<string, string>,
    created: set<string>,
    used: seq<string>,
    expired: set<string>)

  const EmptyStore := Store(map[], {}, [], {})

  datatype Event =
    | Create(token: string, seat: Seat)
    | Resolve(token: string)
    | Expires(token: string)

  /** Tokens are random and never repeat. */
  predicate Enabled(s: Store, e: Event) {
    match e
    case Create(token, _) => token !in s.created
    case Resolve(_) => true
    case Expires(token) => token in s.values
  }

  /** What `ResolveResumeToken` answers. */
  function Answer(s: Store, token: string): Option<Seat> {
    if token in s.values then Decode(s.values[token]) else None
  }

  function Step(s: Store, e: Event): Store
    requires Enabled(s, e)
  {
    match e
    case Create(token, seat) =>
      s.(values := s.values[token := Encode(seat)], created := s.created + {token})
    case Resolve(token) =>
      if token in s.values then s.(values := s.values - {token}, used := s.used + [token]) else s
    case Expires(token) => s.(values := s.values - {token}, expired := s.expired + {token})
  }

  predicate CanRun(s: Store, es: seq<Event>)
    decreases |es|
  {
    es == [] || (Enabled(s, es[0]) && CanRun(Step(s, es[0]), es[1..]))
  }

  function Run(s: Store, es: seq<Event>): Store
    requires CanRun(s, es)
    decreases |es|
  {
    if es == [] then s else Run(Step(s, es[0]), es[1..])
  }

  /** Each token ever created is live, read back, or expired, and only one of these; and it
      was read back once at most. */
  ghost predicate TokensSound(s: Store) {
    && Distinct(s.used)
    && (forall t :: t in s.created <==> t in s.values || t in s.used || t in s.expired)
    && (forall t :: t in s.values ==> t !in s.used && t !in s.expired)
    && (forall t :: t in s.used ==> t !in s.expired)
  }

  lemma TokensStep(s: Store, e: Event)
    requires TokensSound(s) && Enabled(s, e)
    ensures TokensSound(Step(s, e))
  {
  }

  /** On every run each token created has one fate, and is read back at most once. */
  lemma {:induction false} EachTokenOnce(s: Store, es: seq<Event>)
    requires TokensSound(s) && CanRun(s, es)
    ensures TokensSound(Run(s, es))
    decreases |es|
  {
    if es != [] {
      TokensStep(s, es[0]);
      EachTokenOnce(Step(s, es[0]), es[1..]);
    }
  }

  /** Once a token was read back or expired, resolving it finds nothing, whatever happens
      in between. */
  lemma {:induction false} SpentIsDead(s: Store, es: seq<Event>, token: string)
    requires TokensSound(s) && CanRun(s, es) && token in s.created && token !in s.values
    ensures Answer(Run(s, es), token) == None && Step(Run(s, es), Resolve(token)) == Run(s, es)
    decreases |es|
  {
    if es != [] {
      TokensStep(s, es[0]);
      SpentIsDead(Step(s, es[0]), es[1..], token);
    }
  }

  // ---------------------------------------------------------------- a token gives back its seat

  /** The events leave the token alone. */
  predicate Spares(es: seq<Event>, token: string) {
    forall e :: e in es && (e.Resolve? || e.Expires?) ==> e.token != token
  }

  lemma {:induction false} ValueStays(s: Store, es: seq<Event>, token: string)
    requires CanRun(s, es) && Spares(es, token) && token in s.values && token in s.created
    ensures token in Run(s, es).values && Run(s, es).values[token] == s.values[token]
    decreases |es|
  {
    if es != [] {
      assert es[0] in es;
      ValueStays(Step(s, es[0]), es[1..], token);
    }
  }

  /** From its creation until it is read back or expires, whatever else happens, a token
      answers with the seat it was made for, exactly when no field of the seat holds a colon;
      otherwise it answers with nothing. */
  lemma LiveTokenAnswers(s: Store, token: string, seat: Seat, es: seq<Event>)
    requires Enabled(s, Create(token, seat)) && CanRun(Step(s, Create(token, seat)), es) && Spares(es, token)
    ensures Answer(Run(Step(s, Create(token, seat)), es), token) == if Plain(seat) then Some(seat) else None
  {
    ValueStays(Step(s, Create(token, seat)), es, token);
    RoundTrip(seat);
  }

  /** Reading a token back, or its expiry, takes that token and no other. */
  lemma SpendingTakesOne(s: Store, e: Event, other: string)
    requires Enabled(s, e) && !e.Create? && e.token in s.values
    ensures var t := Step(s, e);
            && e.token !in t.values
            && t.created == s.created
            && t.used == (if e.Resolve? then s.used + [e.token] else s.used)
            && (other != e.token ==>
                  && (other in t.values <==> other in s.values)
                  && (other in s.values ==> t.values[other] == s.values[other]))
  {
  }

  // ---------------------------------------------------------------- the servicer

  class ResumeServicer {
    var redis: map<string, string>
    ghost var model: Store

    ghost predicate Valid()
      reads this
    {
      redis == model.values
    }

    constructor ()
      ensures Valid() && model == EmptyStore
    {
      redis := map[];
      model := EmptyStore;
    }

    /** SET with a fresh token. */
    method CreateResumeToken(token: string, seat: Seat)
      requires Valid() && Enabled(model, Create(token, seat))
      modifies this
      ensures Valid() && model == Step(old(model), Create(token, seat))
      ensures Answer(model, token) == if Plain(seat) then Some(seat) else None
    {
      var value := seat.gameId + ":" + seat.userId + ":" + seat.color;
      RoundTrip(seat);
      redis := redis[token := value];
      model := Step(model, Create(token, seat));
    }

    /** GETDEL, then the split. */
    method ResolveResumeToken(token: string) returns (reply: Option<Seat>)
      requires Valid()
      modifies this
      ensures Valid() && model == Step(old(model), Resolve(token))
      ensures reply == Answer(old(model), token)
    {
      reply := None;
      if token in redis {
        var value := redis[token];
        model := Step(model, Resolve(token));
        redis := redis - {token};
        var parts := Strings.Split(value, ':');
        if |parts| == 3 {
          reply := Some(Seat(parts[0], parts[1], parts[2]));
        }
      }
    }

    method Perform(e: Event)
      requires Valid() && Enabled(model, e)
      modifies this
      ensures Valid() && model == Step(old(model), e)
    {
      match e {
        case Create(token, seat) => CreateResumeToken(token, seat);
        case Resolve(token) => var _ := ResolveResumeToken(token);
        case Expires(token) =>
          redis := redis - {token};
          model := Step(model, e);
      }
    }
  }

  /** A servicer that lives through a run ends with the store the run ends with. */
  method Live(es: seq<Event>) returns (servicer: ResumeServicer)
    requires CanRun(EmptyStore, es)
    ensures servicer.Valid() && servicer.model == Run(EmptyStore, es)
  {
    servicer := new ResumeServicer();
    var n := 0;
    while n < |es|
      invariant 0 <= n <= |es| && fresh(servicer) && servicer.Valid()
      invariant CanRun(servicer.model, es[n..]) && Run(servicer.model, es[n..]) == Run(EmptyStore, es)
    {
      assert es[n..][1..] == es[n + 1..];
      servicer.Perform(es[n]);
      n := n + 1;
    }
  }
}
