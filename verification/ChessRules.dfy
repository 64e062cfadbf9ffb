/** The chess library as the game server sees it. The library is not part of the
    repository, so a position and a move are known only by a number, and the rules
    are a record of functions on them. `Lawful` is all the proofs ever assume. */
module ChessRules {
  datatype Board = Board(code: nat)
  datatype Move = Move(code: nat)

  datatype GameResult = Win | Lose | Draw | NoResult
  datatype GameReason =
    | Checkmate
    | Stalemate
    | InsufficientMaterial
    | FiftyMoveRule
    | ThreefoldRepetition
    | NoReason

  datatype Rules = Rules(
    start: Board,
    whiteToMove: Board -> bool,
    parse: (Board, string) -> Move,
    legal: Board -> seq<Move>,
    make: (Board, Move) -> Board,
    over: Board -> (GameReason, GameResult),
    fen: Board -> string)

  /** White moves first, the start position is not over, and a legal move passes the turn. */
  ghost predicate Lawful(r: Rules) {
    && r.whiteToMove(r.start)
    && r.over(r.start).1 == NoResult
    && forall b: Board, m: Move :: m in r.legal(b) ==> r.whiteToMove(r.make(b, m)) != r.whiteToMove(b)
  }

  predicate Terminal(r: Rules, b: Board) {
    r.over(b).1 != NoResult
  }

  /** The position reached from the start by playing the given UCI strings in order. */
  function Replay(r: Rules, moves: seq<string>): Board {
    if moves == [] then r.start
    else
      var b := Replay(r, moves[..|moves| - 1]);
      r.make(b, r.parse(b, moves[|moves| - 1]))
  }

  /** The position reached from `b` by playing the given moves in order. */
  function PlayOn(r: Rules, b: Board, moves: seq<string>): Board {
    if moves == [] then b
    else
      var c := PlayOn(r, b, moves[..|moves| - 1]);
      r.make(c, r.parse(c, moves[|moves| - 1]))
  }

  /** A game can be replayed in two parts. */
  lemma {:induction false} ReplaySplit(r: Rules, first: seq<string>, rest: seq<string>)
    ensures Replay(r, first + rest) == PlayOn(r, Replay(r, first), rest)
    decreases |rest|
  {
    if rest == [] {
      assert first + rest == first;
    } else {
      var n := |rest| - 1;
      assert (first + rest)[..|first| + n] == first + rest[..n];
      ReplaySplit(r, first, rest[..n]);
    }
  }

  /** Every move was legal in the position it was played in. */
  ghost predicate AllLegal(r: Rules, moves: seq<string>) {
    forall i :: 0 <= i < |moves| ==> PlayedLegally(r, moves, i)
  }

  ghost predicate PlayedLegally(r: Rules, moves: seq<string>, i: nat)
    requires i < |moves|
  {
    var b := Replay(r, moves[..i]);
    r.parse(b, moves[i]) in r.legal(b)
  }

  /** No proper prefix of the game was already over. */
  ghost predicate OngoingUntil(r: Rules, moves: seq<string>, n: nat)
    requires n <= |moves| + 1
  {
    forall i :: 0 <= i < n ==> !Terminal(r, Replay(r, moves[..i]))
  }

  /** The whole game is legal and still running. */
  ghost predicate Ongoing(r: Rules, moves: seq<string>) {
    AllLegal(r, moves) && OngoingUntil(r, moves, |moves| + 1)
  }

  /** The whole game is legal, its last position is over, and no earlier one was. */
  ghost predicate Finished(r: Rules, moves: seq<string>) {
    && moves != []
    && AllLegal(r, moves)
    && OngoingUntil(r, moves, |moves|)
    && Terminal(r, Replay(r, moves))
  }

  lemma ReplayExtend(r: Rules, moves: seq<string>, m: string)
    ensures var b := Replay(r, moves); Replay(r, moves + [m]) == r.make(b, r.parse(b, m))
  {
  }

  /** Playing one more legal move in a running game gives a running or a finished game. */
  lemma ExtendGame(r: Rules, moves: seq<string>, m: string)
    requires Ongoing(r, moves)
    requires var b := Replay(r, moves); r.parse(b, m) in r.legal(b)
    ensures var next := moves + [m];
            if Terminal(r, Replay(r, next)) then Finished(r, next) else Ongoing(r, next)
  {
    var next := moves + [m];
    forall i | 0 <= i < |next|
      ensures PlayedLegally(r, next, i) && !Terminal(r, Replay(r, next[..i]))
    {
      assert next[..i] == moves[..i];
      if i == |moves| {
        assert moves[..i] == moves;
      } else {
        assert PlayedLegally(r, moves, i);
      }
    }
    assert next[..|next|] == next;
  }

  /** White moves at the even indices of a legal game and black at the odd ones. */
  lemma {:induction false} SidesAlternate(r: Rules, moves: seq<string>)
    requires Lawful(r)
    requires AllLegal(r, moves)
    ensures r.whiteToMove(Replay(r, moves)) <==> |moves| % 2 == 0
  {
    if moves != [] {
      var n := |moves| - 1;
      forall i | 0 <= i < n
        ensures PlayedLegally(r, moves[..n], i)
      {
        assert PlayedLegally(r, moves, i);
        assert moves[..n][..i] == moves[..i];
      }
      SidesAlternate(r, moves[..n]);
      assert PlayedLegally(r, moves, n);
    }
  }

  /** A two-move game in which the second player to move is mated: `Lawful` can be met,
      and a game can be won. */
  function ToyRules(): (r: Rules)
    ensures Lawful(r)
    ensures Finished(r, ["a", "b"]) && r.over(Replay(r, ["a", "b"])).1 == Lose
  {
    var r := Rules(
      Board(0),
      (b: Board) => b.code % 2 == 0,
      (b: Board, s: string) => Move(|s|),
      (b: Board) => [Move(1)],
      (b: Board, m: Move) => Board(b.code + 1),
      (b: Board) => if b.code == 2 then (Checkmate, Lose) else (NoReason, NoResult),
      (b: Board) => if b.code == 0 then "start" else if b.code == 1 then "one" else "two");
    ToyGame(r);
    r
  }

  lemma ToyGame(r: Rules)
    requires r.start == Board(0)
    requires forall b: Board, s: string :: r.parse(b, s) == Move(|s|)
    requires forall b: Board :: r.legal(b) == [Move(1)]
    requires forall b: Board, m: Move :: r.make(b, m) == Board(b.code + 1)
    requires forall b: Board :: r.over(b) == if b.code == 2 then (Checkmate, Lose) else (NoReason, NoResult)
    ensures Finished(r, ["a", "b"]) && r.over(Replay(r, ["a", "b"])).1 == Lose
  {
    var g := ["a", "b"];
    assert g[..0] == [];
    assert g[..1] == ["a"] && ["a"][..0] == [];
    assert Replay(r, []) == Board(0);
    assert Replay(r, ["a"]) == Board(1);
    assert Replay(r, g) == Board(2);
  }
}
