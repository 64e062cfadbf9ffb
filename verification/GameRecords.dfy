/** `ReportGameEnd`: what the control plane stores about a finished game. */
module GameRecords {
  import Strings

  datatype MatchRow = MatchRow(white: string, black: string, timeControl: string)

  datatype GameRow = GameRow(
    matchId: string,
    white: string,
    black: string,
    result: string,
    pgn: string,
    moves: nat,
    timeControl: string)

  /** The tables of matches and games; `completed` are the matches with that status. */
  datatype Tables = Tables(matches: map<string, MatchRow>, games: seq<GameRow>, completed: set<string>)

  const Empty := Tables(map[], [], {})

  /** The stored result, from the reported winner alone. */
  function StoredResult(row: MatchRow, winner: string): string {
    if winner == "" then "draw"
    else if winner == row.white then "white_win"
    else if winner == row.black then "black_win"
    else "abandoned"
  }

  function StoredGame(row: MatchRow, id: string, winner: string, moves: seq<string>): GameRow {
    GameRow(id, row.white, row.black, StoredResult(row, winner), Strings.Join(moves, ' '), |moves|, row.timeControl)
  }

  /** `persisted` is false when the database fails; the transaction then leaves no trace. */
  function Report(t: Tables, id: string, winner: string, moves: seq<string>, persisted: bool): Tables {
    if persisted && id in t.matches then
      t.(games := t.games + [StoredGame(t.matches[id], id, winner, moves)], completed := t.completed + {id})
    else t
  }

  datatype Event =
    | AddMatch(id: string, row: MatchRow)
    | GameEnd(id: string, winner: string, moves: seq<string>, persisted: bool)

  /** Match ids are UUIDs. */
  predicate Enabled(t: Tables, e: Event) {
    e.AddMatch? ==> e.id !in t.matches
  }

  function Step(t: Tables, e: Event): Tables {
    match e
    case AddMatch(id, row) => t.(matches := t.matches[id := row])
    case GameEnd(id, winner, moves, persisted) => Report(t, id, winner, moves, persisted)
  }

  predicate CanRun(t: Tables, es: seq<Event>)
    decreases |es|
  {
    es == [] || (Enabled(t, es[0]) && CanRun(Step(t, es[0]), es[1..]))
  }

  function Run(t: Tables, es: seq<Event>): Tables
    decreases |es|
  {
    if es == [] then t else Run(Step(t, es[0]), es[1..])
  }

  /** A match is completed exactly when a game of it is stored, under its own players. */
  ghost predicate TablesSound(t: Tables) {
    && (forall id :: id in t.completed <==> HasGame(t.games, id))
    && forall i :: 0 <= i < |t.games| ==> OfMatch(t.matches, t.games[i])
  }

  ghost predicate HasGame(games: seq<GameRow>, id: string) {
    exists i :: 0 <= i < |games| && games[i].matchId == id
  }

  ghost predicate OfMatch(matches: map<string, MatchRow>, game: GameRow) {
    && game.matchId in matches
    && game.white == matches[game.matchId].white
    && game.black == matches[game.matchId].black
    && game.timeControl == matches[game.matchId].timeControl
  }

  lemma ReportSound(t: Tables, id: string, winner: string, moves: seq<string>, persisted: bool)
    requires TablesSound(t)
    ensures TablesSound(Report(t, id, winner, moves, persisted))
  {
    var u := Report(t, id, winner, moves, persisted);
    if |u.games| > |t.games| {
      assert u.games[|t.games|].matchId == id;
      forall other
        ensures other in u.completed <==> HasGame(u.games, other)
      {
        if HasGame(t.games, other) {
          var i :| 0 <= i < |t.games| && t.games[i].matchId == other;
          assert u.games[i].matchId == other;
        }
      }
    }
  }

  /** A match that was made is there, with its players, and so it stays. */
  lemma {:induction false} MatchStays(t: Tables, id: string, row: MatchRow, es: seq<Event>)
    requires Enabled(t, AddMatch(id, row)) && CanRun(Step(t, AddMatch(id, row)), es)
    ensures id in Run(Step(t, AddMatch(id, row)), es).matches
    ensures Run(Step(t, AddMatch(id, row)), es).matches[id] == row
  {
    MatchKept(Step(t, AddMatch(id, row)), id, es);
  }

  lemma {:induction false} MatchKept(t: Tables, id: string, es: seq<Event>)
    requires id in t.matches && CanRun(t, es)
    ensures id in Run(t, es).matches && Run(t, es).matches[id] == t.matches[id]
    decreases |es|
  {
    if es != [] {
      MatchKept(Step(t, es[0]), id, es[1..]);
    }
  }

  /** A report that gets through adds one game: the match's players and time control, the
      result by the reported winner, and the moves. Any other changes nothing. */
  lemma ReportDoes(t: Tables, id: string, winner: string, moves: seq<string>, persisted: bool)
    ensures var u := Step(t, GameEnd(id, winner, moves, persisted));
            if !persisted || id !in t.matches then u == t
            else
              var row := t.matches[id];
              && u.matches == t.matches && u.completed == t.completed + {id}
              && |u.games| == |t.games| + 1 && u.games[..|t.games|] == t.games
              && var game := u.games[|t.games|];
              && game.matchId == id && game.white == row.white && game.black == row.black
              && game.timeControl == row.timeControl
              && game.moves == |moves| && game.pgn == Strings.Join(moves, ' ')
              && (winner == "" ==> game.result == "draw")
              && (winner != "" && winner == row.white ==> game.result == "white_win")
              && (winner != "" && winner != row.white && winner == row.black ==> game.result == "black_win")
              && (winner != "" && winner != row.white && winner != row.black ==> game.result == "abandoned")
  {
  }

  /** On every run matches are completed exactly by their games. */
  lemma {:induction false} TablesAlways(t: Tables, es: seq<Event>)
    requires TablesSound(t) && CanRun(t, es)
    ensures TablesSound(Run(t, es))
    decreases |es|
  {
    if es != [] {
      if es[0].GameEnd? {
        ReportSound(t, es[0].id, es[0].winner, es[0].moves, es[0].persisted);
      }
      TablesAlways(Step(t, es[0]), es[1..]);
    }
  }

  /** The moves can be read back from the stored game exactly when there is one and none
      holds a blank. */
  lemma MovesReadBack(row: MatchRow, id: string, winner: string, moves: seq<string>)
    ensures var game := StoredGame(row, id, winner, moves);
            Strings.Split(game.pgn, ' ') == moves <==> moves != [] && Strings.Plain(moves, ' ')
    ensures Strings.Plain(moves, ' ') && moves != [] ==>
              |Strings.Split(StoredGame(row, id, winner, moves).pgn, ' ')| == StoredGame(row, id, winner, moves).moves
  {
    Strings.SplitJoin(moves, ' ');
  }

  class Database {
    var matches: map<string, MatchRow>
    var games: seq<GameRow>
    var completed: set<string>

    ghost function View(): Tables
      reads this
    {
      Tables(matches, games, completed)
    }

    constructor ()
      ensures View() == Empty
    {
      matches, games, completed := map[], [], {};
    }

    /** Looks the match up, derives the result, inserts the game and closes the match. */
    method ReportGameEnd(id: string, winnerId: string, moves: seq<string>, persisted: bool)
      returns (acknowledged: bool)
      modifies this`games, this`completed
      ensures View() == Report(old(View()), id, winnerId, moves, persisted)
      ensures acknowledged <==> persisted && id in matches
    {
      if id !in matches || !persisted {
        return false;
      }
      var row := matches[id];
      var result := "abandoned";
      if winnerId == "" {
        result := "draw";
      } else if winnerId == row.white {
        result := "white_win";
      } else if winnerId == row.black {
        result := "black_win";
      }
      var game := GameRow(id, row.white, row.black, result, Strings.Join(moves, ' '), |moves|, row.timeControl);
      games := games + [game];
      completed := completed + {id};
      acknowledged := true;
    }

    method Perform(e: Event)
      modifies this
      ensures View() == Step(old(View()), e)
    {
      match e {
        case AddMatch(id, row) => matches := matches[id := row];
        case GameEnd(id, winner, moves, persisted) => var _ := ReportGameEnd(id, winner, moves, persisted);
      }
    }
  }

  /** A database that lives through a run ends with the tables the run ends with. */
  method Live(es: seq<Event>) returns (db: Database)
    ensures db.View() == Run(Empty, es)
  {
    db := new Database();
    var n := 0;
    while n < |es|
      invariant 0 <= n <= |es| && fresh(db)
      invariant Run(db.View(), es[n..]) == Run(Empty, es)
    {
      assert es[n..][1..] == es[n + 1..];
      db.Perform(es[n]);
      n := n + 1;
    }
  }
}
