# Chess platform: a verified model

This project models the protocols of a small online chess platform and proves what they
keep on every run: a C++ WebSocket game server, and the Python control plane it calls for
tickets, resume tokens and results.

Run it with `dafny verify dfyconfig.toml`.

## What is modelled

**The game server** (`Session`, `GameServer`). One event loop owns rooms, connections and
gauges. Clients open, send (join, move, resume, or something else) and close; jobs go to four
workers, and come back later as callbacks on the loop. `GameServer.Server` is the server as
an object whose fields the handlers change; each handler is proved to do exactly what a
function of `Session` says, and `GameServer.Live` ties a whole run of the object to
`Session.Exec`. Everything else is proved about `Session.Exec`, for every run:

- `SessionInvariants`, `Callbacks`: ids, slots, work and gauges; every join and resume is
  answered once at most, to the asker alone; late callbacks.
- `SessionEffects`: what each event does to rooms, seats and queues, and who is told what, said
  of the states before and after and not through the handlers.
- `SessionHistory`: games are legal from start to end, one report for each game that ends,
  every move accounted for.
- `Seating`: when slots are true, when slots and connections agree, and when no slot dangles,
  each as an if and only if.
- `ClientViews`: what clients know is what the server holds.
- `SessionLimits`, `SocketLimiter`: the message limiter, alone and inside the server.
- `Announcements`: the results in an inbox are those of the rooms it sat in, in order.
- `EndToEnd`, `GameRecords`, `Ledger`: the server with the control plane around it. Tokens are
  accounted for against joins, stored games against finished ones, and the result stored is
  the result announced.
- `WithoutDiscipline`: for each rule clients must keep, a run of the whole system that keeps
  the other two and ends badly, and one that keeps all three and ends well.

**The worker pool** (`WorkerPool`): four threads, one locked queue, a condition variable
with `notify_one` issued outside the lock, spurious wakeups, and shutdown.

**The control plane**: `Matchmaking` (a Redis list, interleaved at each await),
`ResumeTokens` (SET and GETDEL of a colon-joined value), `HttpLimiter` (INCR, EXPIRE and the
key's going), `RefreshTokens` (rotation of token rows, as transactions and interleaved),
`GameRecords` (`ReportGameEnd`). Each comes as an object too, whose methods are proved against
the steps, and a method `Live` that carries any run over to the object.

## How to read the model

- The chess library is a record of functions, `ChessRules.Rules`. `Lawful` is all that is
  assumed of it: white moves first, the start is not over, a legal move passes the turn.
  `ToyRules` shows that this can be met, by rules under which a game can be won.
- A raw socket pointer is the socket's id, and the record of a closed connection is kept. A
  message sent through a dangling pointer, undefined in the C++ server, lands in that record.
- Closing a socket from within a handler runs the close handler at once.
- Workers may finish, and callbacks may run, in any order; the event loop's order is one of
  these. A call to the control plane is one step that may fail, and is not tried again.
- The state also records what no field of the code holds: the fate of every room, the jobs
  ever queued, the rooms reported, how many moves a room had seen when a connection was
  seated, the reports behind the stored games. No handler reads them.
- Socket times are milliseconds on a clock that `SessionLimits` assumes monotone where its
  lemmas say so; nothing else depends on it.
- A Redis key goes some time after its deadline has passed, never at or before it.
- `WithoutDiscipline.ToyIsQuick` shows that the rules its runs ask for exist.

## What was found

- **Nobody stops a connection from holding two slots.** One that joins a second match, or the
  other colour, leaves its old slot behind, which is then not true of it any more; slots stay
  true exactly on the runs of `Seating.SlotsStayTrue`. When it goes, the old slot dangles
  (`WithoutDiscipline.SlotsCanDangle`); no slot dangles exactly on the runs in which whoever
  leaves holds no slot but its own (`Seating.NoSlotDangles`).
- **Nobody stops two connections from claiming one seat.** A player who joins from a second
  connection and closes it empties the slot of the first, and then a win is stored as a draw
  (`WithoutDiscipline.SecondTabLosesTheWin`).
- **The client's colour is taken on trust.** Two players who swap colours get the wrong side
  recorded as the winner (`WithoutDiscipline.SwappedColoursSwapTheResult`). For any state
  reached by any run, `EndToEnd.StoredRightExactly` says when the result will be stored right,
  and `Ledger.StoredRightOnAllRuns` which stored games are right.
- **Interleaved requests can pair other players.** The requester is then handed a ticket to
  a match it is not in, and a player of that match gets none
  (`Matchmaking.InterleavedTickets`). Requesters are players exactly when every LPOP of two
  gives a request its own user (`Matchmaking.RequestersArePlayers`), and consecutive arrivals
  are paired exactly when no LPOP comes back with one entry (`Matchmaking.PairsStayInOrder`).
- **A lost EXPIRE locks a client out** until the key is removed by hand: exactly when an EXPIRE
  was lost and the limit is reached (`HttpLimiter.LockedOutExactly`), which happens
  (`HttpLimiter.LockoutHappens`).
- **Two refreshes of one token can both succeed** when both read its row before either writes
  (`RefreshTokens.UnserialisedRefreshForks`). The rows stay chains exactly when no refresh
  writes to a row another one refreshed since it was read (`RefreshTokens.ChainsExactly`).
- **A colon in the client's colour makes a resume token unusable** (`ResumeTokens.RoundTrip`):
  the token is deleted and the answer fails.
- **Ten messages per one-second window are not ten per second.** Twenty can pass within two
  milliseconds (`SocketLimiter.OneSecondIsTight`), and never more in a second. The bound for
  longer intervals is met for every length (`SocketLimiter.UpperBoundIsTight`).

## Model

| member | source | states |
|---|---|---|
| ChessRules.SidesAlternate | services/gameserver/src/server.cpp:238-245 | In a legal game white is to move exactly after an even number of moves |
| ChessRules.ExtendGame | services/gameserver/src/server.cpp:269-302 | One more legal move in a running game leaves a running game or a finished one, never a game that was over earlier |
| GameServer.IsLegal | services/gameserver/src/server.cpp:261-267 | The scan loop answers true exactly when the move is in the generated list |
| GameServer.Connection.CountMessage | services/gameserver/src/server.cpp:145-153 | The counter and window fields change as the limiter says, and the answer is the limiter's |
| GameServer.Server.BroadcastToRoom | services/gameserver/src/server.cpp:59-64 | Exactly the filled slots of the room are sent the message, white first |
| GameServer.Server.OnOpen | services/gameserver/src/server.cpp:118-124 | A fresh connection under the next id is registered and counted |
| GameServer.Server.OnMessage | services/gameserver/src/server.cpp:125-429 | Size check, limiter, JSON check and dispatch, in that order, with the same replies and nothing else changed |
| GameServer.Server.OnMoveMessage | services/gameserver/src/server.cpp:227-359 | The move handler changes the state as the move function says: turn and legality refused with their own texts, otherwise board, history, counter and broadcast |
| GameServer.Server.EndGame | services/gameserver/src/server.cpp:302-359 | On game over the result is announced, the report queued with the slot's user, and the room dropped |
| GameServer.Server.OnClose | services/gameserver/src/server.cpp:430-457 | The connection leaves the registry, its slot is emptied, the rest are told, and an empty room goes |
| GameServer.Server.Answer | services/gameserver/src/server.cpp:186-224 | A callback is refused or seats the connection, creating the room on a join when there is none |
| GameServer.Server.RunDeferred | services/gameserver/src/server.cpp:186-189 | A callback whose socket is no longer registered changes nothing but the list of callbacks |
| GameServer.Live | services/gameserver/src/server.h:45-83 | A server object that performs any run of events ends in the state the run theorems speak of |
| SessionEffects.OpenDoes | services/gameserver/src/server.cpp:118-124 | A new connection has the next id and no data, and nothing else changes |
| SessionEffects.TurnedDownDoes | services/gameserver/src/server.cpp:126-165 | A message that is too large, over the limit of ten, unreadable, of no known type, out of turn or illegal gets its own error text; nothing changes but its sender's window and inbox |
| SessionEffects.AskDoes | services/gameserver/src/server.cpp:169-176 | A join or resume that is let in queues one job with what the client sent, and changes nothing else |
| SessionEffects.MoveDoes | services/gameserver/src/server.cpp:275-359 | A move that is let in, in turn and legal goes into the board, the history and the counter, whether or not it is the last; the last one drops the room and queues a report of the whole game |
| SessionEffects.MoveHeard | services/gameserver/src/server.cpp:283-339 | Whoever holds a slot is told the move, the position and the side to move, and at the end the result and its reason; nobody else is told anything |
| SessionEffects.CloseDoes | services/gameserver/src/server.cpp:430-457 | The connection goes, its slot is emptied, the room goes if it is empty, and whoever is left in it is told, nobody else |
| SessionEffects.TurnedAwayDoes | services/gameserver/src/server.cpp:194-200 | A callback without a seat, or a resume of a match that has no room, tells the asker why and closes it, and does no more than that |
| SessionEffects.JoinDoes | services/gameserver/src/server.cpp:202-223 | An answered join seats the asker, in a new room at the start position if there was none, and tells it its colour, the position and its token; nobody else is told anything |
| SessionEffects.ResumeDoes | services/gameserver/src/server.cpp:401-420 | An answered resume seats the asker and tells it its colour, the position, all moves and its token; then whoever holds a slot is told that the opponent is back |
| SessionEffects.ResumeOpensNone | services/gameserver/src/server.cpp:391-399 | A resume never adds a room or a fate |
| SessionEffects.OnlyJoinsOpenRooms | services/gameserver/src/server.cpp:209-217 | On all runs a room comes into being only when a join for its match is answered |
| SessionEffects.VerifyDoes | services/gameserver/src/server.cpp:177-184 | A bad ticket comes back as a join without a seat; a good one goes on with the ticket's match and player and the client's colour |
| SessionEffects.TokenDoes | services/gameserver/src/server.cpp:180-186 | The new token comes back with the seat it was made for, to the connection that asked |
| SessionEffects.ResolveDoes | services/gameserver/src/server.cpp:369-379 | A bad resume token comes back as a resume without a seat; a good one goes on with its seat |
| SessionEffects.TakeDoes | services/gameserver/src/server.cpp:81-85 | A worker takes the oldest job and leaves the others in order |
| SessionEffects.ReportDoes | services/gameserver/src/server.cpp:354-356 | A finished report frees its worker and changes nothing else |
| SessionEffects.GoneDoes | services/gameserver/src/server.cpp:187-189 | A callback for a connection that is not registered does nothing |
| SessionInvariants.SoundAlways | services/gameserver/src/server.cpp:117-124 | On all runs: ids below the next id, `active_games_` is the number of rooms, `connected_sockets_` the number of sockets, every room has a filled slot, every job, task and callback carries an id already handed out, and at most four tasks run |
| SessionInvariants.GoneForGood | services/gameserver/src/server.cpp:118-124 | Ids are never reused: a connection once gone is gone at every later point of the run |
| SessionInvariants.LateCallbackDoesNothing | services/gameserver/src/server.cpp:376-379 | A callback for a connection closed earlier in the run leaves everything but itself as it was |
| SessionInvariants.CallbackKeepsOthers | services/gameserver/src/server.cpp:186-224 | A callback changes no data of any connection but the one that asked, and tells others at most that an opponent came or went: an answer and its token reach the asker only |
| Callbacks.EachAnsweredOnce | services/gameserver/src/server.cpp:172-189 | On all runs, for each connection: the joins and resumes let in are those answered by a callback for it and those still queued, with a worker, or on their way back |
| SessionHistory.RecordedAlways | services/gameserver/src/server.cpp:228-281 | On all runs: each room's board is its history replayed, each history legal and running; each ended room has one report with its moves and winner; the queue is the newest part of what was queued |
| SessionHistory.MovesAlternate | services/gameserver/src/server.cpp:238-281 | On all runs: an accepted move is white's exactly when an even number went before, and leaves a legal game that is running or just finished |
| SessionHistory.ReportsAreFinishedGames | services/gameserver/src/server.cpp:301-358 | On all runs: reported games end in a terminal position with no terminal proper prefix, and there are as many reports as rooms that ended |
| SessionHistory.MovesAlwaysCounted | services/gameserver/src/server.cpp:279-281 | On all runs: `moves_total_` is the moves of live rooms, of reported rooms and of rooms both players left |
| Seating.SlotsStep | services/gameserver/src/server.cpp:202-215 | A step keeps every slot pointing at a live connection that claims it exactly when it seats nobody who holds another slot |
| Seating.ExactStep | services/gameserver/src/server.cpp:401-410 | A step keeps slots and claims in agreement both ways exactly when the seat it hands out is free and unclaimed |
| Seating.SlotsStayTrue | services/gameserver/src/server.cpp:202-215 | Every slot holds a live connection that claims it, at every point of a run, exactly when the run respects the seat discipline |
| Seating.LiveStep | services/gameserver/src/server.cpp:430-457 | A step leaves no slot holding a closed connection exactly when whoever closes in it, or is turned away, holds no slot but the one its data names |
| Seating.NoSlotDangles | services/gameserver/src/server.cpp:430-457 | No slot holds a closed connection at any point of a run exactly when everyone who leaves along it holds no slot but its own |
| Seating.SeatingStaysExact | services/gameserver/src/server.cpp:186-215 | Slots and claims agree at every point of a run exactly when the run respects the claim discipline |
| Seating.GamesAtMostSockets | services/gameserver/src/server.cpp:216-217 | With true slots each room has a live connection of its own that sits in it, different for different rooms, so games never outnumber connections |
| ClientViews.ClientsSeeTheGame | services/gameserver/src/server.cpp:219-223 | Under seat discipline every client in a slot was shown the position it was seated in, was told exactly the moves played since, shows the room's position, and after a resume was also given the moves before |
| ClientViews.SeatedClientRebuilds | services/gameserver/src/server.cpp:280-290 | Playing the moves it was told from its snapshot's position gives a client the server's board; after a resume, given and told moves are the whole history |
| ClientViews.BroadcastReach | services/gameserver/src/server.cpp:59-64 | With two different occupants each gets a broadcast exactly once, and nobody else gets it |
| SocketLimiter.UpperBound | services/gameserver/src/server.cpp:145-158 | At most ten messages for each 1001 ms of a closed interval, rounded up, and ten more, pass |
| SocketLimiter.UpperBoundIsTight | services/gameserver/src/server.cpp:145-158 | For every length there is an interval of that length in which as many pass |
| SocketLimiter.OneSecondIsTight | services/gameserver/src/server.cpp:6-8 | Twenty messages within two milliseconds do pass |
| SocketLimiter.NoFalseRejection | services/gameserver/src/server.cpp:145-153 | Clients that leave a gap are never limited, for runs of any length, exactly when the gap is at least 101 ms |
| SessionLimits.WindowIsTheLimiters | services/gameserver/src/server.h:29-31 | On all runs a connection's window is the limiter's after exactly its own messages |
| SessionLimits.LimitedDoesNothing | services/gameserver/src/server.cpp:152-158 | On all runs a message over the limit is not looked at, whatever it says: its sender is told so, its window moves on, and nothing else changes |
| SessionLimits.ServerActsOnBoundedMessages | services/gameserver/src/server.cpp:137-158 | On all runs the messages of a connection that change anything beyond its window and inbox number at most ten for each 1001 ms of an interval, rounded up, and ten more |
| SessionLimits.PatientClientIsServed | services/gameserver/src/server.cpp:145-158 | On all runs a client that leaves 101 ms between messages is let in |
| WorkerPool.PoolAlways | services/gameserver/src/server.cpp:66-110 | Under all interleavings: while a worker sleeps, waiting jobs number at most the notifications on their way and the ready workers; started jobs are the oldest queued ones, in order |
| WorkerPool.QuietMeansEmpty | services/gameserver/src/server.cpp:74-76 | A pool with no ready worker, a sleeping one and no notification on its way has started everything |
| WorkerPool.StartsOldest | services/gameserver/src/server.cpp:78-85 | A step starts nothing or the oldest waiting job, and then at most four run |
| WorkerPool.LookStartsOldest | services/gameserver/src/server.cpp:73-85 | On all runs, stopping or not: a ready worker that looks while a job waits runs the oldest one, and nothing else changes |
| WorkerPool.LookFindsNothing | services/gameserver/src/server.cpp:74-79 | On all runs a ready worker that finds no job sleeps, or leaves if the pool is stopping |
| WorkerPool.PushDoes | services/gameserver/src/server.cpp:104-109 | A pushed job waits at the back, with a notification to come |
| WorkerPool.FreedWorkersLook | services/gameserver/src/server.cpp:70-76 | A worker that is done, or woken for no reason, looks at the queue again |
| WorkerPool.EveryJobIsStarted | services/gameserver/src/server.cpp:66-88 | A running pool that gets no more work comes to rest within a bound, under every interleaving, and has then started every job |
| WorkerPool.DrainedStep | services/gameserver/src/server.cpp:78-79 | Workers have left a drained queue only, exactly as long as nothing is queued after one left |
| WorkerPool.ShutdownRunsEverything | services/gameserver/src/server.cpp:91-102 | After stop, with nothing queued any more, every interleaving ends within a bound, and then all jobs were started and all workers left |
| WorkerPool.GrpcPool.LookForJob | services/gameserver/src/server.cpp:73-83 | A worker's turn under the lock: with a job waiting it runs the oldest one and the others wait; with none it leaves when stopping and sleeps otherwise |
| WorkerPool.Live | services/gameserver/src/server.cpp:66-110 | A pool object that lives through any run ends in the state the run theorems speak of |
| WorkerPool.GrpcPool.PushJob | services/gameserver/src/server.cpp:104-108 | The locked part of enqueueing adds one job at the back and one notification to come |
| Announcements.ResultsReachPlayers | services/gameserver/src/server.cpp:336-339 | On all runs: the results in each inbox are, in order, those of the rooms the connection sat in when they ended, one for each slot it held |
| Announcements.OneResultEach | services/gameserver/src/server.cpp:59-64 | Under seat discipline the end of a room is one message for whoever sat there, and none for anybody else |
| Ledger.ServerWithin | services/gameserver/src/server.cpp:175-189 | The game server inside any run of the whole system goes through a run of its own, so what holds on its runs holds there |
| Ledger.StoredOnce | services/gameserver/src/server.cpp:351-358 | On all runs, whatever clients do: stored games belong, one for one, to different rooms that ended, with that room's match, winner and moves |
| Ledger.StoredIsAnnounced | services/api/rpc/servicer.py:59-91 | On disciplined and honest runs each stored game is that of an ended and reported room of its own, finished by its moves, stored with the result announced, which those who sat there were told once and in its turn; the winner of a loss is its last mover; nothing is stored as abandoned |
| Ledger.StoredRightOnAllRuns | services/api/rpc/servicer.py:59-66 | On all runs, whatever clients do: a stored game has the announced result exactly when it was drawn or was reported as won by the player its match gives the mover's colour |
| Ledger.TokensNeverOutnumberJoins | services/gameserver/src/server.cpp:366-374 | On all runs of the whole system: a resume uses up a token and makes at most one, so live tokens and resumes about to get one never outnumber the tokens made for joins; each token is read back once at most |
| EndToEnd.GoodAlways | services/gameserver/src/server.cpp:341-356 | On those runs seats, tokens, tasks and ended rooms all name the players the match row gives their colours to |
| EndToEnd.ResultIsAnnounced | services/gameserver/src/server.cpp:336-339 | With exact seating, the result recorded for an ended room is the last message each of its players got |
| EndToEnd.StoredRightExactly | services/gameserver/src/server.cpp:341-349 | In any state of any run, the result that a finishing move's report will store for a match row agrees with the announced one exactly when a mate is delivered with the row's player in the mover's slot |
| EndToEnd.MoverWins | services/gameserver/src/server.cpp:303-312 | A mate is announced for the mover's colour and reported for whoever is in its slot; all else is a draw with no winner |
| WithoutDiscipline.SlotsCanDangle | services/gameserver/src/server.cpp:444-457 | A run of the system that breaks only the rule of free hands, after which a slot holds a closed connection and games outnumber connections |
| WithoutDiscipline.SecondTabLosesTheWin | services/gameserver/src/server.cpp:343-349 | A run of the system that breaks only the rule of sole claims, after which a win for black was announced and a draw is stored |
| WithoutDiscipline.SwappedColoursSwapTheResult | services/gameserver/src/server.cpp:169-171 | A run of the system that breaks only the rule of honest colours, after which a win for black was announced and one for white is stored |
| WithoutDiscipline.DisciplinedGameIsStored | services/api/rpc/servicer.py:71-91 | A run of the system that keeps all three rules, after which a win for black was announced and is stored |
| GameRecords.Database.ReportGameEnd | services/api/rpc/servicer.py:44-102 | Acknowledged exactly when the match is known and the database works; then one game is added and the match completed, otherwise nothing changes |
| GameRecords.TablesAlways | services/api/rpc/servicer.py:71-91 | On all runs a match is completed exactly when a game of it is stored, and each game carries its match's players and time control |
| GameRecords.ReportDoes | services/api/rpc/servicer.py:44-102 | A report that gets through adds one game with the match's players and time control, the result by the reported winner, the text of the moves and their number; any other changes nothing |
| GameRecords.MatchStays | services/api/matchmaking/matchmaking_helpers.py:27-46 | A match that was made is there with its players from then on |
| GameRecords.MovesReadBack | services/api/rpc/servicer.py:68-69 | The stored text gives back the moves exactly when there are any and none holds a blank; the stored count is then their number |
| ResumeTokens.PartCount | services/api/rpc/servicer.py:110-122 | A stored value splits into three parts and one more for each colon in its fields |
| ResumeTokens.RoundTrip | services/api/rpc/servicer.py:110-128 | Decoding gives back the seat exactly when its fields hold no colon, and otherwise fails |
| ResumeTokens.EachTokenOnce | services/api/rpc/servicer.py:104-120 | On all runs each token created is live, read back or expired, and only one of these, and is read back once at most |
| ResumeTokens.SpentIsDead | services/api/rpc/servicer.py:117-120 | A token read back or expired resolves to nothing from then on, whatever happens in between |
| ResumeTokens.LiveTokenAnswers | services/api/rpc/servicer.py:104-128 | From its creation until it is read back or expires, whatever else happens, a token answers with the seat it was made for, exactly when no field holds a colon |
| ResumeTokens.SpendingTakesOne | services/api/rpc/servicer.py:117 | Reading back or expiry takes the one token and leaves the others as they were |
| Ledger.TokenGivesItsSeat | services/gameserver/src/server.cpp:180-184 | On all runs of the whole system a token answers, until it is spent, with the seat of the task it was made for |
| Ledger.SpentAnswersNothing | services/gameserver/src/server.cpp:366-374 | On all runs of the whole system a token that was read back or expired answers with nothing ever after |
| ResumeTokens.ResumeServicer.ResolveResumeToken | services/api/rpc/servicer.py:115-128 | GETDEL and split: the answer is the stored seat, and the token is gone |
| ResumeTokens.ResumeServicer.CreateResumeToken | services/api/rpc/servicer.py:104-113 | The seat is stored under the fresh token, which then answers with it unless a field holds a colon |
| Matchmaking.NobodyLost | services/api/matchmaking/routes.py:47-95 | Under every interleaving entries are conserved, and lost only to a same-user pair or a failed insert |
| Matchmaking.ExactlyOnePlace | services/api/matchmaking/routes.py:47-95 | Each entry ever pushed is in exactly one of queue, one request's hand, a match, or the losses |
| Matchmaking.SerialPairing | services/api/matchmaking/routes.py:55-95 | On every run in which no request begins before the others are done, with any ids and users: arrivals 2k and 2k+1 become white and black of a match unless they are one user or the insert fails, each request is where the code puts it at every point, and at most one entry waits between requests |
| Matchmaking.SerialGoesOn | services/api/matchmaking/routes.py:48-81 | On those runs a request that is not answered has a next step |
| Matchmaking.TicketsAlwaysHeld | services/api/matchmaking/routes.py:110-113 | Under every interleaving each match left a ticket key for its other player, and a user's key names the latest match that did |
| Matchmaking.SerialTickets | services/api/matchmaking/routes.py:104-113 | On serial runs the requester is black and is handed its ticket, and the stored key of white names that match or a later one with the same white |
| Matchmaking.PairsStayInOrder | services/api/matchmaking/routes.py:64-81 | Under every interleaving: consecutive arrivals are paired all along a run, and the queue is the arrivals after them, exactly when no LPOP comes back with a single entry |
| Matchmaking.RequestersArePlayers | services/api/matchmaking/routes.py:64-110 | Under every interleaving: every requester is a player of the match it makes, all along a run, exactly when every LPOP of two gives a request its own user |
| Matchmaking.TicketsRight | services/api/matchmaking/routes.py:104-113 | On those runs the two tickets of every match name its two players |
| Matchmaking.TicketsNamePlayers | services/api/matchmaking/routes.py:104-113 | The two tickets name the two players exactly when the requester is one of them |
| Matchmaking.InterleavedTickets | services/api/matchmaking/routes.py:48-113 | Three interleaved requests after which the requester holds a ticket to a match between the other two |
| Matchmaking.Matchmaker.CreateMatch | services/api/matchmaking/matchmaking_helpers.py:17-54 | Equal players and failed inserts lose the pair; otherwise a match is added with the other player's ticket |
| Matchmaking.Matchmaker.Requeue | services/api/matchmaking/routes.py:72-74 | The loop puts what was popped back at the front, one entry after the other |
| Matchmaking.RequeueDoes | services/api/matchmaking/routes.py:68-81 | A request that popped too few puts them back where they were, and waits |
| HttpLimiter.AlwaysSound | services/api/middleware/rate_limit.py:39-46 | Under all interleavings: the key lacks a deadline exactly while one request is between its INCR and its EXPIRE, or when that EXPIRE was lost; lifetimes are more than a window apart; none admits more than the limit, unless that is zero and an EXPIRE was lost |
| HttpLimiter.DeadlineIsOneWindow | services/api/middleware/rate_limit.py:44-46 | EXPIRE gives the key `window_seconds` from then, and nothing else sets or moves a deadline |
| HttpLimiter.AdmitsUpToLimit | services/api/middleware/rate_limit.py:115 | A request is let through exactly when its lifetime of the key admitted fewer than the limit |
| HttpLimiter.SlidingBound | services/api/middleware/rate_limit.py:39-54 | No closed interval as long as the window admits more than twice the limit, even when an EXPIRE is lost (unless the limit is zero) |
| HttpLimiter.LockedOutExactly | services/api/middleware/rate_limit.py:44-57 | After any run nobody is ever admitted again exactly when an EXPIRE was lost and the limit is reached |
| HttpLimiter.LockoutHappens | services/api/middleware/rate_limit.py:44-57 | For every limit there is a run from the start that ends locked out |
| HttpLimiter.RateLimiter.CheckRateLimit | services/api/middleware/rate_limit.py:32-57 | One uninterrupted check: the count, the remaining requests and the reset time, and what INCR and EXPIRE leave behind; an error at INCR, EXPIRE or TTL answers as the error handler does |
| RefreshTokens.ChainsAlways | services/api/auth/jwt_routes.py:167-207 | On all runs of transactions rows form chains rooted at sign-ins, each row has at most one successor, each sign-in has one chain, and only its end can be unrevoked |
| RefreshTokens.RevokedForGood | services/api/auth/jwt_routes.py:187-191 | Rows keep their owner, and revocation is permanent |
| RefreshTokens.EachTokenRefreshesOnce | services/api/auth/jwt_routes.py:170-183 | A token accepted once is never accepted again |
| RefreshTokens.IssuedTokenWorks | services/api/auth/jwt_routes.py:170-183 | A token issued by a sign-in or a refresh is accepted until it expires, whatever happens to other tokens, and not after |
| RefreshTokens.LogoutDoes | services/api/auth/jwt_routes.py:231-245 | A logout revokes its token's row and no other; of an unknown token it changes nothing |
| RefreshTokens.LoggedOutForGood | services/api/auth/jwt_routes.py:231-245 | After a logout no run accepts the token again, at any time |
| RefreshTokens.NoSelectAfterLogout | services/api/auth/jwt_routes.py:170-183 | Under every interleaving no SELECT after the logout finds the token; only a refresh that had read it before can still go through |
| RefreshTokens.LiveAtMostSignIns | services/api/auth/jwt_routes.py:127-139 | A user's unrevoked tokens never outnumber the sign-ins |
| RefreshTokens.ChainsExactly | services/api/auth/jwt_routes.py:170-206 | Under every interleaving of SELECTs and writes the rows stay such chains throughout exactly when no refresh writes to a row that another refreshed since its SELECT |
| RefreshTokens.InTimeLiveBound | services/api/auth/jwt_routes.py:170-206 | On those interleaved runs a user's unrevoked tokens never outnumber the sign-ins |
| RefreshTokens.AtOnceIsTransaction | services/api/auth/jwt_routes.py:167-207 | A refresh whose writes follow its SELECT at once is in time and is the transaction |
| RefreshTokens.UnserialisedRefreshForks | services/api/auth/jwt_routes.py:170-206 | A run of two interleaved refreshes after which one row has two successors and its user two live tokens after one sign-in |
| RefreshTokens.TokenTable.RefreshToken | services/api/auth/jwt_routes.py:158-217 | Succeeds exactly for a genuine token whose row is unrevoked and unexpired; then the row is revoked and its successor added, otherwise nothing changes |
| Strings.SplitJoin | services/api/rpc/servicer.py:110-122 | Splitting undoes joining exactly when there is a part and none holds the separator |
| Matchmaking.Live | services/api/matchmaking/routes.py:25-81 | A queue object that lives through any run ends in the state the run theorems speak of |
| HttpLimiter.Live | services/api/middleware/rate_limit.py:32-57 | The same for the limiter |
| RefreshTokens.Live | services/api/auth/jwt_routes.py:121-245 | The same for the token table |
| ResumeTokens.Live | services/api/rpc/servicer.py:104-128 | The same for the token servicer |
| GameRecords.Live | services/api/rpc/servicer.py:44-102 | The same for the database |

## Left out

- Chess rules, FEN and UCI: library code that is not part of this model; `Rules` stands for it. UCI texts are parsed by an arbitrary function, so `MovesReadBack` needs its condition on blanks.
- JSON: a frame is too large, unreadable, or one of four messages; a field of the wrong JSON type, on which the parser throws, is not modelled.
- JWT, bcrypt and SHA-256: tokens are unforgeable, with fresh ids; VerifyMatchTicket's answer is a parameter.
- gRPC transport and generated code: a call is one step that may fail on the way there or back.
- Error counters, the move-duration histogram, audit events and logging; `username`, which no handler sets.
- PostgreSQL isolation: a transaction is one step, except that a refresh's SELECT and writes are also taken apart; a write takes effect at once.
- Redis errors in the HTTP limiter's runs: `check_rate_limit` lets the request through; there only the lost EXPIRE is modelled, and requests let through by an error at INCR or TTL are not in the log. What TTL answers is a parameter, and the response headers are left out.
- Matchmaking.Matchmaker.FinishRequest: the insert of a match and the SET of the other player's ticket are one step, though another request may run between them; nothing else reads the ticket keys.
- `get_ticket` and the 90-second life of tickets: a read and a delete of one key.
- Redis errors between RPUSH and LPOP, which leave the entry queued while the request fails.
- Ids are unbounded: the wrap-around of a 64-bit socket id is not modelled.
- The pool's jobs are numbers and `Session` has its own queue of the same shape; jobs there are taken oldest first by at most four workers.
- WebSocket back-pressure, the Redis client's life cycle, `config.cpp`, `get_client_ip`, migrations, dashboards, the frontend and the load tests.
