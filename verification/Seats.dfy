/** The place a player is given in a match, as tickets, tokens and connections name it. */
module Seats {
  datatype Seat = Seat(gameId: string, userId: string, color: string)
}
