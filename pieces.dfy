/**
 * The piece encoding (the `piece` module, which is not part of this model):
 * a signed integer whose magnitude 1..6 is pawn, knight, bishop, rook,
 * queen, king and whose sign is the colour, positive for white.
 */
module Pieces {
  import opened Wrappers

  type Piece = p: int | -6 <= p <= 6 && p != 0 witness 1

  const Pawn: Piece := 1
  const Knight: Piece := 2
  const Bishop: Piece := 3
  const Rook: Piece := 4
  const Queen: Piece := 5
  const King: Piece := 6

  /** `Piece(v)`: the enum lookup, a ValueError for a value that is no piece (0 among them). */
  function PieceOf(v: int): (r: Result<Piece>)
    ensures r.Success? <==> -6 <= v <= 6 && v != 0
    ensures r.Success? ==> r.value == v
  {
    if -6 <= v <= 6 && v != 0 then Success(v) else Failure(ValueError)
  }

  /** The piece type, 1 for a pawn up to 6 for a king, whatever the colour. */
  function Kind(p: Piece): (k: int)
    ensures 1 <= k <= 6
    ensures k == p as int || k == -(p as int)
  {
    if p < 0 then -(p as int) else p as int
  }

  predicate IsWhite(p: Piece)
  {
    p > 0
  }

  /** A piece is its colour's sign times its type. */
  lemma KindAndColour(p: Piece)
    ensures p as int == (if IsWhite(p) then Kind(p) else -Kind(p))
  {
  }

  /** Looking a piece up by its own value gives it back. */
  lemma PieceOfRoundTrip(p: Piece)
    ensures PieceOf(p as int) == Success(p)
  {
  }
}
