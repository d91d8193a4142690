/**
 * The move record (move.py). A plain move names its target and origin;
 * castling also names the rook's target and origin; a promotion keeps the
 * pawn's square as both target and origin and names the new piece.
 * Moves are compared field by field, as datatype values are.
 */
module Moves {
  import opened Wrappers
  import opened Squares
  import opened Pieces

  datatype Move = Move(
    to: Square,
    frm: Square,
    rookTo: Option<Square>,
    rookFrm: Option<Square>,
    promotionTo: Option<Piece>)

  predicate IsCastling(m: Move)
  {
    m.rookTo.Some?
  }

  predicate IsPromotion(m: Move)
  {
    m.promotionTo.Some?
  }

  /** `Move(to, frm)`: the three optional fields default to None. */
  function SimpleMove(to: Square, frm: Square): (m: Move)
    ensures m.to == to && m.frm == frm
    ensures !IsCastling(m) && !IsPromotion(m) && m.rookFrm.None?
  {
    Move(to, frm, None, None, None)
  }

  /** A castling move: the king goes frm -> to, the rook rookFrm -> rookTo. */
  function CastlingMove(to: Square, frm: Square, rookTo: Square, rookFrm: Square): (m: Move)
    ensures IsCastling(m) && !IsPromotion(m)
    ensures m.to == to && m.frm == frm && m.rookTo == Some(rookTo) && m.rookFrm == Some(rookFrm)
  {
    Move(to, frm, Some(rookTo), Some(rookFrm), None)
  }

  /** A promotion of the pawn on a square: target and origin are that square. */
  function PromotionMove(pawn: Square, piece: Piece): (m: Move)
    ensures IsPromotion(m) && !IsCastling(m)
    ensures m.to == pawn && m.frm == pawn && m.promotionTo == Some(piece)
  {
    Move(pawn, pawn, None, None, Some(piece))
  }
}
