/**
 * `_visible_squares` (fog_of_war/fog_of_war_chess.py) as the source runs
 * it: `visible` starts empty and each part is or-ed into it in turn, the
 * reach of the non-pawn pieces by a loop over their scan that stops where
 * `piece_at` raises. Every fold starts from the empty bitboard, so the
 * method is proved equal to the corrected fog of the visibility module,
 * whose properties are proved there.
 */
module Fog {
  import opened Wrappers
  import opened Squares
  import opened Bitboards
  import opened BitScan
  import opened Game
  import opened Visibility
  import VisibilitySpec

  /** An or-fold over some bitboards, from the empty bitboard. */
  method OrFold(bs: seq<Bitboard>) returns (acc: Bitboard)
    ensures acc == OrAll(bs)
  {
    acc := 0;
    var i := 0;
    while i < |bs|
      invariant 0 <= i <= |bs|
      invariant acc == OrAll(bs[..i])
    {
      assert bs[..i + 1] == bs[..i] + [bs[i]];
      OrAllAppend(bs[..i], bs[i]);
      acc := acc | bs[i];
      i := i + 1;
    }
    assert bs[..i] == bs;
  }

  /** Some masks, then one more, before the rest of a list. */
  lemma PrependAppend(done: seq<Bitboard>, t: Bitboard, rest: Result<seq<Bitboard>>)
    ensures Prepend(done, Prepend([t], rest)) == Prepend(done + [t], rest)
  {
    if rest.Success? {
      assert done + ([t] + rest.value) == (done + [t]) + rest.value;
    }
  }

  /**
   * The fold of the reach masks: for each origin in turn its targets, or
   * the error `piece_at` raises there, which ends the fold.
   */
  method ReachFold(h: FOWChess, frms: seq<Square>) returns (r: Result<Bitboard>)
    ensures r.Success? <==> ReachMasks(h, frms).Success?
    ensures r.Failure? ==> r.error == ReachMasks(h, frms).error
    ensures r.Success? ==> r.value == OrAll(ReachMasks(h, frms).value)
  {
    var acc: Bitboard := 0;
    ghost var done: seq<Bitboard> := [];
    var i := 0;
    if ReachMasks(h, frms).Success? {
      assert [] + ReachMasks(h, frms).value == ReachMasks(h, frms).value;
    }
    while i < |frms|
      invariant 0 <= i <= |frms|
      invariant ReachMasks(h, frms) == Prepend(done, ReachMasks(h, frms[i..]))
      invariant acc == OrAll(done)
    {
      assert frms[i..][0] == frms[i] && frms[i..][1..] == frms[i + 1..];
      var targets := NonPawnTargets(h, frms[i]);
      if targets.Failure? {
        return Failure(targets.error);
      }
      PrependAppend(done, targets.value, ReachMasks(h, frms[i + 1..]));
      OrAllAppend(done, targets.value);
      done := done + [targets.value];
      acc := acc | targets.value;
      i := i + 1;
    }
    assert frms[i..] == [];
    assert done + [] == done;
    return Success(acc);
  }

  /** The en-passant branch or-ed into `visible`, when an en-passant square is open. */
  method AddEnPassantSight(g: FOWChess, h: FOWChess, visible: Bitboard) returns (v: Bitboard)
    ensures v == visible | EnPassantSight(g, h)
  {
    if EnPassantOpen(g) {
      var ep := OrFold(EnPassantMasks(g, h));
      v := visible | ep;
    } else {
      v := visible;
    }
  }

  /**
   * The pawn part or-ed into `visible`, when the colour has pawns: their
   * attacks on opposing pieces, their single and double pushes, then the
   * en-passant branch.
   */
  method AddPawnSight(g: FOWChess, h: FOWChess, visible: Bitboard) returns (v: Bitboard)
    ensures v == visible | PawnSight(g, h)
  {
    if OurPawns(h) == 0 {
      return visible;
    }
    var pawnAttacks := OrFold(PawnAttackMasks(h));
    var pushes := SinglePushes(h) | DoublePushes(h);
    var w := (visible | pawnAttacks) | pushes;
    v := AddEnPassantSight(g, h, w);
    PawnSteps(visible, pawnAttacks, pushes, EnPassantSight(g, h));
  }

  /** The order in which the pawn part is or-ed in does not matter. */
  lemma PawnSteps(v: Bitboard, a: Bitboard, p: Bitboard, e: Bitboard)
    ensures ((v | a) | p) | e == v | (a | p | e)
  {
  }

  /** The fog or-ed in from the empty bitboard is the union of its parts. */
  lemma Glue(ours: Bitboard, reach: Bitboard, pawns: Bitboard, v: Bitboard)
    requires v == ((0 | ours) | reach) | pawns
    ensures v == ours | reach | pawns
  {
  }

  /** The corrected fog once the reach loop has succeeded, over names for its parts. */
  lemma CorrectedIs(g: FOWChess, color: bool, h: FOWChess, ms: seq<Bitboard>, v: Bitboard)
    requires h == SeenBy(g, color) && ReachMasks(h, SquaresOf(PieceOrigins(h))) == Success(ms)
    requires v == Our(h) | OrAll(ms) | PawnSight(g, h)
    ensures Visible(g, color) == Success(v)
  {
    VisibilitySpec.CorrectedParts(g, color);
  }

  /** The fog as the steps of the source build it, over names for the steps. */
  lemma FogIs(g: FOWChess, color: bool, h: FOWChess, ms: seq<Bitboard>, pawnSight: Bitboard, w: Bitboard, v: Bitboard)
    requires h == SeenBy(g, color) && ReachMasks(h, SquaresOf(PieceOrigins(h))) == Success(ms)
    requires pawnSight == PawnSight(g, h)
    requires w == (0 | Our(h)) | OrAll(ms)
    requires v == w | pawnSight
    ensures Visible(g, color) == Success(v)
  {
    Glue(Our(h), OrAll(ms), pawnSight, v);
    CorrectedIs(g, color, h, ms, v);
  }

  /** The fog raises what the reach loop raises. */
  lemma ReachFailIs(g: FOWChess, color: bool, h: FOWChess, e: Error)
    requires h == SeenBy(g, color) && ReachMasks(h, SquaresOf(PieceOrigins(h))) == Failure(e)
    ensures Visible(g, color) == Failure(e)
  {
  }

  /** The reach of the non-pawn pieces or-ed into `visible`, or the error `piece_at` raises. */
  method AddReach(h: FOWChess, visible: Bitboard) returns (r: Result<Bitboard>)
    ensures r.Success? <==> ReachMasks(h, SquaresOf(PieceOrigins(h))).Success?
    ensures r.Failure? ==> r.error == ReachMasks(h, SquaresOf(PieceOrigins(h))).error
    ensures r.Success? ==> r.value == visible | OrAll(ReachMasks(h, SquaresOf(PieceOrigins(h))).value)
  {
    var frms := ReverseScanForSquare(PieceOrigins(h));
    var pieceMoves := ReachFold(h, frms);
    if pieceMoves.Failure? {
      return Failure(pieceMoves.error);
    }
    return Success(visible | pieceMoves.value);
  }

  /**
   * `_visible_squares(color)`: the colour's pieces, then the reach of its
   * non-pawn pieces, then what its pawns add. It raises where `piece_at`
   * does.
   */
  method VisibleSquares(g: FOWChess, color: bool) returns (r: Result<Bitboard>)
    ensures r == Visible(g, color)
  {
    var h := SeenBy(g, color);
    var visible: Bitboard := 0;
    visible := visible | Our(h);
    r := FogAfterOwn(g, color, h, visible);
  }

  /** The rest of the fog once the colour's own pieces are in: the reach, then the pawns. */
  method FogAfterOwn(g: FOWChess, color: bool, h: FOWChess, visible: Bitboard) returns (r: Result<Bitboard>)
    requires h == SeenBy(g, color) && visible == 0 | Our(h)
    ensures r == Visible(g, color)
  {
    var withReach := AddReach(h, visible);
    if withReach.Failure? {
      ReachFailIs(g, color, h, withReach.error);
      return Failure(withReach.error);
    }
    r := FogAfterReach(g, color, h, ReachMasks(h, SquaresOf(PieceOrigins(h))).value, withReach.value);
  }

  /** The rest of the fog once the reach is in: what the pawns add. */
  method FogAfterReach(g: FOWChess, color: bool, h: FOWChess, ghost ms: seq<Bitboard>, visible: Bitboard)
    returns (r: Result<Bitboard>)
    requires h == SeenBy(g, color) && ReachMasks(h, SquaresOf(PieceOrigins(h))) == Success(ms)
    requires visible == (0 | Our(h)) | OrAll(ms)
    ensures r == Visible(g, color)
  {
    var v := AddPawnSight(g, h, visible);
    FogIs(g, color, h, ms, PawnSight(g, h), visible, v);
    r := Success(v);
  }
}
