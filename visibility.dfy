/**
 * `_visible_squares` (fog_of_war/fog_of_war_chess.py): the squares one
 * colour sees, the fog drawn over the board for that colour. A colour sees
 * its own pieces, every square its non-pawn pieces reach (less its own), the
 * opposing pieces its pawns attack and the squares its pawns can push to.
 *
 * Each part is an or-fold over a scan. The source folds with
 * `reduce_with_bitwise_or`, which raises a TypeError on an empty list; the
 * corrected version folds from the empty bitboard. The en-passant branch is
 * kept as written: it tests the side to move rather than the colour asked
 * about and adds the pawns' own squares.
 */
module Visibility {
  import opened Wrappers
  import opened Squares
  import opened Bitboards
  import opened BitScan
  import opened Moves
  import opened Attacks
  import opened Game

  /** The game with the given colour's pieces as "ours": the viewpoint the fog is drawn from. */
  function SeenBy(g: FOWChess, color: bool): FOWChess
  {
    g.(turn := color)
  }

  /** The viewpoint's non-pawn pieces. */
  function PieceOrigins(h: FOWChess): Bitboard
  {
    Our(h) & !h.bitboards.pawns
  }

  /** The reach masks of some non-pawn origins, one per piece, or the first error `piece_at` raises. */
  function ReachMasks(h: FOWChess, frms: seq<Square>): Result<seq<Bitboard>>
    decreases |frms|
  {
    if frms == [] then Success([])
    else
      match NonPawnTargets(h, frms[0])
      case Failure(e) => Failure(e)
      case Success(t) => Prepend([t], ReachMasks(h, frms[1..]))
  }

  /** Some masks before the rest of a list, or the error that list raised. */
  function Prepend(ms: seq<Bitboard>, rest: Result<seq<Bitboard>>): (r: Result<seq<Bitboard>>)
    ensures r.Success? <==> rest.Success?
    ensures r.Success? ==> r.value == ms + rest.value
    ensures r.Failure? ==> r.error == rest.error
  {
    if rest.Failure? then Failure(rest.error) else Success(ms + rest.value)
  }

  /** The attack masks on some opposing pieces of pawns on some squares, one per pawn. */
  function AttackMasks(frms: seq<Square>, white: bool, their: Bitboard): (r: seq<Bitboard>)
    ensures |r| == |frms|
    ensures forall k :: 0 <= k < |r| ==> r[k] == PawnAttacks(frms[k], white) & their
  {
    seq(|frms|, k requires 0 <= k < |frms| => PawnAttacks(frms[k], white) & their)
  }

  /** The attack masks of the viewpoint's pawns on the opposing pieces. */
  function PawnAttackMasks(h: FOWChess): seq<Bitboard>
  {
    AttackMasks(SquaresOf(OurPawns(h)), h.turn, Their(h))
  }

  /**
   * The pawns the en-passant branch looks at: those of the viewpoint that an
   * opposing pawn on the en-passant square would attack, where "opposing" is
   * taken from the side to move (`not current_turn`).
   */
  function EnPassantPawns(g: FOWChess, h: FOWChess): Bitboard
    requires g.special.epBitboard != 0
  {
    PawnAttacks(EnPassantSquare(g), !g.turn) & OurPawns(h)
  }

  /** The en-passant branch as written: each of those pawns adds its own square. */
  function EnPassantMasks(g: FOWChess, h: FOWChess): seq<Bitboard>
    requires g.special.epBitboard != 0
  {
    SquareMasks(SquaresOf(EnPassantPawns(g, h)))
  }

  /** The pushes the viewpoint's pawns can make: one and two ranks forward onto empty squares. */
  function PushSight(h: FOWChess): Bitboard
  {
    SinglePushes(h) | DoublePushes(h)
  }

  // ---------------------------------------------------------------------
  // As written.

  /** The en-passant branch, which raises a TypeError when it finds no pawn. */
  function EnPassantSightAsWritten(g: FOWChess, h: FOWChess): Result<Bitboard>
  {
    if EnPassantOpen(g) then ReduceWithBitwiseOr(EnPassantMasks(g, h)) else Success(0)
  }

  /** `a | b` where either side may have raised: the first error, or the union. */
  function OrResults(a: Result<Bitboard>, b: Result<Bitboard>): (r: Result<Bitboard>)
    ensures r.Success? <==> a.Success? && b.Success?
    ensures r.Success? ==> r.value == a.value | b.value
    ensures r.Failure? ==> r.error == if a.Failure? then a.error else b.error
  {
    match a
    case Failure(e) => Failure(e)
    case Success(x) =>
      match b
      case Failure(e) => Failure(e)
      case Success(y) => Success(x | y)
  }

  /** What the viewpoint's pawns add, when it has any, as written. */
  function PawnSightAsWritten(g: FOWChess, h: FOWChess): Result<Bitboard>
  {
    if OurPawns(h) == 0 then Success(0)
    else OrResults(OrResults(ReduceWithBitwiseOr(PawnAttackMasks(h)), Success(PushSight(h))), EnPassantSightAsWritten(g, h))
  }

  /**
   * `_visible_squares(color)` as written: `piece_at` may raise, and each
   * `reduce` raises a TypeError on an empty list.
   */
  function VisibleAsWritten(g: FOWChess, color: bool): Result<Bitboard>
  {
    var h := SeenBy(g, color);
    match ReachMasks(h, SquaresOf(PieceOrigins(h)))
    case Failure(e) => Failure(e)
    case Success(masks) => OrResults(OrResults(Success(Our(h)), ReduceWithBitwiseOr(masks)), PawnSightAsWritten(g, h))
  }

  // ---------------------------------------------------------------------
  // Corrected: every fold starts from the empty bitboard.

  /** The en-passant branch folded from the empty bitboard. */
  function EnPassantSight(g: FOWChess, h: FOWChess): Bitboard
  {
    if EnPassantOpen(g) then OrAll(EnPassantMasks(g, h)) else 0
  }

  /** What the viewpoint's pawns add, when it has any. */
  function PawnSight(g: FOWChess, h: FOWChess): Bitboard
  {
    if OurPawns(h) == 0 then 0 else OrAll(PawnAttackMasks(h)) | PushSight(h) | EnPassantSight(g, h)
  }

  /** `_visible_squares(color)` with every fold starting from the empty bitboard; `piece_at` may still raise. */
  function Visible(g: FOWChess, color: bool): Result<Bitboard>
  {
    var h := SeenBy(g, color);
    match ReachMasks(h, SquaresOf(PieceOrigins(h)))
    case Failure(e) => Failure(e)
    case Success(masks) => Success(Our(h) | OrAll(masks) | PawnSight(g, h))
  }

  // ---------------------------------------------------------------------
  // Scans and indices.

  /** A member of a list sits at some index. */
  lemma IndexOf(xs: seq<Square>, x: Square) returns (k: nat)
    requires x in xs
    ensures k < |xs| && xs[k] == x
  {
    k :| 0 <= k < |xs| && xs[k] == x;
  }

  /** Some entry of a bitboard's scan satisfies a property exactly when some square of the bitboard does. */
  lemma ScanExists(b: Bitboard, p: Square -> bool)
    ensures (exists k :: 0 <= k < |SquaresOf(b)| && p(SquaresOf(b)[k])) <==> (exists t: Square :: Has(b, t) && p(t))
  {
    var frms := SquaresOf(b);
    if exists k :: 0 <= k < |frms| && p(frms[k]) {
      var k :| 0 <= k < |frms| && p(frms[k]);
      SquaresOfMembers(b, frms[k]);
    }
    if exists t: Square :: Has(b, t) && p(t) {
      var t: Square :| Has(b, t) && p(t);
      SquaresOfMembers(b, t);
      var k := IndexOf(frms, t);
    }
  }

  // ---------------------------------------------------------------------
  // The reach of the non-pawn pieces.

  /** The reach loop succeeds exactly when `piece_at` succeeds on every origin, and then lists their targets. */
  lemma {:induction false} ReachMasksSpec(h: FOWChess, frms: seq<Square>)
    ensures ReachMasks(h, frms).Success? <==> forall k :: 0 <= k < |frms| ==> NonPawnTargets(h, frms[k]).Success?
    ensures ReachMasks(h, frms).Success? ==>
      |ReachMasks(h, frms).value| == |frms|
      && forall k :: 0 <= k < |frms| ==> ReachMasks(h, frms).value[k] == NonPawnTargets(h, frms[k]).value
    decreases |frms|
  {
    if frms != [] {
      ReachMasksSpec(h, frms[1..]);
      assert forall k :: 1 <= k < |frms| ==> frms[1..][k - 1] == frms[k];
      if ReachMasks(h, frms).Success? {
        var ms := ReachMasks(h, frms).value;
        forall k | 0 <= k < |frms|
          ensures ms[k] == NonPawnTargets(h, frms[k]).value
        {
          if k > 0 {
            assert ms[k] == ReachMasks(h, frms[1..]).value[k - 1];
          }
        }
      }
    }
  }

  /** The viewpoint's non-pawn pieces reach a square its own pieces do not hold. */
  ghost predicate ReachedBy(h: FOWChess, s: Square)
  {
    exists frm: Square :: Has(PieceOrigins(h), frm) && !Has(Our(h), s) && PieceReaches(h, frm, s)
  }

  /** The fold of the reach masks of some pieces of the viewpoint holds exactly the squares one of them reaches. */
  lemma ReachFoldIndex(h: FOWChess, frms: seq<Square>, s: Square)
    requires ReachMasks(h, frms).Success?
    requires forall k :: 0 <= k < |frms| ==> Has(Our(h), frms[k])
    ensures Has(OrAll(ReachMasks(h, frms).value), s) <==>
      exists k :: 0 <= k < |frms| && !Has(Our(h), s) && PieceReaches(h, frms[k], s)
  {
    var ms := ReachMasks(h, frms).value;
    ReachMasksSpec(h, frms);
    OrAllHas(ms, s);
    forall k | 0 <= k < |frms|
      ensures Has(ms[k], s) <==> !Has(Our(h), s) && PieceReaches(h, frms[k], s)
    {
      NonPawnTargetsHas(h, frms[k], s);
    }
  }

  /** The scan of the non-pawn pieces lists pieces of the viewpoint. */
  lemma OriginsOurs(h: FOWChess)
    ensures forall k :: 0 <= k < |SquaresOf(PieceOrigins(h))| ==> Has(Our(h), SquaresOf(PieceOrigins(h))[k])
  {
    var frms := SquaresOf(PieceOrigins(h));
    forall k | 0 <= k < |frms|
      ensures Has(Our(h), frms[k])
    {
      SquaresOfMembers(PieceOrigins(h), frms[k]);
      AndHas(Our(h), !h.bitboards.pawns, frms[k]);
    }
  }

  /** The fold of the reach masks holds exactly the squares some non-pawn piece reaches. */
  lemma ReachFoldHas(h: FOWChess, s: Square)
    requires ReachMasks(h, SquaresOf(PieceOrigins(h))).Success?
    ensures Has(OrAll(ReachMasks(h, SquaresOf(PieceOrigins(h))).value), s) <==> ReachedBy(h, s)
  {
    OriginsOurs(h);
    ReachFoldIndex(h, SquaresOf(PieceOrigins(h)), s);
    ScanExists(PieceOrigins(h), (t: Square) => !Has(Our(h), s) && PieceReaches(h, t, s));
  }

  // ---------------------------------------------------------------------
  // The pawns.

  /** The fold of some masks, each a part of one bitboard, holds the square when one of the masks does. */
  lemma AndFoldIndex(ms: seq<Bitboard>, bs: seq<Bitboard>, their: Bitboard, s: Square)
    requires |ms| == |bs| && forall k :: 0 <= k < |ms| ==> ms[k] == bs[k] & their
    ensures Has(OrAll(ms), s) <==> exists k :: 0 <= k < |bs| && Has(their, s) && Has(bs[k], s)
  {
    OrAllHas(ms, s);
    forall k | 0 <= k < |ms|
      ensures Has(ms[k], s) <==> Has(their, s) && Has(bs[k], s)
    {
      AndPart(ms[k], bs[k], their, s);
    }
  }

  /** A square is in a part of two bitboards exactly when it is in both. */
  lemma AndPart(m: Bitboard, a: Bitboard, b: Bitboard, s: Square)
    requires m == a & b
    ensures Has(m, s) <==> Has(a, s) && Has(b, s)
  {
    AndHas(a, b, s);
  }

  /** The fold of some pawns' attack masks holds exactly the opposing pieces one of them attacks. */
  lemma AttackFoldIndex(frms: seq<Square>, white: bool, their: Bitboard, s: Square)
    ensures Has(OrAll(AttackMasks(frms, white, their)), s) <==>
      exists k :: 0 <= k < |frms| && Has(their, s) && Has(PawnAttacks(frms[k], white), s)
  {
    var bs := AttackBoards(frms, white);
    AndFoldIndex(AttackMasks(frms, white, their), bs, their, s);
    AttackBoardsIndex(frms, white, their, s);
  }

  /** The attack boards of some pawns, before the opposing pieces are masked in. */
  function AttackBoards(frms: seq<Square>, white: bool): (bs: seq<Bitboard>)
    ensures |bs| == |frms| && forall k :: 0 <= k < |frms| ==> bs[k] == PawnAttacks(frms[k], white)
  {
    seq(|frms|, k requires 0 <= k < |frms| => PawnAttacks(frms[k], white))
  }

  /** Some attack board holds the square exactly when some pawn attacks it. */
  lemma AttackBoardsIndex(frms: seq<Square>, white: bool, their: Bitboard, s: Square)
    ensures (exists k :: 0 <= k < |AttackBoards(frms, white)| && Has(their, s) && Has(AttackBoards(frms, white)[k], s))
      <==> exists k :: 0 <= k < |frms| && Has(their, s) && Has(PawnAttacks(frms[k], white), s)
  {
    var bs := AttackBoards(frms, white);
    if exists k :: 0 <= k < |bs| && Has(their, s) && Has(bs[k], s) {
      var k :| 0 <= k < |bs| && Has(their, s) && Has(bs[k], s);
      assert Has(PawnAttacks(frms[k], white), s);
    }
    if exists k :: 0 <= k < |frms| && Has(their, s) && Has(PawnAttacks(frms[k], white), s) {
      var k :| 0 <= k < |frms| && Has(their, s) && Has(PawnAttacks(frms[k], white), s);
      assert Has(bs[k], s);
    }
  }

  /** The viewpoint's pawns attack an opposing piece on a square. */
  ghost predicate PawnAttacked(h: FOWChess, s: Square)
  {
    exists frm: Square :: Has(OurPawns(h), frm) && Has(Their(h), s) && Has(PawnAttacks(frm, h.turn), s)
  }

  /** The fold of the pawn attack masks holds exactly the opposing pieces some pawn attacks. */
  lemma PawnAttackFoldHas(h: FOWChess, s: Square)
    ensures Has(OrAll(PawnAttackMasks(h)), s) <==> PawnAttacked(h, s)
  {
    AttackFoldIndex(SquaresOf(OurPawns(h)), h.turn, Their(h), s);
    ScanExists(OurPawns(h), (t: Square) => Has(Their(h), s) && Has(PawnAttacks(t, h.turn), s));
  }

  /**
   * The en-passant branch only adds squares of the viewpoint's own pawns,
   * which the viewpoint sees already: as written it reveals nothing.
   */
  lemma EnPassantSightOwn(g: FOWChess, h: FOWChess, s: Square)
    ensures Has(EnPassantSight(g, h), s) ==> Has(OurPawns(h), s)
  {
    if EnPassantOpen(g) {
      ScanRebuilds(EnPassantPawns(g, h), s);
      AndHas(PawnAttacks(EnPassantSquare(g), !g.turn), OurPawns(h), s);
    } else {
      EmptyHasNothing(s);
    }
  }
}
