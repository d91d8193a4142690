/**
 * What the fog holds: the or-folds of the visibility module unfolded into
 * statements about single squares, the moves the fog must show, and the
 * as-written folds compared with the corrected ones.
 */
module VisibilitySpec {
  import opened Wrappers
  import opened Squares
  import opened Bitboards
  import opened BitScan
  import opened Moves
  import opened Attacks
  import opened Game
  import opened Visibility

  /** Without pawns there are no pushes. */
  lemma PushesWithoutPawns(h: FOWChess)
    requires OurPawns(h) == 0
    ensures PushSight(h) == 0
  {
    if h.turn {
      assert SinglePushes(h) == 0;
    } else {
      assert SinglePushes(h) == 0;
    }
  }

  /** Three parts of a union, one known exactly, one only from above. */
  lemma UnionGlue(v: Bitboard, a: Bitboard, b: Bitboard, c: Bitboard, s: Square, inA: bool, below: bool)
    requires v == a | b | c
    requires Has(a, s) <==> inA
    requires Has(c, s) ==> below
    ensures Has(v, s) ==> inA || Has(b, s) || below
    ensures inA || Has(b, s) ==> Has(v, s)
  {
    OrHas(a, b, s);
    OrHas(a | b, c, s);
  }

  /**
   * The pawn part of the fog holds the opposing pieces the pawns attack and
   * the squares they push to, and besides them only own pawns.
   */
  lemma PawnSightHas(g: FOWChess, h: FOWChess, s: Square)
    ensures PawnAttacked(h, s) || Has(PushSight(h), s) ==> Has(PawnSight(g, h), s)
    ensures Has(PawnSight(g, h), s) ==> PawnAttacked(h, s) || Has(PushSight(h), s) || Has(OurPawns(h), s)
  {
    if OurPawns(h) == 0 {
      NoPawnSight(g, h, s);
    } else {
      PawnSightNamedHas(g, h, s, PawnSight(g, h), OrAll(PawnAttackMasks(h)), PushSight(h), EnPassantSight(g, h),
        PawnAttacked(h, s), Has(OurPawns(h), s));
    }
  }

  /** Without pawns nothing is attacked, nothing pushed to and nothing added. */
  lemma NoPawnSight(g: FOWChess, h: FOWChess, s: Square)
    requires OurPawns(h) == 0
    ensures !PawnAttacked(h, s) && !Has(PushSight(h), s) && !Has(PawnSight(g, h), s)
  {
    EmptyHasNothing(s);
    PushesWithoutPawns(h);
  }

  /** The parts of the pawn sight and what each holds, over names for them. */
  lemma PawnSightNamed(g: FOWChess, h: FOWChess, s: Square, v: Bitboard, attacks: Bitboard, pushes: Bitboard,
                       ep: Bitboard, attacked: bool, ownPawn: bool)
    requires OurPawns(h) != 0
    requires v == PawnSight(g, h) && attacks == OrAll(PawnAttackMasks(h))
    requires pushes == PushSight(h) && ep == EnPassantSight(g, h)
    requires attacked == PawnAttacked(h, s) && ownPawn == Has(OurPawns(h), s)
    ensures v == attacks | pushes | ep && (Has(attacks, s) <==> attacked) && (Has(ep, s) ==> ownPawn)
  {
    PawnSightParts(g, h, s);
  }

  /** The pawn sight over names for its parts. */
  lemma PawnSightNamedHas(g: FOWChess, h: FOWChess, s: Square, v: Bitboard, attacks: Bitboard, pushes: Bitboard,
                          ep: Bitboard, attacked: bool, ownPawn: bool)
    requires OurPawns(h) != 0
    requires v == PawnSight(g, h) && attacks == OrAll(PawnAttackMasks(h))
    requires pushes == PushSight(h) && ep == EnPassantSight(g, h)
    requires attacked == PawnAttacked(h, s) && ownPawn == Has(OurPawns(h), s)
    ensures attacked || Has(pushes, s) ==> Has(v, s)
    ensures Has(v, s) ==> attacked || Has(pushes, s) || ownPawn
  {
    PawnSightNamed(g, h, s, v, attacks, pushes, ep, attacked, ownPawn);
    UnionGlue(v, attacks, pushes, ep, s, attacked, ownPawn);
  }

  lemma PawnSightParts(g: FOWChess, h: FOWChess, s: Square)
    requires OurPawns(h) != 0
    ensures PawnSight(g, h) == OrAll(PawnAttackMasks(h)) | PushSight(h) | EnPassantSight(g, h)
    ensures Has(OrAll(PawnAttackMasks(h)), s) <==> PawnAttacked(h, s)
    ensures Has(EnPassantSight(g, h), s) ==> Has(OurPawns(h), s)
  {
    PawnAttackFoldHas(h, s);
    EnPassantSightOwn(g, h, s);
  }

  // ---------------------------------------------------------------------
  // The whole fog.

  /** The fog is drawn exactly when `piece_at` succeeds on every non-pawn piece of the colour. */
  lemma VisibleFails(g: FOWChess, color: bool)
    ensures var h := SeenBy(g, color);
      Visible(g, color).Failure? <==>
        exists frm: Square :: Has(PieceOrigins(h), frm) && NonPawnTargets(h, frm).Failure?
  {
    var h := SeenBy(g, color);
    var frms := SquaresOf(PieceOrigins(h));
    ReachMasksSpec(h, frms);
    ScanExists(PieceOrigins(h), (t: Square) => NonPawnTargets(h, t).Failure?);
  }

  /** The three parts of the fog, one known exactly, one only from above. */
  lemma FogGlue(v: Bitboard, our: Bitboard, reach: Bitboard, pawns: Bitboard, s: Square,
                reached: bool, sees: bool, ownPawn: bool)
    requires v == our | reach | pawns
    requires Has(reach, s) <==> reached
    requires sees ==> Has(pawns, s)
    requires Has(pawns, s) ==> sees || ownPawn
    requires ownPawn ==> Has(our, s)
    ensures Has(v, s) <==> Has(our, s) || reached || sees
  {
    OrHas(our, reach, s);
    OrHas(our | reach, pawns, s);
    FogCases(Has(v, s), Has(our, s), Has(reach, s), Has(pawns, s), Has(our | reach, s), reached, sees, ownPawn);
  }

  /** The propositional step of the fog glue. */
  lemma FogCases(inV: bool, inOur: bool, inReach: bool, inPawns: bool, inOurOrReach: bool,
                 reached: bool, sees: bool, ownPawn: bool)
    requires inV <==> inOurOrReach || inPawns
    requires inOurOrReach <==> inOur || inReach
    requires inReach <==> reached
    requires sees ==> inPawns
    requires inPawns ==> sees || ownPawn
    requires ownPawn ==> inOur
    ensures inV <==> inOur || reached || sees
  {
  }

  /**
   * A colour sees exactly its own pieces, the squares its non-pawn pieces
   * reach, the opposing pieces its pawns attack and the squares its pawns can
   * push to.
   */
  lemma VisibleSpec(g: FOWChess, color: bool, s: Square)
    requires Visible(g, color).Success?
    ensures Has(Visible(g, color).value, s) <==>
      || Has(Our(SeenBy(g, color)), s)
      || ReachedBy(SeenBy(g, color), s)
      || PawnAttacked(SeenBy(g, color), s)
      || Has(PushSight(SeenBy(g, color)), s)
  {
    var h := SeenBy(g, color);
    VisibleNamed(g, color, h, s, Has(Visible(g, color).value, s), Has(Our(h), s),
      ReachedBy(h, s), PawnAttacked(h, s), Has(PushSight(h), s));
  }

  /** The fog over names for what the colour sees. */
  lemma VisibleNamed(g: FOWChess, color: bool, h: FOWChess, s: Square, visible: bool, own: bool,
                     reached: bool, attacked: bool, pushed: bool)
    requires Visible(g, color).Success? && h == SeenBy(g, color)
    requires visible == Has(Visible(g, color).value, s) && own == Has(Our(h), s)
    requires reached == ReachedBy(h, s) && attacked == PawnAttacked(h, s) && pushed == Has(PushSight(h), s)
    ensures visible <==> own || reached || attacked || pushed
  {
    var ms := VisibleReach(g, color);
    FogNamedHas(g, h, ms, s, Our(h), OrAll(ms), PawnSight(g, h),
      ReachedBy(h, s), PawnAttacked(h, s), Has(PushSight(h), s), Has(OurPawns(h), s));
  }

  /** A drawn fog comes from a successful reach loop, and is the union of its three parts. */
  lemma VisibleReach(g: FOWChess, color: bool) returns (ms: seq<Bitboard>)
    requires Visible(g, color).Success?
    ensures ReachMasks(SeenBy(g, color), SquaresOf(PieceOrigins(SeenBy(g, color)))) == Success(ms)
    ensures Visible(g, color).value == Our(SeenBy(g, color)) | OrAll(ms) | PawnSight(g, SeenBy(g, color))
  {
    var h := SeenBy(g, color);
    ms := ReachMasks(h, SquaresOf(PieceOrigins(h))).value;
  }

  /** The parts of the fog and what each holds, over names for them. */
  lemma FogNamed(g: FOWChess, h: FOWChess, ms: seq<Bitboard>, s: Square, our: Bitboard, reach: Bitboard,
                 pawns: Bitboard, reached: bool, attacked: bool, pushed: bool, ownPawn: bool)
    requires ReachMasks(h, SquaresOf(PieceOrigins(h))) == Success(ms)
    requires our == Our(h) && reach == OrAll(ms) && pawns == PawnSight(g, h)
    requires reached == ReachedBy(h, s) && attacked == PawnAttacked(h, s)
    requires pushed == Has(PushSight(h), s) && ownPawn == Has(OurPawns(h), s)
    ensures Has(reach, s) <==> reached
    ensures attacked || pushed ==> Has(pawns, s)
    ensures Has(pawns, s) ==> attacked || pushed || ownPawn
    ensures ownPawn ==> Has(our, s)
  {
    ReachFoldHas(h, s);
    PawnSightHas(g, h, s);
    AndHas(h.bitboards.pawns, Our(h), s);
  }

  /** The fog over names for its parts. */
  lemma FogNamedHas(g: FOWChess, h: FOWChess, ms: seq<Bitboard>, s: Square, our: Bitboard,
                    reach: Bitboard, pawns: Bitboard, reached: bool, attacked: bool, pushed: bool, ownPawn: bool)
    requires ReachMasks(h, SquaresOf(PieceOrigins(h))) == Success(ms)
    requires our == Our(h) && reach == OrAll(ms) && pawns == PawnSight(g, h)
    requires reached == ReachedBy(h, s) && attacked == PawnAttacked(h, s)
    requires pushed == Has(PushSight(h), s) && ownPawn == Has(OurPawns(h), s)
    ensures Has(our | reach | pawns, s) <==> Has(our, s) || reached || attacked || pushed
  {
    FogNamed(g, h, ms, s, our, reach, pawns, reached, attacked, pushed, ownPawn);
    FogGlue(our | reach | pawns, our, reach, pawns, s, reached, attacked || pushed, ownPawn);
  }

  /** A colour always sees its own pieces. */
  lemma VisibleOwnPieces(g: FOWChess, color: bool, s: Square)
    requires Visible(g, color).Success? && Has(OccupiedByColor(g, color), s)
    ensures Has(Visible(g, color).value, s)
  {
    VisibleSpec(g, color, s);
  }

  /** A square the colour's non-pawn pieces reach is visible to it. */
  lemma ReachedVisible(g: FOWChess, color: bool, s: Square)
    requires Visible(g, color).Success? && ReachedBy(SeenBy(g, color), s)
    ensures Has(Visible(g, color).value, s)
  {
    VisibleSpec(g, color, s);
  }

  /** A square the colour's pawns see is visible to it. */
  lemma PawnSeenVisible(g: FOWChess, color: bool, s: Square)
    requires Visible(g, color).Success?
    requires PawnAttacked(SeenBy(g, color), s) || Has(PushSight(SeenBy(g, color)), s)
    ensures Has(Visible(g, color).value, s)
  {
    VisibleSpec(g, color, s);
  }

  /**
   * Every square a non-pawn move, a pawn capture, a push or a promotion of
   * the mover goes to is visible to the mover.
   */
  lemma MoveTargetsVisible(g: FOWChess, mv: Move)
    requires Visible(g, g.turn).Success?
    requires NonPawnMoveOf(g, mv) || PawnCaptureOf(g, mv) || SinglePushOf(g, mv) || DoublePushOf(g, mv) || PromotionOf(g, mv)
    ensures Has(Visible(g, g.turn).value, mv.to)
  {
    if NonPawnMoveOf(g, mv) {
      NonPawnTargetVisible(g, mv);
    } else if PawnCaptureOf(g, mv) {
      CaptureTargetVisible(g, mv);
    } else if SinglePushOf(g, mv) {
      SinglePushTargetVisible(g, mv);
    } else if DoublePushOf(g, mv) {
      DoublePushTargetVisible(g, mv);
    } else {
      PromotionTargetVisible(g, mv);
    }
  }

  lemma NonPawnTargetVisible(g: FOWChess, mv: Move)
    requires Visible(g, g.turn).Success? && NonPawnMoveOf(g, mv)
    ensures Has(Visible(g, g.turn).value, mv.to)
  {
    assert SeenBy(g, g.turn) == g;
    assert ReachedBy(g, mv.to);
    ReachedVisible(g, g.turn, mv.to);
  }

  lemma CaptureTargetVisible(g: FOWChess, mv: Move)
    requires Visible(g, g.turn).Success? && PawnCaptureOf(g, mv)
    ensures Has(Visible(g, g.turn).value, mv.to)
  {
    assert SeenBy(g, g.turn) == g;
    assert PawnAttacked(g, mv.to);
    PawnSeenVisible(g, g.turn, mv.to);
  }

  lemma SinglePushTargetVisible(g: FOWChess, mv: Move)
    requires Visible(g, g.turn).Success? && SinglePushOf(g, mv)
    ensures Has(Visible(g, g.turn).value, mv.to)
  {
    assert SeenBy(g, g.turn) == g;
    assert Has(PushSight(g), mv.to) by {
      SinglePushHas(g, mv.to);
      OrHas(SinglePushes(g), DoublePushes(g), mv.to);
    }
    PawnSeenVisible(g, g.turn, mv.to);
  }

  lemma DoublePushTargetVisible(g: FOWChess, mv: Move)
    requires Visible(g, g.turn).Success? && DoublePushOf(g, mv)
    ensures Has(Visible(g, g.turn).value, mv.to)
  {
    assert SeenBy(g, g.turn) == g;
    assert Has(PushSight(g), mv.to) by {
      DoublePushHas(g, mv.to);
      SinglePushHas(g, if g.turn then mv.frm + 8 else mv.to + 8);
      OrHas(SinglePushes(g), DoublePushes(g), mv.to);
    }
    PawnSeenVisible(g, g.turn, mv.to);
  }

  lemma PromotionTargetVisible(g: FOWChess, mv: Move)
    requires Visible(g, g.turn).Success? && PromotionOf(g, mv)
    ensures Has(Visible(g, g.turn).value, mv.to)
  {
    assert SeenBy(g, g.turn) == g;
    AndHas(g.bitboards.pawns, Our(g), mv.frm);
    VisibleOwnPieces(g, g.turn, mv.to);
  }

  // ---------------------------------------------------------------------
  // As written against corrected.

  /** The en-passant branch as written raises a TypeError exactly when it finds no pawn. */
  lemma EnPassantRaises(g: FOWChess, h: FOWChess)
    ensures EnPassantSightAsWritten(g, h).Failure? <==> EnPassantOpen(g) && EnPassantPawns(g, h) == 0
    ensures EnPassantSightAsWritten(g, h).Failure? ==> EnPassantSightAsWritten(g, h).error == TypeError
  {
    if EnPassantOpen(g) {
      ScanEmpty(EnPassantPawns(g, h));
    }
  }

  /** Otherwise it agrees with the corrected branch. */
  lemma EnPassantValue(g: FOWChess, h: FOWChess)
    ensures EnPassantSightAsWritten(g, h).Success? ==> EnPassantSightAsWritten(g, h).value == EnPassantSight(g, h)
  {
  }

  /** The pawn part as written raises exactly when the en-passant branch does. */
  lemma PawnSightRaises(g: FOWChess, h: FOWChess)
    ensures PawnSightAsWritten(g, h).Failure? <==> OurPawns(h) != 0 && EnPassantSightAsWritten(g, h).Failure?
    ensures PawnSightAsWritten(g, h).Failure? ==> PawnSightAsWritten(g, h).error == TypeError
  {
    EnPassantRaises(g, h);
    if OurPawns(h) != 0 {
      ScanEmpty(OurPawns(h));
    }
  }

  /** Otherwise it agrees with the corrected pawn part. */
  lemma PawnSightValue(g: FOWChess, h: FOWChess)
    ensures PawnSightAsWritten(g, h).Success? ==> PawnSightAsWritten(g, h).value == PawnSight(g, h)
  {
    if OurPawns(h) != 0 {
      EnPassantValue(g, h);
      PawnSightUnfold(g, h);
      PawnSightAsWrittenUnfold(g, h);
      PawnGlue(PawnSightAsWritten(g, h), PawnAttackMasks(h), PushSight(h),
               EnPassantSightAsWritten(g, h), EnPassantSight(g, h), PawnSight(g, h));
    }
  }

  lemma PawnSightUnfold(g: FOWChess, h: FOWChess)
    requires OurPawns(h) != 0
    ensures PawnSight(g, h) == OrAll(PawnAttackMasks(h)) | PushSight(h) | EnPassantSight(g, h)
  {
  }

  lemma PawnSightAsWrittenUnfold(g: FOWChess, h: FOWChess)
    requires OurPawns(h) != 0
    ensures PawnSightAsWritten(g, h) ==
      OrResults(OrResults(ReduceWithBitwiseOr(PawnAttackMasks(h)), Success(PushSight(h))), EnPassantSightAsWritten(g, h))
  {
  }

  lemma PawnGlue(written: Result<Bitboard>, attacks: seq<Bitboard>, pushes: Bitboard,
                 epWritten: Result<Bitboard>, ep: Bitboard, sight: Bitboard)
    requires written == OrResults(OrResults(ReduceWithBitwiseOr(attacks), Success(pushes)), epWritten)
    requires epWritten.Success? ==> epWritten.value == ep
    requires sight == OrAll(attacks) | pushes | ep
    ensures written.Success? ==> written.value == sight
  {
  }

  /** Where the as-written fog does not raise, it is the corrected fog. */
  lemma AsWrittenAgrees(g: FOWChess, color: bool)
    ensures VisibleAsWritten(g, color).Success? ==> VisibleAsWritten(g, color) == Visible(g, color)
  {
    WrittenParts(g, color);
    CorrectedParts(g, color);
  }

  /** The as-written fog, where it does not raise, put together from its parts. */
  lemma WrittenParts(g: FOWChess, color: bool)
    ensures var h := SeenBy(g, color);
      VisibleAsWritten(g, color).Success? ==>
        && ReachMasks(h, SquaresOf(PieceOrigins(h))).Success?
        && VisibleAsWritten(g, color).value ==
           Our(h) | OrAll(ReachMasks(h, SquaresOf(PieceOrigins(h))).value) | PawnSight(g, h)
  {
    var h := SeenBy(g, color);
    if ReachMasks(h, SquaresOf(PieceOrigins(h))).Success? {
      var masks := ReachMasks(h, SquaresOf(PieceOrigins(h))).value;
      var pawnsWritten := PawnSightAsWritten(g, h);
      assert pawnsWritten.Success? ==> pawnsWritten.value == PawnSight(g, h) by {
        PawnSightValue(g, h);
      }
      WrittenGlue(VisibleAsWritten(g, color), Our(h), masks, pawnsWritten, PawnSight(g, h));
    }
  }

  lemma WrittenGlue(written: Result<Bitboard>, our: Bitboard, masks: seq<Bitboard>,
                    pawnsWritten: Result<Bitboard>, pawns: Bitboard)
    requires written == OrResults(OrResults(Success(our), ReduceWithBitwiseOr(masks)), pawnsWritten)
    requires pawnsWritten.Success? ==> pawnsWritten.value == pawns
    ensures written.Success? ==> written.value == our | OrAll(masks) | pawns
  {
  }

  /** The corrected fog, once the reach loop has succeeded, put together from its parts. */
  lemma CorrectedParts(g: FOWChess, color: bool)
    ensures var h := SeenBy(g, color);
      ReachMasks(h, SquaresOf(PieceOrigins(h))).Success? ==>
        Visible(g, color) == Success(Our(h) | OrAll(ReachMasks(h, SquaresOf(PieceOrigins(h))).value) | PawnSight(g, h))
  {
  }

  /**
   * The as-written fog raises where the corrected one does, with the same
   * error, and besides with a TypeError exactly when the colour has no
   * non-pawn piece, or has pawns while the en-passant square is open and none
   * of them is among the pawns the en-passant branch looks at.
   */
  lemma AsWrittenRaises(g: FOWChess, color: bool)
    ensures Visible(g, color).Failure? ==> VisibleAsWritten(g, color) == Visible(g, color)
    ensures var h := SeenBy(g, color);
      Visible(g, color).Success? ==>
        (VisibleAsWritten(g, color).Failure? <==>
          || PieceOrigins(h) == 0
          || (OurPawns(h) != 0 && EnPassantOpen(g) && EnPassantPawns(g, h) == 0))
    ensures Visible(g, color).Success? && VisibleAsWritten(g, color).Failure? ==>
      VisibleAsWritten(g, color).error == TypeError
  {
    var h := SeenBy(g, color);
    var frms := SquaresOf(PieceOrigins(h));
    ReachMasksSpec(h, frms);
    ScanEmpty(PieceOrigins(h));
    PawnSightRaises(g, h);
    EnPassantRaises(g, h);
  }
}
