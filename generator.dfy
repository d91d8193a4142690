/**
 * `_possible_move_generator` (fog_of_war/fog_of_war_chess.py) as the loops
 * it runs: each section scans its bitboards square by square and appends the
 * moves it yields, stopping at the first error. `list(...)` of the generator
 * either collects every move or raises, so each method returns the whole list
 * or the error, and is proved equal to the section's function in the game
 * module, whose properties are proved there.
 */
module Generator {
  import opened Wrappers
  import opened Squares
  import opened Bitboards
  import opened BitScan
  import opened Moves
  import opened Attacks
  import opened Game

  // ---------------------------------------------------------------------
  // How the functions unfold one square at a time.

  /** A successful prefix followed by one more part and the rest. */
  lemma ThenAppend(out: seq<Move>, a: seq<Move>, rest: Result<seq<Move>>)
    ensures Then(Success(out), Then(Success(a), rest)) == Then(Success(out + a), rest)
  {
    if rest.Success? {
      assert out + (a + rest.value) == (out + a) + rest.value;
    }
  }

  /** Nothing yet, then a part: that part. */
  lemma ThenNone(rest: Result<seq<Move>>)
    ensures Then(Success([]), rest) == rest
  {
    if rest.Success? {
      assert [] + rest.value == rest.value;
    }
  }

  /** A prefix followed by nothing: the prefix. */
  lemma ThenDone(out: seq<Move>)
    ensures Then(Success(out), Success([])) == Success(out)
  {
    assert out + [] == out;
  }

  /** The moves from a square to a list of targets: the first target, then the rest. */
  lemma MovesFromCons(frm: Square, tos: seq<Square>)
    requires tos != []
    ensures MovesFrom(frm, tos) == [SimpleMove(tos[0], frm)] + MovesFrom(frm, tos[1..])
  {
    var lhs := MovesFrom(frm, tos);
    var rhs := [SimpleMove(tos[0], frm)] + MovesFrom(frm, tos[1..]);
    assert |lhs| == |rhs|;
    forall k | 0 <= k < |lhs|
      ensures lhs[k] == rhs[k]
    {
      if k > 0 {
        assert rhs[k] == MovesFrom(frm, tos[1..])[k - 1];
      }
    }
  }

  /** The same for the moves to a square from a list of origins. */
  lemma MovesToCons(to: Square, frms: seq<Square>)
    requires frms != []
    ensures MovesTo(to, frms) == [SimpleMove(to, frms[0])] + MovesTo(to, frms[1..])
  {
    var lhs := MovesTo(to, frms);
    var rhs := [SimpleMove(to, frms[0])] + MovesTo(to, frms[1..]);
    assert |lhs| == |rhs|;
    forall k | 0 <= k < |lhs|
      ensures lhs[k] == rhs[k]
    {
      if k > 0 {
        assert rhs[k] == MovesTo(to, frms[1..])[k - 1];
      }
    }
  }

  /** A nested loop gives the same moves for two bodies that agree on every square. */
  lemma {:induction false} FlatMapAgree(frms: seq<Square>, f: Square -> seq<Move>, h: Square -> seq<Move>)
    requires forall s :: f(s) == h(s)
    ensures FlatMap(frms, f) == FlatMap(frms, h)
    decreases |frms|
  {
    if frms != [] {
      FlatMapAgree(frms[1..], f, h);
    }
  }

  // ---------------------------------------------------------------------
  // The inner loops.

  /** `for to_sqr in ...: yield Move(to_sqr, frm)`: one move from the square to each target. */
  method MovesFromLoop(frm: Square, tos: seq<Square>) returns (out: seq<Move>)
    ensures out == MovesFrom(frm, tos)
  {
    out := [];
    var j := 0;
    while j < |tos|
      invariant 0 <= j <= |tos|
      invariant out + MovesFrom(frm, tos[j..]) == MovesFrom(frm, tos)
    {
      MovesFromCons(frm, tos[j..]);
      assert tos[j..][1..] == tos[j + 1..];
      out := out + [SimpleMove(tos[j], frm)];
      j := j + 1;
    }
  }

  /** `for frm_sqr in ...: yield Move(to, frm_sqr)`: one move to the square from each origin. */
  method MovesToLoop(to: Square, frms: seq<Square>) returns (out: seq<Move>)
    ensures out == MovesTo(to, frms)
  {
    out := [];
    var j := 0;
    while j < |frms|
      invariant 0 <= j <= |frms|
      invariant out + MovesTo(to, frms[j..]) == MovesTo(to, frms)
    {
      MovesToCons(to, frms[j..]);
      assert frms[j..][1..] == frms[j + 1..];
      out := out + [SimpleMove(to, frms[j])];
      j := j + 1;
    }
  }

  // ---------------------------------------------------------------------
  // The non-pawn loop.

  /**
   * For each of the mover's non-pawn pieces, `piece_at` and the piece's
   * mask, then one move to each target; `piece_at` raising ends the list.
   */
  method NonPawnSection(g: FOWChess) returns (r: Result<seq<Move>>)
    ensures r == NonPawnMoves(g)
  {
    var frms := ReverseScanForSquare(Our(g) & !g.bitboards.pawns);
    r := NonPawnLoop(g, frms);
  }

  /** The outer loop over the origins. */
  method NonPawnLoop(g: FOWChess, frms: seq<Square>) returns (r: Result<seq<Move>>)
    ensures r == NonPawnFrom(g, frms)
  {
    var out: seq<Move> := [];
    var i := 0;
    ThenNone(NonPawnFrom(g, frms));
    while i < |frms|
      invariant 0 <= i <= |frms|
      invariant Then(Success(out), NonPawnFrom(g, frms[i..])) == NonPawnFrom(g, frms)
    {
      var frm := frms[i];
      NonPawnFromStep(g, frms, i);
      var targets := NonPawnTargets(g, frm);
      if targets.Failure? {
        return Failure(targets.error);
      }
      var tos := ReverseScanForSquare(targets.value);
      var moves := MovesFromLoop(frm, tos);
      ThenAppend(out, moves, NonPawnFrom(g, frms[i + 1..]));
      out := out + moves;
      i := i + 1;
    }
    assert frms[i..] == [];
    assert NonPawnFrom(g, frms[i..]) == Success([]);
    ThenDone(out);
    return Success(out);
  }

  /** One round of the outer loop. */
  lemma NonPawnFromStep(g: FOWChess, frms: seq<Square>, i: nat)
    requires i < |frms|
    ensures NonPawnFrom(g, frms[i..]) ==
      match NonPawnTargets(g, frms[i])
      case Failure(e) => Failure(e)
      case Success(t) => Then(Success(MovesFrom(frms[i], SquaresOf(t))), NonPawnFrom(g, frms[i + 1..]))
  {
    assert frms[i..][0] == frms[i] && frms[i..][1..] == frms[i + 1..];
  }

  // ---------------------------------------------------------------------
  // Castling.

  /** `any(self._anyone_attacking(m) for m in masks)`: stops at the first attacked mask or the first error. */
  method AnyAttackedLoop(g: FOWChess, masks: seq<Bitboard>) returns (r: Result<bool>)
    ensures r == AnyAttacked(g, masks)
  {
    var i := 0;
    while i < |masks|
      invariant 0 <= i <= |masks|
      invariant AnyAttacked(g, masks[i..]) == AnyAttacked(g, masks)
    {
      assert masks[i..][0] == masks[i] && masks[i..][1..] == masks[i + 1..];
      var attacked := AnyoneAttacking(g, masks[i]);
      if attacked.Failure? {
        return Failure(attacked.error);
      }
      if attacked.value {
        return Success(true);
      }
      i := i + 1;
    }
    return Success(false);
  }

  /** One side's castling test and the move it yields. */
  method TryCastle(g: FOWChess, rookRight: Bitboard, between: Bitboard, passed: seq<Bitboard>,
                   to: Square, rookTo: Square, rookFrm: Square) returns (r: Result<seq<Move>>)
    ensures r == CastleIf(g, rookRight, between, passed, to, rookTo, rookFrm)
  {
    if !(Meets(g.special.castlingKings, Our(g)) && Meets(rookRight, Our(g)) && Meets(!Everyone(g), between)) {
      CastleIfOff(g, rookRight, between, passed, to, rookTo, rookFrm);
      return Success([]);
    }
    CastleIfOn(g, rookRight, between, passed, to, rookTo, rookFrm);
    r := SafeCastleLoop(g, OurKing(g), passed, to, rookTo, rookFrm);
  }

  /** `not any(...)` over the king's mask and the squares passed, then the move from `Square(bit_length)` of the king. */
  method SafeCastleLoop(g: FOWChess, king: Bitboard, passed: seq<Bitboard>,
                        to: Square, rookTo: Square, rookFrm: Square) returns (r: Result<seq<Move>>)
    ensures r == SafeCastle(g, king, passed, to, rookTo, rookFrm)
  {
    var attacked := AnyAttackedLoop(g, [king] + passed);
    if attacked.Failure? {
      return Failure(attacked.error);
    }
    if attacked.value {
      return Success([]);
    }
    var frm := SquareOfValue(BitLength(king) as int);
    if frm.Failure? {
      return Failure(frm.error);
    }
    return Success([CastlingMove(to, frm.value, rookTo, rookFrm)]);
  }

  /** The castling section: kingside, then queenside, when the mover holds a king right and a rook right. */
  method CastlingSection(g: FOWChess) returns (r: Result<seq<Move>>)
    ensures r == CastlingMoves(g)
  {
    if !(Meets(g.special.castlingKings, Our(g)) && Meets(g.special.castlingRooks, Our(g))) {
      return Success([]);
    }
    var kingside := TryCastle(g, Special.KingsideCastling(g.special), CornerMask(g, 6) | CornerMask(g, 7),
      [CornerMask(g, 6), CornerMask(g, 7)], HomeSquare(g, 7), HomeSquare(g, 6), HomeSquare(g, 8));
    if kingside.Failure? {
      return Failure(kingside.error);
    }
    var queenside := TryCastle(g, Special.QueensideCastling(g.special), CornerMask(g, 2) | CornerMask(g, 3) | CornerMask(g, 4),
      [CornerMask(g, 3), CornerMask(g, 4)], HomeSquare(g, 3), HomeSquare(g, 4), HomeSquare(g, 1));
    if queenside.Failure? {
      return Failure(queenside.error);
    }
    return Success(kingside.value + queenside.value);
  }

  // ---------------------------------------------------------------------
  // The pawn section.

  /** The capture loop: for each pawn, one move to each opposing piece it attacks. */
  method CapturesLoop(g: FOWChess) returns (out: seq<Move>)
    ensures out == FlatMap(SquaresOf(OurPawns(g)), (frm: Square) => PawnCapturesFrom(g, frm))
  {
    var f := (frm: Square) => PawnCapturesFrom(g, frm);
    var frms := ReverseScanForSquare(OurPawns(g));
    out := [];
    var i := 0;
    while i < |frms|
      invariant 0 <= i <= |frms|
      invariant out + FlatMap(frms[i..], f) == FlatMap(frms, f)
    {
      var moves := CapturesFrom(g, frms[i]);
      FlatMapStep(out, frms, i, f, moves);
      out := out + moves;
      i := i + 1;
    }
    FlatMapAgree(frms, f, (frm: Square) => PawnCapturesFrom(g, frm));
  }

  /** The captures of one pawn: one move to each opposing piece it attacks. */
  method CapturesFrom(g: FOWChess, frm: Square) returns (moves: seq<Move>)
    ensures moves == PawnCapturesFrom(g, frm)
  {
    var tos := ReverseScanForSquare(PawnAttacks(frm, g.turn) & Their(g));
    moves := MovesFromLoop(frm, tos);
  }

  /** One round of a nested loop: the moves of the next square join the prefix. */
  lemma FlatMapStep(out: seq<Move>, frms: seq<Square>, i: nat, f: Square -> seq<Move>, moves: seq<Move>)
    requires i < |frms| && moves == f(frms[i])
    ensures out + FlatMap(frms[i..], f) == (out + moves) + FlatMap(frms[i + 1..], f)
  {
    assert frms[i..][0] == frms[i] && frms[i..][1..] == frms[i + 1..];
  }

  /** `for to_sqr in ...: yield Move(to_sqr, Square(to_sqr + delta))`: raises when an origin is no square. */
  method PushLoop(tos: seq<Square>, delta: int) returns (r: Result<seq<Move>>)
    ensures r == PushMoves(tos, delta)
  {
    var out: seq<Move> := [];
    var j := 0;
    ThenNone(PushMoves(tos, delta));
    while j < |tos|
      invariant 0 <= j <= |tos|
      invariant Then(Success(out), PushMoves(tos[j..], delta)) == PushMoves(tos, delta)
    {
      assert tos[j..][0] == tos[j] && tos[j..][1..] == tos[j + 1..];
      var frm := SquareOfValue(tos[j] as int + delta);
      if frm.Failure? {
        return Failure(frm.error);
      }
      ThenAppend(out, [SimpleMove(tos[j], frm.value)], PushMoves(tos[j + 1..], delta));
      out := out + [SimpleMove(tos[j], frm.value)];
      j := j + 1;
    }
    assert tos[j..] == [];
    assert PushMoves(tos[j..], delta) == Success([]);
    ThenDone(out);
    return Success(out);
  }

  /**
   * The single pushes. A white pawn on rank 8 is shifted past h8, and the
   * scan's first square then names no square: the loop raises before it
   * yields anything.
   */
  method SinglePushLoop(g: FOWChess) returns (r: Result<seq<Move>>)
    ensures r == SinglePushMoves(g)
  {
    if PushesOffBoard(g) {
      return Failure(ValueError);
    }
    var tos := ReverseScanForSquare(SinglePushes(g));
    r := PushLoop(tos, -Forward(g.turn));
  }

  /** The double pushes, from two ranks back. */
  method DoublePushLoop(g: FOWChess) returns (r: Result<seq<Move>>)
    ensures r == DoublePushMoves(g)
  {
    var tos := ReverseScanForSquare(DoublePushes(g));
    r := PushLoop(tos, -2 * Forward(g.turn));
  }

  /** The promotion loop: for each pawn, the knight, bishop and rook in turn. */
  method PromotionLoop(g: FOWChess) returns (out: seq<Move>)
    ensures out == PromotionMoves(g)
  {
    out := [];
    if !Meets(BackRank(g.turn), OurPawns(g)) {
      return;
    }
    var f := (pawn: Square) => PromotionsOf(g, pawn);
    var pawns := ReverseScanForSquare(OurPawns(g));
    var i := 0;
    while i < |pawns|
      invariant 0 <= i <= |pawns|
      invariant out + FlatMap(pawns[i..], f) == FlatMap(pawns, f)
    {
      var moves := PromotionsLoop(g, pawns[i]);
      FlatMapStep(out, pawns, i, f, moves);
      out := out + moves;
      i := i + 1;
    }
    FlatMapAgree(pawns, f, (pawn: Square) => PromotionsOf(g, pawn));
  }

  /** `for promote in (2, 3, 4)`: the knight, bishop and rook promotions of one pawn. */
  method PromotionsLoop(g: FOWChess, pawn: Square) returns (moves: seq<Move>)
    ensures moves == PromotionsOf(g, pawn)
  {
    moves := [];
    var promote := 2;
    while promote <= 4
      invariant 2 <= promote <= 5
      invariant moves == PromotionsOf(g, pawn)[..promote - 2]
    {
      moves := moves + [PromotionMove(pawn, PromotionPiece(g.turn, promote))];
      promote := promote + 1;
    }
  }

  /** The en-passant loop: one capture onto the open square from each pawn attacking it. */
  method EnPassantLoop(g: FOWChess) returns (out: seq<Move>)
    ensures out == EnPassantMoves(g)
  {
    if !EnPassantOpen(g) {
      return [];
    }
    var ep := EnPassantSquare(g);
    var frms := ReverseScanForSquare(PawnAttacks(ep, !g.turn) & OurPawns(g));
    out := MovesToLoop(ep, frms);
  }

  /** The pawn section, when the mover has pawns: captures, pushes, promotions, en passant. */
  method PawnSection(g: FOWChess) returns (r: Result<seq<Move>>)
    ensures r == PawnMoves(g)
  {
    if OurPawns(g) == 0 {
      return Success([]);
    }
    var captures := CapturesLoop(g);
    var single := SinglePushLoop(g);
    if single.Failure? {
      return Failure(single.error);
    }
    var double := DoublePushLoop(g);
    if double.Failure? {
      return Failure(double.error);
    }
    var promotions := PromotionLoop(g);
    var passant := EnPassantLoop(g);
    PawnMovesParts(g);
    ThenFour(captures, single, double, promotions + passant);
    return Success(captures + single.value + double.value + (promotions + passant));
  }

  /** `possible_moves_list`: the three sections in order, or the first error raised. */
  method PossibleMovesList(g: FOWChess) returns (r: Result<seq<Move>>)
    ensures r == PossibleMoves(g)
  {
    var nonPawn := NonPawnSection(g);
    if nonPawn.Failure? {
      return nonPawn;
    }
    var castling := CastlingSection(g);
    if castling.Failure? {
      return Failure(castling.error);
    }
    var pawn := PawnSection(g);
    if pawn.Failure? {
      return Failure(pawn.error);
    }
    ThenThree(nonPawn, castling, pawn);
    return Success(nonPawn.value + castling.value + pawn.value);
  }

  /** Three successful parts in order. */
  lemma ThenThree(a: Result<seq<Move>>, b: Result<seq<Move>>, c: Result<seq<Move>>)
    requires a.Success? && b.Success? && c.Success?
    ensures Then(a, Then(b, c)) == Success(a.value + b.value + c.value)
  {
    assert a.value + (b.value + c.value) == a.value + b.value + c.value;
  }

  /** Four parts in order, the middle two successful. */
  lemma ThenFour(a: seq<Move>, b: Result<seq<Move>>, c: Result<seq<Move>>, d: seq<Move>)
    requires b.Success? && c.Success?
    ensures Then(Success(a), Then(b, Then(c, Success(d)))) == Success(a + b.value + c.value + d)
  {
    assert a + (b.value + (c.value + d)) == a + b.value + c.value + d;
  }

  /** The pawn section, when the mover has pawns, is its five loops in order. */
  lemma PawnMovesParts(g: FOWChess)
    requires OurPawns(g) != 0
    ensures PawnMoves(g) == Then(Success(FlatMap(SquaresOf(OurPawns(g)), (frm: Square) => PawnCapturesFrom(g, frm))),
      Then(SinglePushMoves(g), Then(DoublePushMoves(g), Success(PromotionMoves(g) + EnPassantMoves(g)))))
  {
  }
}
