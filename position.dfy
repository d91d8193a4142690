/**
 * The eight bitboards of a position (fog_of_war/chess_bitboards.py): one per
 * colour and one per piece type. The module answers which piece stands on a
 * square, builds the starting position and applies a move.
 */
module Position {
  import opened Wrappers
  import opened Squares
  import opened Bitboards
  import opened Pieces
  import opened Moves

  datatype ChessBitboards = ChessBitboards(
    black: Bitboard,
    white: Bitboard,
    pawns: Bitboard,
    knights: Bitboard,
    bishops: Bitboard,
    rooks: Bitboard,
    queens: Bitboard,
    kings: Bitboard)

  /** `list(self)`: the eight bitboards in tuple order, black, white, then pawns up to kings. */
  function Boards(b: ChessBitboards): (s: seq<Bitboard>)
    ensures |s| == 8
  {
    [b.black, b.white, b.pawns, b.knights, b.bishops, b.rooks, b.queens, b.kings]
  }

  /** The bitboard at index i of the tuple. */
  function Board(b: ChessBitboards, i: nat): Bitboard
    requires i < 8
  {
    Boards(b)[i]
  }

  /** The board of a piece type: type k sits at index k + 1. */
  function TypeBoard(b: ChessBitboards, k: int): Bitboard
    requires 1 <= k <= 6
  {
    Board(b, k + 1)
  }

  /** `ChessBitboards(*cpy)`: a position from eight bitboards in tuple order. */
  function FromBoards(s: seq<Bitboard>): (b: ChessBitboards)
    requires |s| == 8
  {
    ChessBitboards(s[0], s[1], s[2], s[3], s[4], s[5], s[6], s[7])
  }

  /** Listing the bitboards and rebuilding the tuple are inverse. */
  lemma BoardsRoundTrip(b: ChessBitboards, s: seq<Bitboard>)
    requires |s| == 8
    ensures FromBoards(Boards(b)) == b
    ensures Boards(FromBoards(s)) == s
  {
  }

  // ---------------------------------------------------------------------
  // piece_at

  /** A weight if the board holds the square, else 0. */
  function Weighted(bb: Bitboard, s: Square, weight: int): int
  {
    if Has(bb, s) then weight else 0
  }

  /** The colour part of `piece_at`: black weighs -1, white 1. */
  function ColourSum(b: ChessBitboards, s: Square): int
  {
    Weighted(b.black, s, -1) + Weighted(b.white, s, 1)
  }

  /** The type part of `piece_at`: type board k weighs k. */
  function TypeSum(b: ChessBitboards, s: Square): int
  {
    Weighted(b.pawns, s, 1) + Weighted(b.knights, s, 2) + Weighted(b.bishops, s, 3)
      + Weighted(b.rooks, s, 4) + Weighted(b.queens, s, 5) + Weighted(b.kings, s, 6)
  }

  /** How many of the six type boards hold the square. */
  function TypeCount(b: ChessBitboards, s: Square): int
  {
    Weighted(b.pawns, s, 1) + Weighted(b.knights, s, 1) + Weighted(b.bishops, s, 1)
      + Weighted(b.rooks, s, 1) + Weighted(b.queens, s, 1) + Weighted(b.kings, s, 1)
  }

  /** Some bitboard holds the square (every weight is non-zero, so this is `any`). */
  predicate Occupied(b: ChessBitboards, s: Square)
  {
    Has(b.black, s) || Has(b.white, s) || Has(b.pawns, s) || Has(b.knights, s)
      || Has(b.bishops, s) || Has(b.rooks, s) || Has(b.queens, s) || Has(b.kings, s)
  }

  /**
   * `piece_at`: None when no bitboard holds the square, otherwise the piece
   * whose value is the colour sum times the type sum; that lookup raises a
   * ValueError when the product is no piece.
   */
  function PieceAt(b: ChessBitboards, s: Square): (r: Result<Option<Piece>>)
    ensures r == Success(None) <==> !Occupied(b, s)
  {
    if !Occupied(b, s) then Success(None)
    else
      match PieceOf(ColourSum(b, s) * TypeSum(b, s))
      case Success(p) => Success(Some(p))
      case Failure(e) => Failure(e)
  }

  /** A square is consistent when at most one colour holds it and exactly one type board does iff a colour does. */
  predicate SquareConsistent(b: ChessBitboards, s: Square)
  {
    !(Has(b.white, s) && Has(b.black, s))
      && TypeCount(b, s) == (if Has(b.white, s) || Has(b.black, s) then 1 else 0)
  }

  /** On a consistent square holding type k, `piece_at` gives type k in the colour of the square. */
  lemma PieceAtConsistent(b: ChessBitboards, s: Square, k: int)
    requires SquareConsistent(b, s) && 1 <= k <= 6 && Has(TypeBoard(b, k), s)
    ensures PieceAt(b, s).Success? && PieceAt(b, s).value.Some?
    ensures Kind(PieceAt(b, s).value.value) == k
    ensures IsWhite(PieceAt(b, s).value.value) <==> Has(b.white, s)
  {
    assert TypeSum(b, s) == k;
  }

  /** A consistent square that neither colour holds is empty. */
  lemma PieceAtEmpty(b: ChessBitboards, s: Square)
    requires SquareConsistent(b, s) && !Has(b.white, s) && !Has(b.black, s)
    ensures PieceAt(b, s) == Success(None)
  {
  }

  /** A square held by both colours, or by a colour and no type, makes `piece_at` raise. */
  lemma PieceAtInconsistent(b: ChessBitboards, s: Square)
    requires (Has(b.white, s) && Has(b.black, s)) || (Occupied(b, s) && TypeCount(b, s) == 0)
      || (Occupied(b, s) && !Has(b.white, s) && !Has(b.black, s))
    ensures PieceAt(b, s) == Failure(ValueError)
  {
  }

  // ---------------------------------------------------------------------
  // new_game

  /** `new_game`: both colours on their first two ranks, pawns on ranks 2 and 7. */
  function NewGame(): ChessBitboards
  {
    ChessBitboards(
      black := RankMask(7) | RankMask(8),
      white := RankMask(1) | RankMask(2),
      pawns := RankMask(7) | RankMask(2),
      knights := FromSquare(B1) | FromSquare(G1) | FromSquare(B8) | FromSquare(G8),
      bishops := FromSquare(C1) | FromSquare(F1) | FromSquare(C8) | FromSquare(F8),
      rooks := FromSquare(A8) | FromSquare(H8) | FromSquare(A1) | FromSquare(H1),
      queens := FromSquare(D1) | FromSquare(D8),
      kings := FromSquare(E8) | FromSquare(E1))
  }

  /** The back rank from the a-file to the h-file: R N B Q K B N R. */
  const BackRank: seq<Piece> := [Rook, Knight, Bishop, Queen, King, Bishop, Knight, Rook]

  /** The standard starting layout, square by square, white on ranks 1 and 2. */
  function StartingPiece(s: Square): Option<Piece>
  {
    if Rank(s) == 2 then Some(Pawn)
    else if Rank(s) == 7 then Some(-1)
    else if Rank(s) == 1 then Some(BackRank[File(s) - 1])
    else if Rank(s) == 8 then Some(-(BackRank[File(s) - 1] as int))
    else None
  }

  /** The new game holds the standard layout on every square. */
  lemma NewGameLayout(s: Square)
    ensures PieceAt(NewGame(), s) == Success(StartingPiece(s))
  {
  }

  // ---------------------------------------------------------------------
  // make_move

  /** A move can be applied when a named rook target comes with a rook origin. */
  predicate Applicable(m: Move)
  {
    m.rookTo.Some? ==> m.rookFrm.Some?
  }

  /** Clear a square from a board that holds it (`current_bb ^= to_mask` after the test). */
  function Capture(bb: Bitboard, s: Square): Bitboard
  {
    if Has(bb, s) then bb ^ FromSquare(s) else bb
  }

  /** Move whatever the board holds on a to b: clear a and set b, if a is held. */
  function Relocate(bb: Bitboard, a: Square, b: Square): Bitboard
  {
    if Has(bb, a) then (bb ^ FromSquare(a)) | FromSquare(b) else bb
  }

  /**
   * `search` on one bitboard: clear a captured target, hop the castling rook,
   * then move the piece standing on frm.
   */
  function SearchBoard(bb: Bitboard, m: Move): Bitboard
    requires Applicable(m)
  {
    Relocate(Hop(Capture(bb, m.to), m), m.frm, m.to)
  }

  /** The castling rook's hop, for a castling move only. */
  function Hop(bb: Bitboard, m: Move): Bitboard
    requires Applicable(m)
  {
    if m.rookTo.Some? then Relocate(bb, m.rookFrm.value, m.rookTo.value) else bb
  }

  /**
   * The step-by-step `search`: the three tests of the source in turn, each
   * reassigning the bitboard (capture, castling rook, moving piece).
   */
  method Search(currentBb: Bitboard, m: Move) returns (r: Bitboard)
    requires Applicable(m)
    ensures r == SearchBoard(currentBb, m)
  {
    r := ClearTarget(currentBb, m.to);
    if m.rookTo.Some? {
      r := MoveBit(r, m.rookFrm.value, m.rookTo.value);
    }
    r := MoveBit(r, m.frm, m.to);
  }

  /** `if current_bb & to_mask: current_bb ^= to_mask`. */
  method ClearTarget(bb: Bitboard, s: Square) returns (r: Bitboard)
    ensures r == Capture(bb, s)
  {
    r := bb;
    if Has(r, s) {
      r := r ^ FromSquare(s);
    }
    CaptureValue(bb, s, r);
  }

  /** `if current_bb & a: current_bb = (current_bb ^ a) | b`. */
  method MoveBit(bb: Bitboard, a: Square, b: Square) returns (r: Bitboard)
    ensures r == Relocate(bb, a, b)
  {
    r := bb;
    if Has(r, a) {
      r := (r ^ FromSquare(a)) | FromSquare(b);
    }
    RelocateValue(bb, a, b, r);
  }

  lemma CaptureValue(bb: Bitboard, s: Square, r: Bitboard)
    requires r == if Has(bb, s) then bb ^ FromSquare(s) else bb
    ensures r == Capture(bb, s)
  {
  }

  lemma RelocateValue(bb: Bitboard, a: Square, b: Square, r: Bitboard)
    requires r == if Has(bb, a) then (bb ^ FromSquare(a)) | FromSquare(b) else bb
    ensures r == Relocate(bb, a, b)
  {
  }

  /** Capturing on a square removes exactly that square. */
  lemma CaptureHas(bb: Bitboard, s: Square, t: Square)
    ensures Has(Capture(bb, s), t) <==> t != s && Has(bb, t)
  {
    ToggleHas(bb, s, t);
  }

  /** Relocating a to b: b becomes held if a was, a is cleared, every other square stays. */
  lemma RelocateHas(bb: Bitboard, a: Square, b: Square, t: Square)
    ensures Has(Relocate(bb, a, b), t) <==> (Has(bb, a) && t == b) || (t != a && Has(bb, t))
  {
    if Has(bb, a) {
      RelocateHeld(bb, a, b, t);
    }
  }

  lemma RelocateHeld(bb: Bitboard, a: Square, b: Square, t: Square)
    requires Has(bb, a)
    ensures Has(Relocate(bb, a, b), t) <==> t == b || (t != a && Has(bb, t))
  {
    assert Relocate(bb, a, b) == (bb ^ FromSquare(a)) | FromSquare(b);
    MoveBitHas(bb, a, b, t);
  }

  /**
   * A move that is not castling: a board holding frm now holds to instead;
   * every board loses a captured piece on to; no other square changes.
   */
  lemma SearchPlainMove(bb: Bitboard, m: Move, t: Square)
    requires m.rookTo.None? && m.frm != m.to
    ensures Has(SearchBoard(bb, m), t) <==>
      (Has(bb, m.frm) && t == m.to) || (t != m.to && t != m.frm && Has(bb, t))
  {
    var captured := Capture(bb, m.to);
    CaptureHas(bb, m.to, t);
    CaptureHas(bb, m.to, m.frm);
    RelocateHas(captured, m.frm, m.to, t);
  }

  /**
   * Castling with four distinct squares: a board holding the rook's origin
   * holds its target instead, one holding the king's origin holds the king's
   * target instead, a piece standing on the king's target is captured, and
   * nothing else changes. The king's target may be occupied, as the castling
   * emptiness test lets such a castle through.
   */
  lemma SearchCastling(bb: Bitboard, m: Move, t: Square)
    requires IsCastling(m) && Applicable(m)
    requires var rt, rf := m.rookTo.value, m.rookFrm.value;
      m.to != m.frm && m.to != rt && m.to != rf && m.frm != rt && m.frm != rf && rt != rf
    ensures Has(SearchBoard(bb, m), t) <==>
      (Has(bb, m.rookFrm.value) && t == m.rookTo.value) || (Has(bb, m.frm) && t == m.to)
      || (t != m.rookFrm.value && t != m.frm && t != m.to && Has(bb, t))
  {
    var captured := Capture(bb, m.to);
    CaptureHas(bb, m.to, m.to);
    assert SearchBoard(bb, m) == SearchBoard(captured, m);
    SearchCastlingClear(captured, m, t);
    CaptureHas(bb, m.to, m.rookFrm.value);
    CaptureHas(bb, m.to, m.frm);
    CaptureHas(bb, m.to, t);
  }

  /** SearchCastling on a board that does not hold the king's target. */
  lemma SearchCastlingClear(bb: Bitboard, m: Move, t: Square)
    requires IsCastling(m) && Applicable(m)
    requires var rt, rf := m.rookTo.value, m.rookFrm.value;
      m.to != m.frm && m.to != rt && m.to != rf && m.frm != rt && m.frm != rf && rt != rf
    requires !Has(bb, m.to)
    ensures Has(SearchBoard(bb, m), t) <==>
      (Has(bb, m.rookFrm.value) && t == m.rookTo.value) || (Has(bb, m.frm) && t == m.to)
      || (t != m.rookFrm.value && t != m.frm && Has(bb, t))
  {
    CastlingBoard(bb, m);
    RelocateTwice(bb, m.rookFrm.value, m.rookTo.value, m.frm, m.to, t);
  }

  /** Two relocations between four distinct squares act independently. */
  lemma RelocateTwice(bb: Bitboard, rf: Square, rt: Square, f: Square, to: Square, t: Square)
    requires f != rt && f != rf
    ensures Has(Relocate(Relocate(bb, rf, rt), f, to), t) <==>
      (Has(bb, rf) && t == rt) || (Has(bb, f) && t == to) || (t != rf && t != f && Has(bb, t))
  {
    var hopped := Relocate(bb, rf, rt);
    RelocateHas(bb, rf, rt, t);
    RelocateHas(bb, rf, rt, f);
    RelocateHas(hopped, f, to, t);
    CastlingCases(Has(bb, rf), Has(bb, f), Has(bb, t), Has(hopped, t), Has(hopped, f),
      Has(Relocate(hopped, f, to), t), t == rt, t == to, t == rf, t == f);
  }

  /** With nothing to capture, castling is the rook's hop followed by the king's move. */
  lemma CastlingBoard(bb: Bitboard, m: Move)
    requires IsCastling(m) && Applicable(m) && !Has(bb, m.to)
    ensures SearchBoard(bb, m) == Relocate(Relocate(bb, m.rookFrm.value, m.rookTo.value), m.frm, m.to)
  {
  }

  /** The propositional step of SearchCastling, with every bitboard test abstracted. */
  lemma CastlingCases(rookHeld: bool, kingHeld: bool, held: bool, hopHeld: bool, hopKing: bool,
                      result: bool, isRt: bool, isTo: bool, isRf: bool, isFrm: bool)
    requires hopHeld <==> (rookHeld && isRt) || (!isRf && held)
    requires hopKing == kingHeld
    requires result <==> (hopKing && isTo) || (!isFrm && hopHeld)
    requires isRt ==> !isFrm
    ensures result <==> (rookHeld && isRt) || (kingHeld && isTo) || (!isRf && !isFrm && held)
  {
  }

  /** A board holding none of to, frm and the rook's origin is returned unchanged. */
  lemma SearchUntouched(bb: Bitboard, m: Move)
    requires Applicable(m) && !Has(bb, m.to) && !Has(bb, m.frm)
    requires IsCastling(m) ==> !Has(bb, m.rookFrm.value)
    ensures SearchBoard(bb, m) == bb
  {
  }

  // ---------------------------------------------------------------------
  // make_move on the whole position

  /**
   * `make_move`. A move without promotion runs `search` over the eight
   * bitboards; a castling move without a rook origin fails, as
   * `Bitboard.from_square(None)` raises KeyError. A promotion clears frm from
   * the pawns and sets to in the board of the promoted type.
   */
  function MakeMove(b: ChessBitboards, m: Move): (r: Result<ChessBitboards>)
    ensures r.Failure? <==> !IsPromotion(m) && !Applicable(m)
    ensures r.Failure? ==> r.error == KeyError
  {
    if IsPromotion(m) then Success(FromBoards(Promoted(Boards(b), m)))
    else if !Applicable(m) then Failure(KeyError)
    else Success(FromBoards(seq(8, i requires 0 <= i < 8 => SearchBoard(Boards(b)[i], m))))
  }

  /** `bb ^ Bitboard.from_square(s)`: flip one square. */
  function Toggle(bb: Bitboard, s: Square): Bitboard
  {
    bb ^ FromSquare(s)
  }

  /** The copied list of a promotion: pawns lose frm, then the promoted type's board toggles to. */
  function Promoted(cpy: seq<Bitboard>, m: Move): (r: seq<Bitboard>)
    requires |cpy| == 8 && IsPromotion(m)
    ensures |r| == 8
  {
    var k := Kind(m.promotionTo.value);
    var cleared := cpy[2 := Toggle(cpy[2], m.frm)];
    cleared[k + 1 := Toggle(cleared[k + 1], m.to)]
  }

  /**
   * The source as written: the promoted type's board is XORed with
   * `move.to.value`, the square's number 1..64 read as a bit pattern, and not
   * with the square's mask.
   */
  function PromotedAsWritten(cpy: seq<Bitboard>, m: Move): (r: seq<Bitboard>)
    requires |cpy| == 8 && IsPromotion(m)
    ensures |r| == 8
  {
    var k := Kind(m.promotionTo.value);
    var cleared := cpy[2 := Toggle(cpy[2], m.frm)];
    cleared[k + 1 := cleared[k + 1] ^ (m.to as Bitboard)]
  }

  /**
   * `make_move` step by step: the generator runs `Search` over the boards in
   * tuple order; a promotion edits a copied list in place.
   */
  method ApplyMove(b: ChessBitboards, m: Move) returns (r: Result<ChessBitboards>)
    ensures r == MakeMove(b, m)
  {
    if IsPromotion(m) {
      var cpy := PromoteCopy(b, m);
      return Success(FromBoards(cpy));
    }
    if !Applicable(m) {
      return Failure(KeyError);
    }
    var out := SearchAll(Boards(b), m);
    return Success(FromBoards(out));
  }

  /** The generator expression: `search` applied to each board in turn. */
  method SearchAll(boards: seq<Bitboard>, m: Move) returns (out: seq<Bitboard>)
    requires |boards| == 8 && Applicable(m)
    ensures out == seq(8, i requires 0 <= i < 8 => SearchBoard(boards[i], m))
  {
    out := [];
    var i := 0;
    while i < 8
      invariant 0 <= i <= 8 && |out| == i
      invariant forall j :: 0 <= j < i ==> out[j] == SearchBoard(boards[j], m)
    {
      var next := Search(boards[i], m);
      out := out + [next];
      i := i + 1;
    }
  }

  /** The promotion branch: copy the list, then reassign two of its entries. */
  method PromoteCopy(b: ChessBitboards, m: Move) returns (cpy: seq<Bitboard>)
    requires IsPromotion(m)
    ensures cpy == Promoted(Boards(b), m)
  {
    cpy := Boards(b);
    cpy := cpy[2 := Toggle(b.pawns, m.frm)];
    var k := Kind(m.promotionTo.value);
    cpy := cpy[k + 1 := Toggle(cpy[k + 1], m.to)];
  }

  /** Without promotion, every board of the result is `search` of the same board before. */
  lemma MakeMoveBoards(b: ChessBitboards, m: Move, i: nat)
    requires !IsPromotion(m) && Applicable(m) && i < 8
    ensures MakeMove(b, m).Success?
    ensures Board(MakeMove(b, m).value, i) == SearchBoard(Board(b, i), m)
  {
    var s := seq(8, j requires 0 <= j < 8 => SearchBoard(Boards(b)[j], m));
    BoardsRoundTrip(b, s);
  }

  /**
   * A promotion changes only the pawns, which lose frm, and the board of the
   * promoted type, which gains to; the other six boards stay as they were.
   */
  lemma PromotionBoards(b: ChessBitboards, m: Move, i: nat)
    requires IsPromotion(m) && Kind(m.promotionTo.value) != 1 && i < 8
    ensures MakeMove(b, m).Success?
    ensures var k := Kind(m.promotionTo.value); var after := MakeMove(b, m).value;
      && after.pawns == Toggle(b.pawns, m.frm)
      && TypeBoard(after, k) == Toggle(TypeBoard(b, k), m.to)
      && (i != 2 && i != k + 1 ==> Board(after, i) == Board(b, i))
  {
    BoardsRoundTrip(b, Promoted(Boards(b), m));
  }

  /**
   * For a generated promotion (to == frm, a pawn on it, the target type's board
   * empty there) the square now holds the promoted piece and nothing else.
   */
  lemma PromotionReplacesPawn(b: ChessBitboards, m: Move)
    requires IsPromotion(m) && Kind(m.promotionTo.value) != 1 && m.to == m.frm
    requires Has(b.pawns, m.frm) && !Has(TypeBoard(b, Kind(m.promotionTo.value)), m.to)
    ensures MakeMove(b, m).Success?
    ensures var k := Kind(m.promotionTo.value); var after := MakeMove(b, m).value;
      !Has(after.pawns, m.frm) && Has(TypeBoard(after, k), m.to)
  {
    var k := Kind(m.promotionTo.value);
    PromotionBoards(b, m, 0);
    ToggleHas(b.pawns, m.frm, m.frm);
    ToggleHas(TypeBoard(b, k), m.to, m.to);
  }

  /**
   * The promotion as written misplaces the new piece: promoting on a8
   * (square 57) toggles the bits of 57 = 0b111001, which are a1, d1, e1
   * and f1, while the pawn's square a8 stays empty in the queens.
   */
  lemma PromotionAsWrittenMisplaces()
    ensures var cpy := Boards(NewGame()); var m := PromotionMove(A8, -5);
      var wrong := PromotedAsWritten(cpy, m)[6];
      && wrong == cpy[6] ^ (FromSquare(A1) | FromSquare(D1) | FromSquare(E1) | FromSquare(F1))
      && !Has(wrong, A8)
      && Promoted(cpy, m)[6] == cpy[6] | FromSquare(A8)
  {
  }

  /** e2-e4 from the starting position gives the position built by hand. */
  lemma OpeningPawnMove()
    ensures MakeMove(NewGame(), SimpleMove(E4, E2)) == Success(ChessBitboards(
      black := RankMask(7) | RankMask(8),
      white := ((RankMask(1) | RankMask(2)) & !FromSquare(E2)) | FromSquare(E4),
      pawns := RankMask(7) | (RankMask(2) & !FromSquare(E2)) | FromSquare(E4),
      knights := FromSquare(B1) | FromSquare(G1) | FromSquare(B8) | FromSquare(G8),
      bishops := FromSquare(C1) | FromSquare(F1) | FromSquare(C8) | FromSquare(F8),
      rooks := FromSquare(A8) | FromSquare(H8) | FromSquare(A1) | FromSquare(H1),
      queens := FromSquare(D1) | FromSquare(D8),
      kings := FromSquare(E8) | FromSquare(E1)))
  {
  }

  /** The lone king and rook castle short: the king lands on g1, the rook on f1. */
  lemma LoneCastle()
    ensures var lone := ChessBitboards(0, FromSquare(E1) | FromSquare(H1), 0, 0, 0,
      FromSquare(H1), 0, FromSquare(E1));
      var r := MakeMove(lone, CastlingMove(G1, E1, F1, H1));
      && r.Success?
      && r.value.kings == FromSquare(G1) && r.value.rooks == FromSquare(F1)
      && r.value.white == FromSquare(G1) | FromSquare(F1)
      && r.value.black == 0
  {
  }
}
