# Fog-of-war chess bitboard engine, modelled in Dafny

This project models the bitboard engine of a fog-of-war chess player that
searches with Monte Carlo tree search. It covers the following parts:

- **Geometry.** The 64 squares are numbered 1 to 64 in rank-major order
  (a1 = 1, b1 = 2, …, h1 = 8, a2 = 9, …, h8 = 64). Rank and file are
  derived from that number.
- **Bitboards.** A bitboard is a 64-bit set of squares. Bit `i` stands for
  square `i + 1`. A bitboard is a `bv64` here, and a square is a `bv8`
  between 1 and 64. Python's integers are unbounded. Bitboards built from
  the masks stay within 64 bits, but a left shift of the pawns can pass
  bit 63 when a white pawn stands on rank 8. The move generator then
  raises, and the model raises too (see `Game.PushesOffBoard`). The fog
  keeps the extra bits; the model drops them (see "Left out").
- **Masks and helpers.** The rank, file and square masks; the bit-scan
  loops, which yield the set bits from the most significant down; and the
  or-folds.
- **The position.** `ChessBitboards` holds eight bitboards: black, white,
  pawns, knights, bishops, rooks, queens and kings. It reads the piece on a
  square, sets up the new game, and applies a move. Applying a move
  covers capture, relocation, the rook's hop when castling, and promotion.
- **Special moves.** The castling rights and the en-passant square. Each
  move takes rights away and recomputes the en-passant square.
- **The game state.** `FOWChess` holds the position, the side to move,
  the special bitboards and the half-move count. The model covers:
  - the child state after a move;
  - the end of the game and the winner;
  - the attack test;
  - the pseudo-legal move generator: non-pawn moves, castling, pawn
    captures, pushes, promotions and en passant;
  - the fog, which is the set of squares one colour sees.
- **The search-tree nodes.** Their visit, score and expansion counters.

Python exceptions are modelled as values: `Result` carries `ValueError`,
`TypeError`, `IndexError` or `KeyError`.

## Modules

- `Pieces` follows the signed piece numbering: pawn 1 up to king 6,
  positive for white and negative for black.
- The imported attack-mask module is not among the sources. `Attacks`
  defines its own masks: stepping pieces with a wrap check at every edge,
  and sliders that walk a ray until the first occupied square. Each mask
  is proved against a geometric description and against the attack-mask
  test examples.
- The functions of `Game` state what each part of the generator yields.
- The `Generator` methods are the source's nested loops. Each is proved
  to compute the matching `Game` function, so the per-section
  specifications apply to them.
- In the same way, the `Fog` methods accumulate the fog step by step and
  are proved equal to `Visibility.Visible`.

Several of the source's quirks are modelled as written, each with a lemma
that shows it:

- Castling rights are lost only by a move from the king's or the rook's
  home square. Castling therefore leaves the rook's right in place
  (`Special.CastlingKeepsRookRight`). The package's castling test expects
  both rights cleared. That test runs against a special-move module that
  is not part of this model.
- The castling emptiness test passes when any one of the squares between
  king and rook is empty (`Game.CastlingOntoOccupiedSquare`).
- Promotions are offered when a pawn stands on the mover's own back rank
  (`Game.NoPromotionOffOwnBackRank`).
- The en-passant branch of the fog adds the pawns' own squares. It also
  picks the opposing colour from the side to move, not from the colour
  asked about (`Visibility.EnPassantPawns`).
- Three quirks belong to the earlier drafts:
  - the king test sums bit positions (`DraftGame.IsOverAsWrittenKings`);
  - black's double push is masked with rank 6
    (`DraftGame.BlackDoublePushesFromStart`);
  - the type index of `piece_at` is off by one
    (`DraftBitboards.PieceAtAsWrittenShifted`).

Where the source would crash on a type error or a bad index, the model
uses the evident intent. The as-written behaviour is kept beside it; see
"Findings".

## Model

| member | source | states |
|---|---|---|
| Squares.Rank | square.py:22-25 | the rank lies in 1..8 and the square number lies in that rank's block of eight |
| Squares.File | square.py:27-30 | the file lies in 1..8 and the square number is 8·(rank−1) + file |
| Squares.SquareAt | square.py:14-20 | the square built from a file and a rank has exactly that rank and file |
| Squares.RankFileRoundTrip | square.py:22-30 | rebuilding a square from its file and rank gives the square back |
| Squares.BuildNameTable | square.py:14-17 | the loop builds 64 names in square order, entry v−1 being the name of square v |
| Squares.NamesDistinct | square.py:14-20 | two squares have the same name exactly when they are the same square |
| Squares.SquareOrder | square.py:14-20 | square numbers order squares by rank, then by file (a1 < a2, b1 < a2, a8 < h8) |
| Squares.NamedSquares | square.py:14-20 | a1 = 1, b1 = 2, h1 = 8, a2 = 9, h8 = 64, with the matching names |
| Pieces.PieceOf | fog_of_war/tests/test_fog_of_war_chess.py:34-42 | `Piece(v)` succeeds exactly for v in −6..6 without 0, and returns v |
| Pieces.Kind | fog_of_war/tests/test_fog_of_war_chess.py:34-42 | the piece type lies in 1..6 and is the absolute value of the piece |
| Pieces.KindAndColour | fog_of_war/tests/test_fog_of_war_chess.py:34-42 | a piece is its type, negated for black |
| Pieces.PieceOfRoundTrip | fog_of_war/tests/test_fog_of_war_chess.py:34-42 | looking up a piece's own value gives the piece |
| Moves.SimpleMove | move.py:31-35 | a plain move has the given to and frm, and no rook or promotion fields (they default to None) |
| Moves.CastlingMove | move.py:26-29 | a castling move names the king's squares in to/frm and the rook's in rook_to/rook_frm |
| Moves.PromotionMove | move.py:20-24 | a promotion has to equal to frm and names the promotion piece |
| Bitboards.FromRank | bitboard.py:31-40 | a ValueError unless 1 ≤ r ≤ 8; otherwise the mask holds exactly the squares of rank r |
| Bitboards.FromFile | bitboard.py:42-51 | a ValueError unless 1 ≤ f ≤ 8; otherwise the mask holds exactly the squares of file f |
| Bitboards.HasSquare | bitboard.py:6 | the mask of a square holds that square and no other |
| Bitboards.RankHas | bitboard.py:7 | the rank mask `0xff << 8(r−1)` holds exactly the squares of rank r |
| Bitboards.FileHas | bitboard.py:8 | the file mask `0x0101010101010101 << (f−1)` holds exactly the squares of file f |
| Bitboards.MaskTables | bitboard.py:6-8 | the table entries at the corners: rank 1 is 0xff, file 1 is 0x0101010101010101, square 1 is bit 0; rank 0 and file 9 raise |
| Bitboards.MasksCoverBoard | bitboard.py:7-8 | the eight ranks together, and the eight files together, cover all 64 bits |
| Bitboards.SquaresMakeMasks | bitboard.py:6-8 | squares a1..h1 make rank 1, a8..h8 rank 8, a1..a8 file 1 and h1..h8 file 8 |
| Bitboards.ConstructorAcceptsAsWritten | bitboard.py:14-15 | the constructor's check accepts exactly the integers above −2^64 |
| Bitboards.ConstructorAcceptsOutOfRange | bitboard.py:14-15 | −1 and 2^64 both pass the check, though neither is a 64-bit board |
| Bitboards.CheckedBitboard | bitboard.py:10-16 | the intended check: accepts exactly 0 ≤ x < 2^64 |
| Bitboards.CheckedBitboardRoundTrip | bitboard.py:10-16 | every 64-bit board passes the intended check unchanged |
| BitScan.BitLengthSpec | fog_of_war/helper_functions.py:26 | `bit_length` is 0 only for 0, the bit below it is set, and no bit is set at or above it |
| BitScan.ReverseScanForMask | fog_of_war/helper_functions.py:31-36 | the loop yields the set-bit positions (not masks), from the top bit down |
| BitScan.SetBitsMembers | helper_functions.py:23-28 | the positions yielded are exactly the set bits |
| BitScan.ScanStep | helper_functions.py:25-28 | one round yields the top bit, and clearing it leaves the scan of the rest |
| BitScan.ReverseScanForSquare | fog_of_war/helper_functions.py:23-28 | the loop yields the squares of the board, highest first |
| BitScan.SquaresOf | fog_of_war/helper_functions.py:25-28 | the scan makes exactly popcount rounds |
| BitScan.SquaresOfMembers | fog_of_war/helper_functions.py:23-28 | the scan visits exactly the squares the board holds |
| BitScan.SquaresOfDescending | fog_of_war/helper_functions.py:23-28 | the scan visits squares in strictly decreasing order, so none twice |
| BitScan.ScanEmpty | fog_of_war/helper_functions.py:25 | the scan yields nothing exactly for the empty board |
| BitScan.ScanOfOne | fog_of_war/fog_of_war_chess.py:132 | a board whose scan yields one square is that square's mask |
| BitScan.SquareOfValue | fog_of_war/helper_functions.py:27 | `Square(v)` succeeds exactly for v in 1..64 and returns square v |
| BitScan.ScanAsWrittenOffByOne | fog_of_war/helper_functions.py:26-27 | as written, a1's bit gives Square(0), a ValueError; e4's bit gives d4; h8's gives g8 |
| BitScan.ReduceWithBitwiseOr | fog_of_war/helper_functions.py:18-20 | raises on an empty argument list; otherwise the or-fold of the arguments |
| BitScan.OrAllHas | helper_functions.py:18-20 | the fold holds a square exactly when one of its parts does |
| BitScan.ScanRebuilds | helper_functions.py:23-28 | or-ing the masks of the scanned squares rebuilds the board |
| Position.BoardsRoundTrip | fog_of_war/chess_bitboards.py:30-42 | the position and its list of eight boards convert into each other and back |
| Position.PieceAt | fog_of_war/chess_bitboards.py:61-68 | None exactly when no board holds the square |
| Position.PieceAtConsistent | fog_of_war/chess_bitboards.py:61-68 | on a square held by one colour and one type board, the piece has that type and is white exactly when the white board holds it |
| Position.PieceAtInconsistent | fog_of_war/chess_bitboards.py:61-68 | two colours, or a colour without a type (or a type without a colour), give `Piece` of a value out of range, a ValueError |
| Position.NewGameLayout | fog_of_war/chess_bitboards.py:70-100 | every square holds its standard piece: pawns on ranks 2 and 7, R N B Q K B N R on ranks 1 and 8 |
| Position.Search | fog_of_war/chess_bitboards.py:106-123 | the step-by-step `search` computes capture, rook hop and relocation on one board |
| Position.CaptureHas | fog_of_war/chess_bitboards.py:109-111 | a board holding the target loses it, and keeps everything else |
| Position.RelocateHas | fog_of_war/chess_bitboards.py:119-121 | a board holding the origin loses it and gains the target; another board is unchanged |
| Position.SearchPlainMove | fog_of_war/chess_bitboards.py:106-123 | on a plain move each board clears the target, then moves the origin's bit to the target |
| Position.SearchCastling | fog_of_war/chess_bitboards.py:106-123 | on a castle over four distinct squares the rook's board moves rook_frm to rook_to, the king's board moves frm to to, a piece on the king's target (occupied or not) is captured, and nothing else changes |
| Position.SearchUntouched | fog_of_war/chess_bitboards.py:106-129 | a board holding none of to, frm and rook_frm is returned unchanged |
| Position.MakeMove | fog_of_war/chess_bitboards.py:102-136 | raises a KeyError exactly when a rook target is given without a rook origin and the move is no promotion |
| Position.ApplyMove | fog_of_war/chess_bitboards.py:102-136 | the method (search over the eight boards, or the promotion copy) computes `MakeMove` |
| Position.SearchAll | fog_of_war/chess_bitboards.py:125-129 | the generator expression applies `search` to each of the eight boards |
| Position.PromoteCopy | fog_of_war/chess_bitboards.py:131-135 | the list copy with the two entries overwritten is the corrected promotion |
| Position.MakeMoveBoards | fog_of_war/chess_bitboards.py:125-129 | every board of the result is `search` of the same board |
| Position.PromotionBoards | fog_of_war/chess_bitboards.py:131-136 | a promotion toggles frm on the pawns and to on the board at index \|promotion_to\| + 1; nothing else changes |
| Position.PromotionReplacesPawn | fog_of_war/chess_bitboards.py:131-136 | promoting a pawn in place removes it from the pawns and puts the new piece on its square |
| Position.PromotionAsWrittenMisplaces | fog_of_war/chess_bitboards.py:133-135 | as written, promoting on a8 toggles a1, d1, e1 and f1 (the bits of 57) rather than a8 |
| Position.OpeningPawnMove | fog_of_war/tests/test_fog_of_war_chess.py:56-88 | e2-e4 from the start gives the hand-built position |
| Position.LoneCastle | fog_of_war/tests/test_fog_of_war_chess.py:358-367 | the lone king's castle leaves kings = {g1} and rooks = {f1} |
| Collections.FirstType | bitboard_collections.py:50-55 | the loop stops at the first type board holding the square, or finds none |
| Collections.PieceAtLoop | bitboard_collections.py:40-55 | the loop with its early return computes the colour sign times the first type |
| Collections.PieceAtNone | bitboard_collections.py:40-55 | None exactly when no colour board, or no type board, holds the square |
| Collections.PieceAtFound | bitboard_collections.py:40-55 | otherwise the type is the first type board holding it, white exactly when the white board does |
| Collections.PieceAtAgrees | bitboard_collections.py:40-55 | on a consistent square it agrees with the later `piece_at` |
| Collections.MakeMove | bitboard_collections.py:89-120 | corrected: with masks built from the squares it is the later `make_move`, failing (TypeError) on the same moves |
| Collections.MakeMoveAsWritten | bitboard_collections.py:101-118 | as written it raises a TypeError exactly on castling moves (`current_bb & move.rook_frm`) and promotions (`self.pawns ^ move.frm`); otherwise it is the later `make_move` |
| Collections.MakeMoveAsWrittenRaises | bitboard_collections.py:101-118 | every applicable castle and every promotion succeeds with masks but raises as written; on all other moves the two agree and succeed |
| Collections.LoneCastle | bitboard_collections.py:89-120 | with masks the lone castle e1-g1 leaves the king on g1 and the rook on f1; as written it raises |
| Collections.NewGameAsWrittenMisplacesQueen | bitboard_collections.py:82-83 | as written the queen stands on d4: the position is not standard and `piece_at` finds no piece on d1 or d4 |
| Collections.NewGameLayout | test_bitboard_collections.py:54-75 | with the queen on d1 every square holds its standard piece |
| Collections.EmptyBoard | test_bitboard_collections.py:54-75 | on an empty position `piece_at` finds nothing |
| Collections.PawnAdvance | test_bitboard_collections.py:76-82 | a2-a3 from the start empties a2, puts the white pawn on a3 and matches the hand-built boards |
| Special.QueensideHas | bitboard_collections.py:134-137 | queenside rights are the castling rooks on the a-file |
| Special.KingsideHas | bitboard_collections.py:139-142 | kingside rights are the castling rooks on the h-file |
| Special.NewGameRights | bitboard_collections.py:144-157 | castling rooks {a1,h1,a8,h8}, kings {e1,e8}, no en-passant square |
| Special.SkippedSquare | bitboard_collections.py:173-174 | the en-passant square is on the origin's file, halfway between the two ranks |
| Special.UpdateSteps | bitboard_collections.py:159-184 | the three step-by-step updates compute `Update` |
| Special.UpdateEnPassant | bitboard_collections.py:164-174 | the en-passant square is set exactly after a pawn's 2→4 or 7→5 step, and holds only the skipped square |
| Special.UpdateForgetsEnPassant | bitboard_collections.py:164-184 | the result never depends on the old en-passant square |
| Special.UpdateKingRights | bitboard_collections.py:176-178 | a king right is lost exactly by a move from its home square; no other changes |
| Special.UpdateRookRights | bitboard_collections.py:180-182 | a rook right is lost exactly by a move from its corner; no other changes |
| Special.UpdateSeparatesRights | bitboard_collections.py:176-182 | a king's move leaves the rook rights unchanged, a rook's move the king rights |
| Special.UpdateMonotone | bitboard_collections.py:165-166 | the new rook and king rights are subsets of the old ones |
| Special.WhiteEnPassantExample | test_bitboard_collections.py:124-128 | a2-a4 from the start sets a3 and keeps all rights |
| Special.BlackEnPassantExample | test_bitboard_collections.py:129-132 | a7-a5 from the start sets a6 and keeps all rights |
| Special.KingMoveExamples | test_bitboard_collections.py:134-144 | a move from e1 (e8) removes only that king's right |
| Special.RookMoveExamples | test_bitboard_collections.py:146-172 | a move from a corner removes only that rook's right |
| Special.CastlingKeepsRookRight | bitboard_collections.py:177-182 | after e1-g1 castling, the king right is gone but the h1 rook right stays, as h1 is not the origin |
| Attacks.NeighbourSpec | test_attack_masks.py:27-46 | one step in a direction finds exactly the adjacent square, and nothing off the board |
| Attacks.RaySpec | test_attack_masks.py:48-119 | a ray holds exactly the squares along its direction up to and including the first occupied one |
| Attacks.KnightSpec | test_attack_masks.py:27-35 | a knight reaches exactly the squares one rank and two files, or two ranks and one file, away |
| Attacks.KingSpec | test_attack_masks.py:38-46 | a king reaches exactly the other squares at most one rank and one file away |
| Attacks.PawnAttacksSpec | test_attack_masks.py:5-25 | a pawn attacks the squares one file aside and one rank forward for its colour |
| Attacks.MaskIgnoresColour | test_attack_masks.py:122-143 | the non-pawn dispatch depends on the piece type only |
| Attacks.QueenIsRookAndBishop | test_attack_masks.py:122-143 | a queen reaches what a rook and a bishop on its square reach together |
| Attacks.PawnAttackExamples | test_attack_masks.py:5-25 | the pawn attack examples of the tests |
| Attacks.StepperExamples | test_attack_masks.py:27-46 | knight on h8 = {f7, g6}, knight on e4 has 8 squares, and the king examples |
| Attacks.RankMoveBlockedExample | test_attack_masks.py:48-59 | a rank ray stops at the first blocker, inclusive |
| Attacks.FileMoveBlockedExample | test_attack_masks.py:61-71 | a file ray stops at the first blocker, inclusive |
| Attacks.DiagonalMoveBlockedExample | test_attack_masks.py:73-119 | a diagonal ray stops at the first blocker, inclusive |
| Attacks.RookMaskExample | test_attack_masks.py:122-143 | the rook dispatch on c2 of an empty board, for both colours |
| Attacks.BishopMaskExample | test_attack_masks.py:122-143 | the bishop dispatch on c2 of an empty board, for both colours |
| Attacks.StepperMaskExamples | test_attack_masks.py:122-143 | the knight and king dispatch on c2 of an empty board |
| Game.FromFow | fog_of_war/fog_of_war_chess.py:71-83 | the child has the turn flipped, one more half move, the moved position and the special bitboards updated from the parent; it raises exactly when the position's move does |
| Game.FullMoveNumber | fog_of_war/fog_of_war_chess.py:93-99 | half_move // 2 + 1, as 2(r−1) ≤ half moves < 2r |
| Game.TwoPlies | fog_of_war/tests/test_fog_of_war_chess.py:205-221 | two plies bring the same side back, two half moves and one full move later |
| Game.FullMoveAfterPly | fog_of_war/fog_of_war_chess.py:93-99 | one ply raises the full-move number exactly after black's move |
| Game.IsOverOneKing | fog_of_war/fog_of_war_chess.py:129-132 | the game is over exactly when the kings board holds one square |
| Game.Winner | fog_of_war/fog_of_war_chess.py:134-144 | BLACK exactly when only black has a king, WHITE exactly when only white has one, None when both or neither do |
| Game.AnyoneAttacking | fog_of_war/fog_of_war_chess.py:150-157 | raises a ValueError exactly on the empty mask (`Square(0)`) |
| Game.AttackingHighest | fog_of_war/fog_of_war_chess.py:150-180 | on a non-empty mask the test asks about its highest square |
| Game.KnightAttacker | fog_of_war/fog_of_war_chess.py:170-180 | an opposing knight attacks every square a knight's move away |
| Game.KingAttacker | fog_of_war/fog_of_war_chess.py:169-180 | an opposing king or queen attacks every neighbouring square |
| Game.PawnAttacker | fog_of_war/fog_of_war_chess.py:172-175 | an opposing pawn attacks the squares diagonally ahead of it |
| Game.NoOpponentNoAttack | fog_of_war/fog_of_war_chess.py:165-180 | with no opposing piece, no square is attacked |
| Game.NonPawnMovesSpec | fog_of_war/fog_of_war_chess.py:195-201 | the non-pawn moves are exactly those from a non-pawn piece of the mover to a square its mask reaches that the mover does not hold |
| Game.NonPawnMovesFail | fog_of_war/fog_of_war_chess.py:196-199 | the loop raises exactly when `piece_at` raises on one of its origins |
| Game.SinglePushSpec | fog_of_war/fog_of_war_chess.py:254-271 | single pushes go to an empty square from the mover's pawn 8 squares back; the section raises exactly when a white pawn is on rank 8 |
| Game.DoublePushSpec | fog_of_war/fog_of_war_chess.py:254-274 | double pushes land on an empty rank-4 (white) or rank-5 (black) square over an empty square, from the pawn 16 squares back |
| Game.PawnCapturesSpec | fog_of_war/fog_of_war_chess.py:243-249 | pawn captures go from a pawn of the mover to an opposing piece it attacks |
| Game.PromotionSpec | fog_of_war/fog_of_war_chess.py:276-284 | once a pawn stands on the mover's own back rank, every pawn is offered the three promotions in place |
| Game.PromotionPiece | fog_of_war/fog_of_war_chess.py:282-284 | the corrected promotion piece has the requested type and the mover's colour |
| Game.PromotionPieceAsWrittenRaises | fog_of_war/fog_of_war_chess.py:282-284 | as written every white promotion builds `Piece(0)`, a ValueError; black's are correct |
| Game.EnPassantSpec | fog_of_war/fog_of_war_chess.py:286-296 | en passant: only when the en-passant square is set and empty, to it from each pawn of the mover attacking it |
| Game.KingsideSpec | fog_of_war/fog_of_war_chess.py:221-230 | kingside castling: the king from the highest square of our king mask to g, the rook h→f, when both rights are held, f or g is empty and the king's square, f and g are unattacked; an empty king mask raises |
| Game.QueensideSpec | fog_of_war/fog_of_war_chess.py:231-240 | queenside castling: the king from the highest square of our king mask to c, the rook a→d, when both rights are held, b, c or d is empty and the king's square, c and d are unattacked |
| Game.CastlingMovesSpec | fog_of_war/fog_of_war_chess.py:203-240 | the castling section raises a ValueError exactly when both rights are held, a side's emptiness test passes and the mover has no king; otherwise it yields exactly the allowed castles |
| Game.CastleIfSpec | fog_of_war/fog_of_war_chess.py:222-230 | one castle is yielded exactly when its tests pass and its squares are unattacked |
| Game.CastlingOntoOccupiedSquare | fog_of_war/fog_of_war_chess.py:224 | with f empty and g occupied the kingside test passes and the castle is offered |
| Game.NoPromotionOffOwnBackRank | fog_of_war/fog_of_war_chess.py:259-277 | promotions need a pawn on the mover's own back rank |
| Game.WhitePawnOnLastRankRaises | fog_of_war/fog_of_war_chess.py:255-271 | a white pawn on rank 8 makes the push raise, and the whole generator with it |
| Game.PawnMovesSpec | fog_of_war/fog_of_war_chess.py:242-296 | the pawn section yields exactly captures, pushes, promotions and en-passant moves, raising only on a white pawn on rank 8 |
| Game.PossibleMovesSpec | fog_of_war/fog_of_war_chess.py:182-296 | the generator raises exactly when a section does, and otherwise yields exactly the moves the sections describe |
| Game.GeneratedApplicable | fog_of_war/fog_of_war_chess.py:227-230 | every generated move can be applied: a rook target comes with its rook origin |
| Game.FlatMapScan | fog_of_war/fog_of_war_chess.py:196-201 | a nested loop over a scan yields the moves of every square of the board |
| Generator.NonPawnLoop | fog_of_war/fog_of_war_chess.py:195-201 | the nested loop computes the non-pawn section |
| Generator.AnyAttackedLoop | fog_of_war/fog_of_war_chess.py:225-226 | `any` over the attack tests, stopping at the first attacked square or error |
| Generator.CastlingSection | fog_of_war/fog_of_war_chess.py:203-240 | the method computes the castling section |
| Generator.CapturesLoop | fog_of_war/fog_of_war_chess.py:245-249 | the nested loop computes the pawn captures |
| Generator.SinglePushLoop | fog_of_war/fog_of_war_chess.py:270-271 | the loop computes the single pushes, raising on an origin off the board |
| Generator.DoublePushLoop | fog_of_war/fog_of_war_chess.py:273-274 | the loop computes the double pushes |
| Generator.PromotionLoop | fog_of_war/fog_of_war_chess.py:277-284 | the loop computes the promotions |
| Generator.EnPassantLoop | fog_of_war/fog_of_war_chess.py:287-296 | the loop computes the en-passant moves |
| Generator.PawnSection | fog_of_war/fog_of_war_chess.py:242-296 | the method computes the pawn section |
| Generator.PossibleMovesList | fog_of_war/fog_of_war_chess.py:117-118 | `list` of the generator computes `PossibleMoves` |
| Visibility.ReachMasksSpec | fog_of_war/fog_of_war_chess.py:318-321 | the reach masks are each non-pawn piece's targets, failing exactly when one `piece_at` raises |
| Visibility.EnPassantSightOwn | fog_of_war/fog_of_war_chess.py:347-350 | the en-passant branch adds only squares of the colour's own pawns |
| VisibilitySpec.VisibleSpec | fog_of_war/fog_of_war_chess.py:309-352 | a colour sees exactly its pieces, the squares its non-pawn pieces reach, the opposing pieces its pawns attack and its pawns' push squares |
| VisibilitySpec.VisibleFails | fog_of_war/fog_of_war_chess.py:318-321 | the fog raises exactly when `piece_at` raises on a non-pawn piece of the colour |
| VisibilitySpec.VisibleOwnPieces | fog_of_war/fog_of_war_chess.py:315 | a colour always sees its own pieces |
| VisibilitySpec.ReachedVisible | fog_of_war/fog_of_war_chess.py:317-322 | a colour sees every square its non-pawn pieces reach |
| VisibilitySpec.PawnSeenVisible | fog_of_war/fog_of_war_chess.py:324-341 | a colour sees its pawns' captures and push squares |
| VisibilitySpec.MoveTargetsVisible | fog_of_war/fog_of_war_chess.py:195-284 | the mover sees the target of every non-pawn, capture, push and promotion move it can make |
| VisibilitySpec.AsWrittenAgrees | fog_of_war/fog_of_war_chess.py:318-350 | whenever the as-written fog returns, it returns the corrected one |
| VisibilitySpec.AsWrittenRaises | fog_of_war/fog_of_war_chess.py:318-350 | as written it raises a TypeError exactly when the colour has no non-pawn piece, or the en-passant branch finds no pawn |
| Fog.OrFold | fog_of_war/helper_functions.py:18-20 | the accumulating loop computes the or-fold |
| Fog.ReachFold | fog_of_war/fog_of_war_chess.py:317-322 | the loop over origins computes the union of reach masks, or raises what `piece_at` raises |
| Fog.AddPawnSight | fog_of_war/fog_of_war_chess.py:324-350 | the pawn steps add exactly the pawn sight |
| Fog.VisibleSquares | fog_of_war/fog_of_war_chess.py:298-352 | the step-by-step `visible \|=` accumulation computes the corrected fog |
| DraftBitboards.FromFileAsWritten | bitboards.py:54-63 | a ValueError unless 1 ≤ f ≤ 8 |
| DraftBitboards.FromFileAsWrittenShiftsRanks | bitboards.py:54-63 | the draft's b-file is the a-file moved up one rank, its top bit past h8 |
| DraftBitboards.FromFileAsWrittenSquares | bitboards.py:54-63 | it holds a2 and not b1, unlike the b-file |
| DraftBitboards.PieceAtAsWrittenShifted | bitboards.py:85-96 | counting types from 0 makes a pawn raise and reads every other piece as the type one lower |
| DraftBitboards.PieceAtAsWrittenExamples | bitboards.py:85-96 | on the standard position e2 raises, the knight on b1 reads as a pawn |
| DraftBitboards.NewGameAsWrittenMisplaces | bitboards.py:98-113 | knights on 3/6/58/62, bishops on 2/7/57/63, rooks on 1/8/56/64: c1 holds a knight and h7 is both pawn and rook |
| DraftBitboards.StepHas | bitboards.py:118-124 | a board holding frm moves it to to; one holding only to loses it; others are unchanged |
| DraftBitboards.MakeMoveAgrees | bitboards.py:115-127 | on a plain move the draft's `make_move` is the later one |
| DraftBitboards.CastlingLeavesRook | bitboards.py:115-127 | the draft ignores the rook fields: castling moves only the king |
| DraftGame.NewGameAgainstPackage | fog_of_war_chess.py:69-75 | the draft starts from the package's state except for the white queen |
| DraftGame.MakeMoveIsFromFow | fog_of_war_chess.py:77-82 | with the mask-based `make_move` of `Collections.MakeMove`, the draft's move succeeds on the same moves as `from_fow` and then gives the same turn, position and rights; where `from_fow` raises a KeyError it raises a TypeError. As written the draft's move also raises on every castle and promotion (`Collections.MakeMoveAsWritten`) |
| DraftGame.TwoPlies | fog_of_war_chess.py:77-82 | two moves bring the same side back |
| DraftGame.IsOverAsWrittenKings | fog_of_war_chess.py:95-97 | the draft's game is over exactly when a king is on b1 and none above b1: the sum of bit positions is 1 |
| DraftGame.IsOverAsWrittenTwoKings | fog_of_war_chess.py:95-97 | kings on a1 and b1 end the draft's game but not the package's |
| DraftGame.IsOverAsWrittenLoneKing | fog_of_war_chess.py:95-97 | a lone king on e1 ends the package's game but not the draft's |
| DraftGame.Winner | fog_of_war_chess.py:99-110 | BLACK, WHITE or None by which colours still have a king |
| DraftGame.NonPawnMovesAsWritten | fog_of_war_chess.py:197-201 | the draft's non-pawn loop raises a KeyError exactly when the mover has a non-pawn piece |
| DraftGame.StartRaises | fog_of_war_chess.py:197-201 | so from the start the draft's move list raises |
| DraftGame.NonPawnTargetsNotOwn | fog_of_war_chess.py:198-201 | a non-pawn target is never a square of the mover's |
| DraftGame.WhiteDoublePushesAgree | fog_of_war_chess.py:255-259 | white's double pushes are the package's |
| DraftGame.BlackDoublePushNeedsRank8 | fog_of_war_chess.py:262-266 | a black double push needs a pawn on rank 8 and lands on rank 6 |
| DraftGame.BlackDoublePushesFromStart | fog_of_war_chess.py:262-266 | from the start the draft gives black no double push; the package gives all eight |
| DraftGame.PushMoveAsWritten | fog_of_war_chess.py:268-274 | a push built from the bit lengths of a bit position raises exactly for bit 0 |
| DraftGame.PushMoveAsWrittenWrong | fog_of_war_chess.py:268-274 | each such push goes to a square below the one meant, from `shift` squares above it |
| DraftGame.PushMoveAsWrittenExamples | fog_of_war_chess.py:268-270 | e2-e3 comes out as e2 to e1; a push onto a1 raises |
| DraftGame.VisibleAsWritten | fog_of_war_chess.py:304-352 | the draft's fog never returns: a KeyError with a non-pawn piece, a TypeError without |
| GameNode.Node.constructor | node.py:13-26 | a fresh node: not visited, no moves, no children, 0 visits and 0 score |
| GameNode.Node.Populate | node.py:28-32 | marks the node visited and makes one fresh child per generated move, in order, each one level deeper with its move and state; the unvisited list equals the children; raises exactly when the generator does |
| GameNode.Node.MakeChildren | node.py:31 | the comprehension makes distinct fresh children, one per move |
| GameNode.Node.UpdateScore | node.py:34-41 | one more visit, the change added to the score, nothing else changed |
| TreeNode.ScoreChange | MCTS/tree_node.py:109-114 | a tie changes nothing, a win of the node's player adds 1, any other outcome takes off 1 or 10000 when immediate |
| TreeNode.Node.constructor | MCTS/tree_node.py:11-30 | no children, no visits, no score |
| TreeNode.Node.HasUnvisitedChildren | MCTS/tree_node.py:46-51 | raises a TypeError exactly while the children are still None (`len(None)`) |
| TreeNode.Node.ChildrenTests | MCTS/tree_node.py:46-58 | while expansions count the visited children, the tests say "some child has 0 visits" and "some child has visits" |
| TreeNode.Node.UpdateScore | MCTS/tree_node.py:93-114 | one more visit and `ScoreChange` added to the score; nothing else changes |
| TreeNode.Node.ChildExpansion | MCTS/tree_node.py:144-158 | one more expansion, and a child with 0 visits, or a TypeError/IndexError when there is none |
| TreeNode.Unvisited | MCTS/tree_node.py:155 | the candidates are exactly the children with 0 visits |

## Left out

- Rendering is not modelled: `to_numpy`, `bitboard_to_numpy`, `board_as_numpy`, the foggy boards and `fog_of_war/fow_board.py`. These are numpy array code.
- The wrappers over python-chess (`chess_game.py`, `fog_of_war_chess_game.py`, `the_hybrid.py`) are not modelled. That library is not part of this model.
- The UCB value, rollouts and random moves are not modelled: `ucb`, `rollout`, `make_random_move` and the wall-clock search loop. They use floating point, randomness or a clock. The random choice of `child_expansion` is the parameter `pick`.
- TreeNode.Node.ChildExpansion: leaves out the chosen child's `populate_children`. That call goes to class-method stubs (`child_from_self`) that have no body in this source.
- The abstract tree-search files, `tree_search.py`, `mcts.py` and `MCTS/tree_root.py`, are not modelled. They do not define a runnable search.
- `__hash__` and `__eq__` are not modelled. Datatype equality stands for them.
- `cached_property` memoisation is not modelled. It has no effect on results.
- The magic-number experiments and the package's `__init__` are not modelled.
- The modules `attack_masks`, `piece`, `fog_of_war/special_move_bitboards`, `fog_of_war/square` and `fog_of_war/bitboard` are not part of this model:
  - the attack masks are rebuilt in `Attacks`;
  - the piece values in `Pieces`;
  - the special bitboards follow `SpecialMoveBitboards` of `bitboard_collections.py`;
  - the package's squares and bitboards follow `square.py` and `bitboard.py`.
- The draft generator's castling, capture, promotion and en-passant sections are not modelled, and neither is the draft `_anyone_attacking`. The draft's move list already raises at its first loop from any position with a non-pawn piece (`DraftGame.StartRaises`). Its attack test calls masks that are not part of this model.
- The start position's exact move lists are not proved as concrete sets: the 20 moves for white, and black's 20 after e2-e4. Neither is the lone king and rook position's move set, or the start fog equal to ranks 1-4. The general membership lemmas (`Game.PossibleMovesSpec`, `VisibilitySpec.VisibleSpec`) characterise these sets. Evaluating the scans on concrete boards is beyond the solver's resource limit.
- Python's unbounded shift is modelled where it changes a result: the white pawn push from rank 8 in the move generator (`Game.PushesOffBoard`) and the draft's `from_file`.
- Visibility.PushSight: a white pawn on rank 8 (reachable, as promotion is only offered off the own back rank) makes `pawns << 8 & ~everyones_pieces` (fog_of_war/fog_of_war_chess.py:335) keep bits at 2^64 and above, and `Bitboard(visible)` accepts them. The `bv64` push sight, and so `Fog.VisibleSquares`, drop those bits. The fog differs only in bits that stand for no square, so `VisibilitySpec.VisibleSpec` is unaffected.
- TreeNode.Node.constructor: takes the player and zeroes the expansion counter, as only the root's initialiser does (MCTS/tree_root.py:29-32). A plain node's `__init__` (MCTS/tree_node.py:11-30) sets neither field, so on such a node `has_unvisited_children`, `has_visited_children`, `child_expansion` and a decided `update_score` raise AttributeError; the model does not capture that.
- GameNode.Node.Populate: keeps the generated moves as a list. The source stores the generator object, which the comprehension of node.py:31 then exhausts.

## Findings

| source | as written | input that shows it | evidently intended | confidence | as-written member | corrected member |
|---|---|---|---|---|---|---|
| fog_of_war/chess_bitboards.py:133-135 | XORs the square number `move.to.value` into the promoted piece's board | promotion on a8 (57): toggles a1, d1, e1, f1 and leaves a8 empty | XOR the square's mask `Bitboard.from_square(move.to)` | not executed | Position.PromotionAsWrittenMisplaces | Position.PromotionReplacesPawn |
| fog_of_war/fog_of_war_chess.py:282-284 | `Piece(promote * (-1 * (not current_turn)))` | any white promotion: `not True` is 0, so `Piece(0)` raises | `Piece(promote)` for white, `Piece(-promote)` for black | not executed | Game.PromotionPieceAsWrittenRaises | Game.PromotionPiece |
| fog_of_war/helper_functions.py:26-27 | yields `Square(bit_length - 1)` | the a1 bit gives `Square(0)`, a ValueError; e4's bit gives d4 | `Square(bit_length)`, the square the top bit stands for | not executed | BitScan.ScanAsWrittenOffByOne | BitScan.SquaresOfMembers |
| fog_of_war/fog_of_war_chess.py:343-350 | `reduce_with_bitwise_or` over the pawns attacking the en-passant square, with no start value | an open en-passant square that none of the colour's pawns attacks: `reduce` of nothing raises a TypeError | the union of those pawns' squares, empty when there are none | not executed | VisibilitySpec.AsWrittenRaises | VisibilitySpec.VisibleSpec |
| fog_of_war/fog_of_war_chess.py:318-321 | `reduce_with_bitwise_or` over the non-pawn reach masks, with no start value | a colour with pawns and no other piece: `reduce` of nothing raises a TypeError | the empty union when there is no non-pawn piece | not executed | VisibilitySpec.AsWrittenRaises | VisibilitySpec.VisibleFails |
| bitboard.py:14-15 | `not (bb.bit_length() <= 64 or bb > -1)` rejects only values that are negative and wider than 64 bits | −1 and 2^64 are both accepted | accept exactly 0 ≤ bb < 2^64 | not executed | Bitboards.ConstructorAcceptsOutOfRange | Bitboards.CheckedBitboardRoundTrip |
| bitboard_collections.py:101-118 | `search` ANDs each bitboard with the square `move.rook_frm`, and the promotion branch XORs the pawns with the square `move.frm`; a square is a plain enumeration member | any castle, e.g. the lone castle e1-g1 with h1-f1, and any promotion: TypeError | the squares' masks, as the later `make_move` uses | not executed | Collections.MakeMoveAsWrittenRaises | Collections.LoneCastle |
| bitboard_collections.py:82-83 | the white queen is placed on d4 | `new_game().piece_at(d1)` finds no piece, as d1 is on the white board but on no type board | the queen on d1 | not executed | Collections.NewGameAsWrittenMisplacesQueen | Collections.NewGameLayout |
