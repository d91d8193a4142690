/**
 * The 64 squares of the board (square.py). Squares are numbered rank by
 * rank starting at 1: a1 = 1, b1 = 2, ..., h1 = 8, a2 = 9, ..., h8 = 64.
 * A square number fits in a byte, and a square is kept as a `bv8` so that
 * square arithmetic and bitboard masks are the same kind of value.
 */
module Squares {

  type Square = v: bv8 | 1 <= v <= 64 witness 1

  /** The row of a square, 1 for the white back rank. */
  function Rank(s: Square): (r: bv8)
    ensures 1 <= r <= 8
    ensures 8 * (r - 1) < s <= 8 * r
  {
    (s - 1) / 8 + 1
  }

  /** The column of a square, 1 for the a-file. */
  function File(s: Square): (f: bv8)
    ensures 1 <= f <= 8
    ensures s == 8 * (Rank(s) - 1) + f
  {
    (s - 1) % 8 + 1
  }

  /** The square in a given file and rank. */
  function SquareAt(file: bv8, rank: bv8): (s: Square)
    requires 1 <= file <= 8 && 1 <= rank <= 8
    ensures Rank(s) == rank && File(s) == file
  {
    8 * (rank - 1) + file
  }

  /** Rank and file identify a square. */
  lemma RankFileRoundTrip(s: Square)
    ensures SquareAt(File(s), Rank(s)) == s
  {
  }

  /** The distance between two ranks or two files. */
  function Dist(a: bv8, b: bv8): (d: bv8)
    ensures d == a - b || d == b - a
    ensures a <= b ==> d == b - a
  {
    if a >= b then a - b else b - a
  }

  /** The enum member name of a square: its file letter, then its rank digit. */
  function Name(s: Square): (n: string)
    ensures |n| == 2 && 'a' <= n[0] <= 'h' && '1' <= n[1] <= '8'
  {
    [(('a' as int) + (File(s) as int) - 1) as char, (('0' as int) + (Rank(s) as int)) as char]
  }

  /** The name built for a given rank number and letter offset. */
  function RankLetterName(number: int, letter: int): string
    requires 1 <= number <= 8 && 0 <= letter < 8
  {
    [(('a' as int) + letter) as char, (('0' as int) + number) as char]
  }

  /** The square numbered i + 1 gets the name built for index i. */
  lemma NameAtIndex(s: Square)
    ensures Name(s) == RankLetterName(((s as int) - 1) / 8 + 1, ((s as int) - 1) % 8)
  {
    assert Rank(s) as int == ((s as int) - 1) / 8 + 1;
    assert File(s) as int == ((s as int) - 1) % 8 + 1;
  }

  /**
   * Builds the member names in the order the enum numbers them: the rank
   * number in the outer loop, the letters a..h in the inner loop.
   * The i-th name built belongs to the square numbered i + 1.
   */
  method BuildNameTable() returns (names: seq<string>)
    ensures |names| == 64
    ensures forall s: Square :: names[(s as int) - 1] == Name(s)
  {
    names := [];
    var number := 1;
    while number <= 8
      invariant 1 <= number <= 9
      invariant |names| == 8 * (number - 1)
      invariant forall i :: 0 <= i < |names| ==> names[i] == RankLetterName(i / 8 + 1, i % 8)
    {
      var letter := 0;
      while letter < 8
        invariant 0 <= letter <= 8
        invariant |names| == 8 * (number - 1) + letter
        invariant forall i :: 0 <= i < |names| ==> names[i] == RankLetterName(i / 8 + 1, i % 8)
      {
        names := names + [RankLetterName(number, letter)];
        letter := letter + 1;
      }
      number := number + 1;
    }
    forall s: Square
      ensures names[(s as int) - 1] == Name(s)
    {
      NameAtIndex(s);
    }
  }

  /** Different squares have different names, so the enum has 64 members. */
  lemma NamesDistinct(s: Square, t: Square)
    ensures Name(s) == Name(t) <==> s == t
  {
    if Name(s) == Name(t) {
      assert File(s) == File(t) && Rank(s) == Rank(t);
      RankFileRoundTrip(s);
      RankFileRoundTrip(t);
    }
  }

  /** The ordering of squares follows ranks first, then files. */
  lemma SquareOrder(s: Square, t: Square)
    ensures s < t <==> Rank(s) < Rank(t) || (Rank(s) == Rank(t) && File(s) < File(t))
  {
  }

  /** The names the tests look up resolve to the numbers 1, 2, 8, 9 and 64. */
  lemma NamedSquares()
    ensures Name(A1) == "a1" && Name(B1) == "b1" && Name(H1) == "h1"
    ensures Name(A2) == "a2" && Name(A8) == "a8" && Name(H8) == "h8"
    ensures A1 == 1 && B1 == 2 && H1 == 8 && A2 == 9 && H8 == 64
  {
  }

  const A1: Square := 1
  const B1: Square := 2
  const C1: Square := 3
  const D1: Square := 4
  const E1: Square := 5
  const F1: Square := 6
  const G1: Square := 7
  const H1: Square := 8
  const A2: Square := 9
  const B2: Square := 10
  const C2: Square := 11
  const D2: Square := 12
  const E2: Square := 13
  const F2: Square := 14
  const G2: Square := 15
  const H2: Square := 16
  const A3: Square := 17
  const B3: Square := 18
  const C3: Square := 19
  const D3: Square := 20
  const E3: Square := 21
  const F3: Square := 22
  const G3: Square := 23
  const H3: Square := 24
  const A4: Square := 25
  const B4: Square := 26
  const C4: Square := 27
  const D4: Square := 28
  const E4: Square := 29
  const F4: Square := 30
  const G4: Square := 31
  const H4: Square := 32
  const A5: Square := 33
  const B5: Square := 34
  const C5: Square := 35
  const D5: Square := 36
  const E5: Square := 37
  const F5: Square := 38
  const G5: Square := 39
  const H5: Square := 40
  const A6: Square := 41
  const B6: Square := 42
  const C6: Square := 43
  const D6: Square := 44
  const E6: Square := 45
  const F6: Square := 46
  const G6: Square := 47
  const H6: Square := 48
  const A7: Square := 49
  const B7: Square := 50
  const C7: Square := 51
  const D7: Square := 52
  const E7: Square := 53
  const F7: Square := 54
  const G7: Square := 55
  const H7: Square := 56
  const A8: Square := 57
  const B8: Square := 58
  const C8: Square := 59
  const D8: Square := 60
  const E8: Square := 61
  const F8: Square := 62
  const G8: Square := 63
  const H8: Square := 64
}
