/**
 * The pure helpers of src/helper/helper.js: the rank ladder, the chessboard square colour,
 * Persian digit substitution and the greeting chosen from the hour of the day.
 */
module Helper {
  import opened Wrappers

  // ---------------------------------------------------------------- rank ladder

  /** The lowest total score of ranks 1..8, in order. */
  const RankFloor: seq<int> := [0, 100, 300, 600, 1000, 1500, 2200, 3000]

  /**
   * `calculateRank`: the rank is the rung of the ladder whose lower bound the score reaches
   * and whose successor's lower bound it does not (rank 8 has no successor; a score below
   * 100, negative ones included, is rank 1).
   */
  function CalculateRank(totalScore: int): (rank: int)
    ensures 1 <= rank <= 8
    ensures rank == 1 || RankFloor[rank - 1] <= totalScore
    ensures rank == 8 || totalScore < RankFloor[rank]
  {
    if totalScore >= 3000 then 8
    else if totalScore >= 2200 then 7
    else if totalScore >= 1500 then 6
    else if totalScore >= 1000 then 5
    else if totalScore >= 600 then 4
    else if totalScore >= 300 then 3
    else if totalScore >= 100 then 2
    else 1
  }

  /** The ladder's floors rise strictly, so each rung is a half-open interval. */
  lemma RankFloorIncreasing(i: int, j: int)
    requires 0 <= i < j < |RankFloor|
    ensures RankFloor[i] < RankFloor[j]
  {
  }

  /** The bounds are inclusive lower bounds. */
  lemma RankBoundaries()
    ensures CalculateRank(99) == 1 && CalculateRank(100) == 2
    ensures CalculateRank(299) == 2 && CalculateRank(300) == 3
    ensures CalculateRank(2999) == 7 && CalculateRank(3000) == 8
  {
  }

  /** A higher score never gives a lower rank. */
  lemma RankMonotone(a: int, b: int)
    requires a <= b
    ensures CalculateRank(a) <= CalculateRank(b)
  {
  }

  // ---------------------------------------------------------------- square colour

  datatype SquareColor = Black | White

  predicate IsDecimalDigit(c: char)
  {
    '0' <= c <= '9'
  }

  /** `file.charCodeAt(0) - "a".charCodeAt(0) + 1`: a is 1, h is 8. */
  function FileNumber(file: char): int
  {
    file as int - 'a' as int + 1
  }

  /**
   * `getSquareColor`: file number plus the rank digit; an even sum is black. When the second
   * character is missing or is not a digit, `parseInt` yields NaN, `NaN % 2 === 0` is false
   * and the square is white. Only the zero test of `%` matters, so JavaScript's truncating
   * remainder and Dafny's Euclidean one agree here even for files before 'a'.
   */
  function GetSquareColor(square: string): (c: SquareColor)
    ensures !(|square| >= 2 && IsDecimalDigit(square[1])) ==> c == White
    ensures IsBoardSquare(square) ==> (c == Black <==> (BoardFile(square) + BoardRank(square)) % 2 == 0)
  {
    if |square| >= 2 && IsDecimalDigit(square[1]) then
      if (FileNumber(square[0]) + (square[1] as int - '0' as int)) % 2 == 0 then Black else White
    else
      White
  }

  /** A square of the 8x8 board, file a..h then rank 1..8. */
  predicate IsBoardSquare(square: string)
  {
    |square| == 2 && 'a' <= square[0] <= 'h' && '1' <= square[1] <= '8'
  }

  function BoardFile(square: string): int requires IsBoardSquare(square) { FileNumber(square[0]) }

  function BoardRank(square: string): int requires IsBoardSquare(square) { square[1] as int - '0' as int }

  /** On the board, a square is black exactly when file number plus rank is even. */
  lemma SquareColorParity(square: string)
    requires IsBoardSquare(square)
    ensures 1 <= BoardFile(square) <= 8 && 1 <= BoardRank(square) <= 8
    ensures GetSquareColor(square) == Black <==> (BoardFile(square) + BoardRank(square)) % 2 == 0
  {
  }

  lemma CornerColors()
    ensures GetSquareColor("a1") == Black && GetSquareColor("h1") == White
    ensures GetSquareColor("a8") == White && GetSquareColor("h8") == Black
  {
  }

  /** Two board squares one file or one rank apart have different colours. */
  lemma {:induction false} NeighboursDiffer(p: string, q: string)
    requires IsBoardSquare(p) && IsBoardSquare(q)
    requires (BoardFile(p) == BoardFile(q) && (BoardRank(p) - BoardRank(q) == 1 || BoardRank(q) - BoardRank(p) == 1))
          || (BoardRank(p) == BoardRank(q) && (BoardFile(p) - BoardFile(q) == 1 || BoardFile(q) - BoardFile(p) == 1))
    ensures GetSquareColor(p) != GetSquareColor(q)
  {
    SquareColorParity(p);
    SquareColorParity(q);
  }

  // ---------------------------------------------------------------- Persian digits

  /** `farsiDigits`: the Extended Arabic-Indic digits zero to nine. */
  const FarsiDigits: seq<char> := ['۰', '۱', '۲', '۳', '۴', '۵', '۶', '۷', '۸', '۹']

  /** The replacement applied by `/\d/g`: an ASCII digit d becomes `farsiDigits[d]`. */
  function FarsiDigit(c: char): char
  {
    if IsDecimalDigit(c) then FarsiDigits[c as int - '0' as int] else c
  }

  predicate IsFarsiDigit(c: char)
  {
    '۰' <= c <= '۹'
  }

  /** The table holds the ten consecutive code points from U+06F0 on. */
  lemma FarsiDigitsConsecutive()
    ensures forall d :: 0 <= d < 10 ==> FarsiDigits[d] as int == '۰' as int + d
  {
  }

  /** The digit substitution of `toFarsiNumber`, applied to already rendered text. */
  function ToFarsiDigits(s: string): (r: string)
    ensures |r| == |s|
    ensures forall k :: 0 <= k < |s| ==> r[k] == FarsiDigit(s[k])
  {
    if s == [] then [] else [FarsiDigit(s[0])] + ToFarsiDigits(s[1..])
  }

  /**
   * `toFarsiNumber`: the input is `None` when it is falsy, otherwise its `toLocaleString`
   * rendering; a falsy input is rendered as the number 0.
   */
  function ToFarsiNumber(rendered: Option<string>): (r: string)
    ensures rendered.None? ==> r == "۰"
    ensures rendered.Some? ==> r == ToFarsiDigits(rendered.value)
  {
    match rendered
    case None => ToFarsiDigits("0")
    case Some(text) => ToFarsiDigits(text)
  }

  /** The inverse substitution: a Persian digit back to its ASCII digit. */
  function AsciiDigit(c: char): char
  {
    if IsFarsiDigit(c) then (c as int - '۰' as int + '0' as int) as char else c
  }

  /** No ASCII digit survives the substitution, and every other character is kept. */
  lemma FarsiDigitsReplaceAll(s: string)
    ensures forall k :: 0 <= k < |s| ==> !IsDecimalDigit(ToFarsiDigits(s)[k])
    ensures forall k :: 0 <= k < |s| && !IsDecimalDigit(s[k]) ==> ToFarsiDigits(s)[k] == s[k]
  {
  }

  /** A character that is not a Persian digit is recovered from its substitution. */
  lemma FarsiDigitInverse(c: char)
    requires !IsFarsiDigit(c)
    ensures AsciiDigit(FarsiDigit(c)) == c
  {
    FarsiDigitsConsecutive();
  }

  /** Text without Persian digits is recovered from its substitution. */
  lemma FarsiDigitsRoundTrip(s: string)
    requires forall k :: 0 <= k < |s| ==> !IsFarsiDigit(s[k])
    ensures forall k :: 0 <= k < |s| ==> AsciiDigit(ToFarsiDigits(s)[k]) == s[k]
  {
    forall k | 0 <= k < |s|
      ensures AsciiDigit(ToFarsiDigits(s)[k]) == s[k]
    {
      FarsiDigitInverse(s[k]);
    }
  }

  // ---------------------------------------------------------------- greeting

  datatype Greeting = Morning | Noon | Evening | Night

  /** `getGreeting` as a function of the hour read from the clock. */
  function GreetingFor(hour: int): (g: Greeting)
    ensures g == Morning <==> 5 <= hour < 12
    ensures g == Noon <==> 12 <= hour < 17
    ensures g == Evening <==> 17 <= hour < 21
    ensures g == Night <==> hour < 5 || 21 <= hour
  {
    if hour >= 5 && hour < 12 then Morning
    else if hour >= 12 && hour < 17 then Noon
    else if hour >= 17 && hour < 21 then Evening
    else Night
  }

  /** The text `getGreeting` returns for each part of the day. */
  function GreetingText(g: Greeting): string
  {
    match g
    case Morning => "صبح بخیر! ☀️"
    case Noon => "ظهر بخیر! 🌤️"
    case Evening => "عصر بخیر! 🌇"
    case Night => "شب بخیر! 🌙"
  }
}
