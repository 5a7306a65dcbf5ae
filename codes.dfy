/** The raw column codes of a strategy line and their fixed readings as hands and outcomes. */
module Codes {
  import opened Wrappers
  import opened Game

  datatype Column1 = A | B | C

  datatype Column2 = X | Y | Z

  const InvalidChar: string := "Invalid char"

  predicate IsColumn1Char(ch: char)
  {
    ch == 'A' || ch == 'B' || ch == 'C'
  }

  predicate IsColumn2Char(ch: char)
  {
    ch == 'X' || ch == 'Y' || ch == 'Z'
  }

  /** The character a column-1 code is written as. */
  function Column1Char(c: Column1): (ch: char)
    ensures IsColumn1Char(ch)
  {
    match c
    case A => 'A'
    case B => 'B'
    case C => 'C'
  }

  /** The character a column-2 code is written as. */
  function Column2Char(c: Column2): (ch: char)
    ensures IsColumn2Char(ch)
  {
    match c
    case X => 'X'
    case Y => 'Y'
    case Z => 'Z'
  }

  /** `Column1::try_from`: succeeds exactly on 'A', 'B' and 'C' and recovers the code written. */
  function Column1FromChar(ch: char): (r: Result<Column1, string>)
    ensures r.Ok? <==> IsColumn1Char(ch)
    ensures r.Ok? ==> Column1Char(r.value) == ch
    ensures r.Err? ==> r.error == InvalidChar
  {
    match ch
    case 'A' => Ok(A)
    case 'B' => Ok(B)
    case 'C' => Ok(C)
    case _ => Err(InvalidChar)
  }

  /** `Column2::try_from`: succeeds exactly on 'X', 'Y' and 'Z' and recovers the code written. */
  function Column2FromChar(ch: char): (r: Result<Column2, string>)
    ensures r.Ok? <==> IsColumn2Char(ch)
    ensures r.Ok? ==> Column2Char(r.value) == ch
    ensures r.Err? ==> r.error == InvalidChar
  {
    match ch
    case 'X' => Ok(X)
    case 'Y' => Ok(Y)
    case 'Z' => Ok(Z)
    case _ => Err(InvalidChar)
  }

  /** Decoding undoes writing, for both columns. */
  lemma ColumnCharRoundTrip(c1: Column1, c2: Column2)
    ensures Column1FromChar(Column1Char(c1)) == Ok(c1)
    ensures Column2FromChar(Column2Char(c2)) == Ok(c2)
  {
    match c1
    case A =>
    case B =>
    case C =>
  }

  /** `From<Column1> for Hand`: the n-th letter is the hand worth n base points. */
  function Column1ToHand(c: Column1): (h: Hand)
    ensures ShapePoints(h) == Column1Char(c) as int - 'A' as int + 1
  {
    match c
    case A => Rock
    case B => Paper
    case C => Scissors
  }

  /** `From<Column2> for Hand`: the n-th letter is the hand worth n base points. */
  function Column2ToHand(c: Column2): (h: Hand)
    ensures ShapePoints(h) == Column2Char(c) as int - 'X' as int + 1
  {
    match c
    case X => Rock
    case Y => Paper
    case Z => Scissors
  }

  /** `From<Column2> for Outcome`: the n-th letter is the outcome worth 3(n-1) points. */
  function Column2ToOutcome(c: Column2): (o: Outcome)
    ensures OutcomePoints(o) == 3 * (Column2Char(c) as int - 'X' as int)
  {
    match c
    case X => Lose
    case Y => Draw
    case Z => Win
  }

  /** The letters, read through the conversions, give these hands. */
  lemma HandConversionTable()
    ensures Column1ToHand(Column1FromChar('A').value) == Rock
    ensures Column1ToHand(Column1FromChar('B').value) == Paper
    ensures Column1ToHand(Column1FromChar('C').value) == Scissors
    ensures Column2ToHand(Column2FromChar('X').value) == Rock
    ensures Column2ToHand(Column2FromChar('Y').value) == Paper
    ensures Column2ToHand(Column2FromChar('Z').value) == Scissors
  {
  }

  /** The column-2 letters, read as outcomes, give these outcomes. */
  lemma OutcomeConversionTable()
    ensures Column2ToOutcome(Column2FromChar('X').value) == Lose
    ensures Column2ToOutcome(Column2FromChar('Y').value) == Draw
    ensures Column2ToOutcome(Column2FromChar('Z').value) == Win
  {
  }

  /**
   * Both columns map onto hands in the same letter order (the n-th letter of
   * either alphabet is the same hand), and every conversion is one-to-one.
   */
  lemma ConversionsAgreeAndAreInjective(a1: Column1, a2: Column1, b1: Column2, b2: Column2)
    ensures Column1ToHand(a1) == Column2ToHand(b1)
            <==> Column1Char(a1) as int - 'A' as int == Column2Char(b1) as int - 'X' as int
    ensures Column1ToHand(a1) == Column1ToHand(a2) ==> a1 == a2
    ensures Column2ToHand(b1) == Column2ToHand(b2) ==> b1 == b2
    ensures Column2ToOutcome(b1) == Column2ToOutcome(b2) ==> b1 == b2
  {
    match a1
    case A =>
    case B =>
    case C =>
  }
}
