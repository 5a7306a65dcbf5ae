/** `parse_line`: one strategy line into its two column codes, or the first failure met. */
module LineParser {
  import opened Wrappers
  import opened Codes

  /** The parsed unit of one input line. */
  type StrategyLine = (Column1, Column2)

  const MissingColumn1: string := "Missing column 1 char"
  const MissingDelimiter: string := "Invalid or missing space delimiter"
  const MissingColumn2: string := "Missing column 2 char"
  const TrailingChars: string := "Unexpected trailing chars"

  /** The one line that writes a pair of codes. */
  function EncodeLine(l: StrategyLine): (s: string)
    ensures |s| == 3 && s[1] == ' '
  {
    [Column1Char(l.0), ' ', Column2Char(l.1)]
  }

  /**
   * The parser's meaning, scanning left to right with the first failure winning:
   * a column-1 char, exactly one space, a column-2 char, then the end of the line.
   */
  function ParseLine(line: string): (r: Result<StrategyLine, string>)
    ensures r.Ok? <==> |line| == 3 && IsColumn1Char(line[0]) && line[1] == ' ' && IsColumn2Char(line[2])
    ensures r.Ok? ==> EncodeLine(r.value) == line
  {
    if |line| == 0 then Err(MissingColumn1)
    else
      match Column1FromChar(line[0])
      case Err(e) => Err(e)
      case Ok(col1) =>
        if |line| < 2 || line[1] != ' ' then Err(MissingDelimiter)
        else if |line| < 3 then Err(MissingColumn2)
        else
          match Column2FromChar(line[2])
          case Err(e) => Err(e)
          case Ok(col2) =>
            if |line| > 3 then Err(TrailingChars)
            else Ok((col1, col2))
  }

  /** Writing a pair of codes and parsing the line gives the pair back. */
  lemma ParseLineRoundTrip(l: StrategyLine)
    ensures ParseLine(EncodeLine(l)) == Ok(l)
  {
    ColumnCharRoundTrip(l.0, l.1);
  }

  /** Which error each malformed line gets: checks run left to right and the first failure wins. */
  lemma ParseLineFirstFailureWins(line: string)
    ensures |line| == 0 ==> ParseLine(line) == Err(MissingColumn1)
    ensures |line| >= 1 && !IsColumn1Char(line[0]) ==> ParseLine(line) == Err(InvalidChar)
    ensures |line| >= 1 && IsColumn1Char(line[0]) && (|line| == 1 || line[1] != ' ')
            ==> ParseLine(line) == Err(MissingDelimiter)
    ensures |line| == 2 && IsColumn1Char(line[0]) && line[1] == ' '
            ==> ParseLine(line) == Err(MissingColumn2)
    ensures |line| >= 3 && IsColumn1Char(line[0]) && line[1] == ' ' && !IsColumn2Char(line[2])
            ==> ParseLine(line) == Err(InvalidChar)
    ensures |line| >= 4 && IsColumn1Char(line[0]) && line[1] == ' ' && IsColumn2Char(line[2])
            ==> ParseLine(line) == Err(TrailingChars)
  {
  }

  /** The `Chars` iterator over a line: a cursor that hands out one character per call. */
  class Chars {
    const text: string
    var pos: nat

    ghost predicate Valid()
      reads this
    {
      pos <= |text|
    }

    constructor (s: string)
      ensures Valid() && text == s && pos == 0
    {
      text := s;
      pos := 0;
    }

    /** The next character, or None once the line is used up. */
    method Next() returns (c: Option<char>)
      requires Valid()
      modifies this
      ensures Valid()
      ensures old(pos) < |text| ==> c == Some(text[old(pos)]) && pos == old(pos) + 1
      ensures old(pos) == |text| ==> c == None && pos == old(pos)
    {
      if pos < |text| {
        c := Some(text[pos]);
        pos := pos + 1;
      } else {
        c := None;
      }
    }
  }

  /** `parse_line` as written: successive `next()` calls on one iterator, `?` returning early. */
  method ParseLineScan(line: string) returns (r: Result<StrategyLine, string>)
    ensures r == ParseLine(line)
  {
    var chars := new Chars(line);

    var next := chars.Next();
    var ch1 :- OkOr(next, MissingColumn1);
    var col1 :- Column1FromChar(ch1);

    next := chars.Next();
    var delimiter :- OkOr(if next == Some(' ') then next else None, MissingDelimiter);

    next := chars.Next();
    var ch2 :- OkOr(next, MissingColumn2);
    var col2 :- Column2FromChar(ch2);

    next := chars.Next();
    if next.Some? {
      return Err(TrailingChars);
    }

    return Ok((col1, col2));
  }
}
