/** The two scoring modes and the pure part of `run`: mode line, per-line parsing, diagnostics, sum. */
module Runner {
  import opened Wrappers
  import opened Game
  import opened Codes
  import opened LineParser

  const MissingFirstLine: string := "Missing data on first line"
  const MalformedInput: string := "Malformed input"

  datatype Mode = Part1 | Part2

  /** The mode the first line selects; only the exact texts "Part 1" and "Part 2" do. */
  function ModeOf(first: string): (m: Option<Mode>)
    ensures m == Some(Part1) <==> first == "Part 1"
    ensures m == Some(Part2) <==> first == "Part 2"
  {
    if first == "Part 1" then Some(Part1)
    else if first == "Part 2" then Some(Part2)
    else None
  }

  /** Part 1: both columns are hands; the round is scored as it falls. */
  function Part1Game(l: StrategyLine): (r: nat)
    ensures r == ShapePoints(Column2ToHand(l.1))
                 + OutcomePoints(RoundOutcome(Column1ToHand(l.0), Column2ToHand(l.1)))
    ensures 1 <= r <= 9
  {
    Score(Column1ToHand(l.0), Column2ToHand(l.1))
  }

  /** Part 2: column 2 is the outcome to reach, and the outcome points are exactly its points. */
  function Part2Game(l: StrategyLine): (r: nat)
    ensures r == ShapePoints(PickStrategy(Column1ToHand(l.0), Column2ToOutcome(l.1)))
                 + OutcomePoints(Column2ToOutcome(l.1))
    ensures 1 <= r <= 9
  {
    Score(Column1ToHand(l.0), PickStrategy(Column1ToHand(l.0), Column2ToOutcome(l.1)))
  }

  /** The unit tests' fixed values for the two modes. */
  lemma GamesMatchUnitTests()
    ensures Part1Game((A, Y)) == 8 && Part1Game((B, X)) == 1 && Part1Game((C, Z)) == 6
    ensures Part2Game((A, Y)) == 4 && Part2Game((B, X)) == 1 && Part2Game((C, Z)) == 7
  {
  }

  /** The game of the selected mode, the `match part` dispatch. */
  function Play(mode: Mode, l: StrategyLine): (r: nat)
    ensures mode == Part1 ==>
              r - ShapePoints(Column2ToHand(l.1)) == OutcomePoints(RoundOutcome(Column1ToHand(l.0), Column2ToHand(l.1)))
    ensures mode == Part2 ==>
              r - ShapePoints(PickStrategy(Column1ToHand(l.0), Column2ToOutcome(l.1))) == OutcomePoints(Column2ToOutcome(l.1))
    ensures 1 <= r <= 9
  {
    match mode
    case Part1 => Part1Game(l)
    case Part2 => Part2Game(l)
  }

  /** A skipped line: its 1-based number among the strategy lines and the parser's reason. */
  datatype Diagnostic = Diagnostic(line: nat, reason: string)

  /** What the enumerate/filter_map stage yields: the lines that parse, and one diagnostic per line that does not. */
  datatype Scan = Scan(strategies: seq<StrategyLine>, diagnostics: seq<Diagnostic>)

  /** Diagnostics renumbered as if `k` lines came before them. */
  function Shift(ds: seq<Diagnostic>, k: nat): (r: seq<Diagnostic>)
    ensures |r| == |ds|
    ensures forall i :: 0 <= i < |ds| ==> r[i] == Diagnostic(ds[i].line + k, ds[i].reason)
  {
    seq(|ds|, i requires 0 <= i < |ds| => Diagnostic(ds[i].line + k, ds[i].reason))
  }

  /**
   * Parses every line, keeping the successes in order and reporting each failure
   * with its 1-based line number, in increasing order of line.
   */
  function ScanLines(lines: seq<string>): (r: Scan)
    ensures |r.strategies| + |r.diagnostics| == |lines|
    ensures forall k :: 0 <= k < |r.diagnostics| ==> 1 <= r.diagnostics[k].line <= |lines|
    ensures forall j, k :: 0 <= j < k < |r.diagnostics| ==> r.diagnostics[j].line < r.diagnostics[k].line
  {
    if lines == [] then Scan([], [])
    else
      var n := |lines|;
      var prev := ScanLines(lines[..n - 1]);
      match ParseLine(lines[n - 1])
      case Ok(l) => Scan(prev.strategies + [l], prev.diagnostics)
      case Err(e) => Scan(prev.strategies, prev.diagnostics + [Diagnostic(n, e)])
  }

  /** Every diagnostic is true: the line it names fails to parse, for the reason it gives. */
  lemma {:induction false} ScanLinesDiagnosticsSound(lines: seq<string>, k: nat)
    requires k < |ScanLines(lines).diagnostics|
    ensures var d := ScanLines(lines).diagnostics[k];
            ParseLine(lines[d.line - 1]) == Err(d.reason)
  {
    var n := |lines|;
    var prefix := lines[..n - 1];
    if k < |ScanLines(prefix).diagnostics| {
      ScanLinesDiagnosticsSound(prefix, k);
      assert prefix[ScanLines(prefix).diagnostics[k].line - 1] == lines[ScanLines(prefix).diagnostics[k].line - 1];
    }
  }

  /** Every line that fails to parse is reported, under its own number and reason. */
  lemma {:induction false} ScanLinesReportsEveryFailure(lines: seq<string>, i: nat)
    requires i < |lines| && ParseLine(lines[i]).Err?
    ensures Diagnostic(i + 1, ParseLine(lines[i]).error) in ScanLines(lines).diagnostics
  {
    var n := |lines|;
    if i < n - 1 {
      var prefix := lines[..n - 1];
      assert prefix[i] == lines[i];
      ScanLinesReportsEveryFailure(prefix, i);
    }
  }

  /** Scanning one more line: a success is appended to the strategies, a failure reported under its number. */
  lemma ScanLinesSnoc(lines: seq<string>, line: string)
    ensures ScanLines(lines + [line])
            == match ParseLine(line)
               case Ok(l) => Scan(ScanLines(lines).strategies + [l], ScanLines(lines).diagnostics)
               case Err(e) => Scan(ScanLines(lines).strategies,
                                   ScanLines(lines).diagnostics + [Diagnostic(|lines| + 1, e)])
  {
    assert (lines + [line])[..|lines|] == lines;
  }

  /** When every line parses, nothing is reported and every line is kept. */
  lemma {:induction false} ScanLinesAllParse(lines: seq<string>)
    requires forall i :: 0 <= i < |lines| ==> ParseLine(lines[i]).Ok?
    ensures ScanLines(lines).diagnostics == []
    ensures |ScanLines(lines).strategies| == |lines|
  {
    if lines != [] {
      var prefix := lines[..|lines| - 1];
      assert forall i :: 0 <= i < |prefix| ==> prefix[i] == lines[i];
      ScanLinesAllParse(prefix);
    }
  }

  /** Every kept strategy is the parse of one of the lines, and when all lines parse they are kept in order. */
  lemma {:induction false} ScanLinesStrategiesFromLines(lines: seq<string>, k: nat)
    requires k < |ScanLines(lines).strategies|
    ensures EncodeLine(ScanLines(lines).strategies[k]) in lines
    ensures (forall i :: 0 <= i < |lines| ==> ParseLine(lines[i]).Ok?)
            ==> ScanLines(lines).strategies[k] == ParseLine(lines[k]).value
  {
    var n := |lines|;
    var prefix := lines[..n - 1];
    var prev := ScanLines(prefix).strategies;
    assert forall i :: 0 <= i < n - 1 ==> prefix[i] == lines[i];
    if k < |prev| {
      ScanLinesStrategiesFromLines(prefix, k);
      assert EncodeLine(prev[k]) in prefix;
    } else if (forall i :: 0 <= i < n ==> ParseLine(lines[i]).Ok?) {
      ScanLinesAllParse(prefix);
    }
  }

  /** Scanning splits over concatenated input: the successes of the two parts are joined. */
  lemma {:induction false} ScanLinesAppendStrategies(a: seq<string>, b: seq<string>)
    ensures ScanLines(a + b).strategies == ScanLines(a).strategies + ScanLines(b).strategies
  {
    if b == [] {
      assert a + b == a;
    } else {
      var b', line := b[..|b| - 1], b[|b| - 1];
      assert a + b == (a + b') + [line];
      ScanLinesAppendStrategies(a, b');
      ScanLinesSnoc(a + b', line);
      ScanLinesSnoc(b', line);
      if ParseLine(line).Ok? {
        var sa, sb' := ScanLines(a).strategies, ScanLines(b').strategies;
        assert sa + sb' + [ParseLine(line).value] == sa + (sb' + [ParseLine(line).value]);
      }
    }
  }

  /** Renumbering commutes with appending one diagnostic. */
  lemma ShiftSnoc(prefix: seq<Diagnostic>, ds: seq<Diagnostic>, d: Diagnostic, k: nat)
    ensures prefix + Shift(ds + [d], k) == prefix + Shift(ds, k) + [Diagnostic(d.line + k, d.reason)]
  {
    assert Shift(ds + [d], k) == Shift(ds, k) + [Diagnostic(d.line + k, d.reason)];
  }

  /** Scanning splits over concatenated input: the second part's diagnostics are renumbered. */
  lemma {:induction false} ScanLinesAppendDiagnostics(a: seq<string>, b: seq<string>)
    ensures ScanLines(a + b).diagnostics == ScanLines(a).diagnostics + Shift(ScanLines(b).diagnostics, |a|)
  {
    if b == [] {
      assert a + b == a;
    } else {
      var b', line := b[..|b| - 1], b[|b| - 1];
      assert a + b == (a + b') + [line];
      ScanLinesAppendDiagnostics(a, b');
      ScanLinesSnoc(a + b', line);
      ScanLinesSnoc(b', line);
      if ParseLine(line).Err? {
        ShiftSnoc(ScanLines(a).diagnostics, ScanLines(b').diagnostics, Diagnostic(|b|, ParseLine(line).error), |a|);
      }
    }
  }

  /** The sum of the game scores of the parsed lines under one mode. */
  function SumGames(mode: Mode, ls: seq<StrategyLine>): (r: nat)
    ensures |ls| <= r <= 9 * |ls|
  {
    if ls == [] then 0
    else SumGames(mode, ls[..|ls| - 1]) + Play(mode, ls[|ls| - 1])
  }

  /** One more kept line adds its game score to the sum. */
  lemma SumGamesSnoc(mode: Mode, ls: seq<StrategyLine>, l: StrategyLine)
    ensures SumGames(mode, ls + [l]) == SumGames(mode, ls) + Play(mode, l)
  {
    assert (ls + [l])[..|ls|] == ls;
  }

  /** Summing over concatenated lists adds the two sums. */
  lemma {:induction false} SumGamesAppend(mode: Mode, a: seq<StrategyLine>, b: seq<StrategyLine>)
    ensures SumGames(mode, a + b) == SumGames(mode, a) + SumGames(mode, b)
  {
    if b == [] {
      assert a + b == a;
    } else {
      var m := |b|;
      SumGamesAppend(mode, a, b[..m - 1]);
      assert (a + b)[..|a + b| - 1] == a + b[..m - 1];
      assert (a + b)[|a + b| - 1] == b[m - 1];
    }
  }

  /**
   * The game score summed over the lines that parse, reading from the first line on
   * as the iterator does; a line that fails adds nothing.
   */
  function KeptTotal(mode: Mode, lines: seq<string>): nat
  {
    if lines == [] then 0
    else
      (match ParseLine(lines[0])
       case Ok(l) => Play(mode, l)
       case Err(_) => 0)
      + KeptTotal(mode, lines[1..])
  }

  /** Summing the kept pairs is summing the game score of each line that parses. */
  lemma {:induction false} SumGamesIsKeptTotal(mode: Mode, lines: seq<string>)
    ensures SumGames(mode, ScanLines(lines).strategies) == KeptTotal(mode, lines)
  {
    if lines != [] {
      var head, tail := lines[0], lines[1..];
      assert lines == [head] + tail;
      SumGamesIsKeptTotal(mode, tail);
      ScanLinesAppendStrategies([head], tail);
      ScanLinesSnoc([], head);
      assert [] + [head] == [head];
      SumGamesAppend(mode, ScanLines([head]).strategies, ScanLines(tail).strategies);
      if ParseLine(head).Ok? {
        assert [ParseLine(head).value][..0] == [];
      }
    }
  }

  /** A successful run: the total and the diagnostics written to the error stream along the way. */
  datatype Report = Report(total: nat, diagnostics: seq<Diagnostic>)

  /**
   * `run` on the input's lines. No lines is fatal; a first line other than "Part 1"
   * or "Part 2" is fatal and, the lazy pipeline never running, reports no line.
   */
  function Run(input: seq<string>): (r: Result<Report, string>)
    ensures input == [] ==> r == Err(MissingFirstLine)
    ensures input != [] && input[0] != "Part 1" && input[0] != "Part 2" ==> r == Err(MalformedInput)
    ensures r.Ok? <==> input != [] && (input[0] == "Part 1" || input[0] == "Part 2")
    ensures r.Ok? ==> var skipped := |r.value.diagnostics|;
                      skipped <= |input| - 1 &&
                      |input| - 1 - skipped <= r.value.total <= 9 * (|input| - 1 - skipped)
  {
    if input == [] then Err(MissingFirstLine)
    else
      var scan := ScanLines(input[1..]);
      match ModeOf(input[0])
      case Some(mode) => Ok(Report(SumGames(mode, scan.strategies), scan.diagnostics))
      case None => Err(MalformedInput)
  }

  /** A successful run reports the scan of the strategy lines and the sum of its kept lines. */
  lemma RunSucceeds(input: seq<string>, mode: Mode)
    requires input != [] && ModeOf(input[0]) == Some(mode)
    ensures Run(input) == Ok(Report(SumGames(mode, ScanLines(input[1..]).strategies),
                                    ScanLines(input[1..]).diagnostics))
  {
  }

  /** A successful run's total is the mode's game score summed over exactly the strategy lines that parse. */
  lemma RunTotalIsKeptTotal(input: seq<string>)
    requires Run(input).Ok?
    ensures Run(input).value.total == KeptTotal(ModeOf(input[0]).value, input[1..])
  {
    SumGamesIsKeptTotal(ModeOf(input[0]).value, input[1..]);
  }

  /** One more line that parses adds its game score to a successful run and reports nothing. */
  lemma RunAddParsedLine(input: seq<string>, line: string, mode: Mode, l: StrategyLine)
    requires input != [] && ModeOf(input[0]) == Some(mode) && ParseLine(line) == Ok(l)
    ensures Run(input + [line]) == Ok(Report(Run(input).value.total + Play(mode, l), Run(input).value.diagnostics))
  {
    var rest := input[1..];
    assert (input + [line])[0] == input[0];
    assert (input + [line])[1..] == rest + [line];
    RunSucceeds(input, mode);
    RunSucceeds(input + [line], mode);
    ScanLinesSnoc(rest, line);
    SumGamesSnoc(mode, ScanLines(rest).strategies, l);
  }

  /** One more line that fails adds nothing to a successful run and is reported under its number. */
  lemma RunAddFailingLine(input: seq<string>, line: string, mode: Mode, e: string)
    requires input != [] && ModeOf(input[0]) == Some(mode) && ParseLine(line) == Err(e)
    ensures Run(input + [line])
            == Ok(Report(Run(input).value.total, Run(input).value.diagnostics + [Diagnostic(|input|, e)]))
  {
    var rest := input[1..];
    assert (input + [line])[0] == input[0];
    assert (input + [line])[1..] == rest + [line];
    RunSucceeds(input, mode);
    RunSucceeds(input + [line], mode);
    ScanLinesSnoc(rest, line);
  }

  /**
   * One more line changes a successful run as one step of the pipeline does: a line that
   * parses adds its game score, one that fails adds nothing and is reported under its number.
   */
  lemma RunAddLine(input: seq<string>, line: string)
    requires Run(input).Ok?
    ensures Run(input + [line]).Ok?
    ensures var before, after := Run(input).value, Run(input + [line]).value;
            var mode := ModeOf(input[0]).value;
            match ParseLine(line)
            case Ok(l) => after == Report(before.total + Play(mode, l), before.diagnostics)
            case Err(e) => after == Report(before.total, before.diagnostics + [Diagnostic(|input|, e)])
  {
    var mode := ModeOf(input[0]).value;
    match ParseLine(line)
    case Ok(l) => RunAddParsedLine(input, line, mode, l);
    case Err(e) => RunAddFailingLine(input, line, mode, e);
  }

  /** All lines of the input parse exactly when a successful run reports nothing. */
  lemma RunReportsNothingIffAllParse(input: seq<string>)
    requires Run(input).Ok?
    ensures Run(input).value.diagnostics == [] <==> forall i :: 1 <= i < |input| ==> ParseLine(input[i]).Ok?
  {
    var rest := input[1..];
    if Run(input).value.diagnostics == [] {
      forall i | 1 <= i < |input| ensures ParseLine(input[i]).Ok? {
        assert rest[i - 1] == input[i];
        if ParseLine(input[i]).Err? {
          ScanLinesReportsEveryFailure(rest, i - 1);
        }
      }
    } else {
      var d := Run(input).value.diagnostics[0];
      ScanLinesDiagnosticsSound(rest, 0);
      assert ParseLine(rest[d.line - 1]).Err?;
      assert rest[d.line - 1] == input[d.line];
    }
  }

  /** The mode changes the total only: both modes report the same lines. */
  lemma ModesReportAlike(rest: seq<string>)
    ensures Run(["Part 1"] + rest).Ok? && Run(["Part 2"] + rest).Ok?
    ensures Run(["Part 1"] + rest).value.diagnostics == Run(["Part 2"] + rest).value.diagnostics
  {
    assert (["Part 1"] + rest)[1..] == rest;
    assert (["Part 2"] + rest)[1..] == rest;
  }

  /** A mode line alone: the total is zero and nothing is reported. */
  lemma RunModeLineOnly(first: string)
    requires first == "Part 1" || first == "Part 2"
    ensures Run([first]) == Ok(Report(0, []))
  {
    assert [first][1..] == [];
  }

  /** How the example lines parse. */
  lemma ExampleLinesParse()
    ensures ParseLine("A Y") == Ok((A, Y)) && ParseLine("B X") == Ok((B, X))
    ensures ParseLine("C Z") == Ok((C, Z)) && ParseLine("Q Q") == Err(InvalidChar)
  {
  }

  /** Scanning the three valid example lines keeps all three. */
  lemma ScanExampleValid()
    ensures ScanLines(["A Y", "B X", "C Z"]) == Scan([(A, Y), (B, X), (C, Z)], [])
  {
    ExampleLinesParse();
    ScanLinesSnoc([], "A Y");
    assert [] + ["A Y"] == ["A Y"];
    ScanLinesSnoc(["A Y"], "B X");
    assert ["A Y"] + ["B X"] == ["A Y", "B X"];
    ScanLinesSnoc(["A Y", "B X"], "C Z");
    assert ["A Y", "B X"] + ["C Z"] == ["A Y", "B X", "C Z"];
  }

  /** Scanning the example with a bad second line keeps two lines and reports line 2. */
  lemma ScanExampleSkipped()
    ensures ScanLines(["A Y", "Q Q", "B X"]) == Scan([(A, Y), (B, X)], [Diagnostic(2, InvalidChar)])
  {
    ExampleLinesParse();
    ScanLinesSnoc([], "A Y");
    assert [] + ["A Y"] == ["A Y"];
    ScanLinesSnoc(["A Y"], "Q Q");
    assert ["A Y"] + ["Q Q"] == ["A Y", "Q Q"];
    ScanLinesSnoc(["A Y", "Q Q"], "B X");
    assert ["A Y", "Q Q"] + ["B X"] == ["A Y", "Q Q", "B X"];
  }

  /** The sums of the example games under each mode. */
  lemma SumExampleGames()
    ensures SumGames(Part1, [(A, Y), (B, X), (C, Z)]) == 15
    ensures SumGames(Part2, [(A, Y), (B, X), (C, Z)]) == 12
    ensures SumGames(Part1, [(A, Y), (B, X)]) == 9
  {
    GamesMatchUnitTests();
    assert [(A, Y), (B, X), (C, Z)][..2] == [(A, Y), (B, X)];
    assert [(A, Y), (B, X)][..1] == [(A, Y)];
    assert [(A, Y)][..0] == [];
  }

  /** Example: three lines under part 1 total 8 + 1 + 6. */
  lemma RunExamplePart1()
    ensures Run(["Part 1", "A Y", "B X", "C Z"]) == Ok(Report(15, []))
  {
    assert ["Part 1", "A Y", "B X", "C Z"][1..] == ["A Y", "B X", "C Z"];
    ScanExampleValid();
    SumExampleGames();
  }

  /** Example: the same three lines under part 2 total 4 + 1 + 7. */
  lemma RunExamplePart2()
    ensures Run(["Part 2", "A Y", "B X", "C Z"]) == Ok(Report(12, []))
  {
    assert ["Part 2", "A Y", "B X", "C Z"][1..] == ["A Y", "B X", "C Z"];
    ScanExampleValid();
    SumExampleGames();
  }

  /** Example: a bad second strategy line is skipped and reported as line 2. */
  lemma RunExampleSkippedLine()
    ensures Run(["Part 1", "A Y", "Q Q", "B X"]) == Ok(Report(9, [Diagnostic(2, InvalidChar)]))
  {
    assert ["Part 1", "A Y", "Q Q", "B X"][1..] == ["A Y", "Q Q", "B X"];
    ScanExampleSkipped();
    SumExampleGames();
  }

  /** Examples of fatal input: an unknown mode line, and no lines at all. */
  lemma RunExamplesFatal()
    ensures Run(["Part 3", "A Y"]) == Err(MalformedInput)
    ensures Run([]) == Err(MissingFirstLine)
  {
  }
}
