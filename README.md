# Rock-paper-scissors strategy guide scorer, modelled in Dafny

This project models `aoc-rps`, a small program that scores a rock-paper-scissors strategy guide.
The guide's first line names a mode, "Part 1" or "Part 2". Every later line holds two codes, such as `A Y`.
Column 1 (`A`/`B`/`C`) is the opponent's hand.
In part 1, column 2 (`X`/`Y`/`Z`) is the hand I play.
In part 2, column 2 is the outcome I must reach (lose, draw or win), and my hand is derived from it.
A round scores 1, 2 or 3 for my hand (rock, paper, scissors) plus 0, 3 or 6 for a loss, a draw or a win.
The program prints the sum over all lines that parse.
It skips every other line and reports it with its 1-based number and the reason.

Modules, one per part of `src/main.rs`:

- `Wrappers` (`wrappers.dfy`): `Option`, `Result` and `OkOr`, Rust's `ok_or`. `Result` works with `:-`, which plays the part of Rust's `?`.
- `Game` (`game.dfy`): `Hand`, `Beats`, `Score`, `Outcome` and `PickStrategy`. Two reference definitions sit beside them. `ShapePoints` and `OutcomePoints` give the points. `RoundOutcome` decides a round from the hand *my* hand defeats, while `Score` tests whether the opponent's hand defeats mine.
- `Codes` (`codes.dfy`): `Column1` and `Column2`, decoding with `Column1FromChar`/`Column2FromChar` (the `try_from` impls), and the fixed `From` conversions. `Column1Char`/`Column2Char` write a code back as its letter; they exist to state round trips.
- `LineParser` (`line_parser.dfy`): `ParseLine` is the meaning of `parse_line`, as a function over `seq<char>`. `ParseLineScan` is `parse_line` as written. It makes successive `Next()` calls on a `Chars` cursor object, and `:-` returns early on each failure. It is proved equal to `ParseLine`.
- `Runner` (`runner.dfy`): `Mode`, `ModeOf`, `Part1Game`, `Part2Game` and the pure part of `run`. `ScanLines` is the `enumerate`/`filter_map` stage: it keeps the lines that parse and numbers a `Diagnostic` for each line that fails. `SumGames` is the `map`/`sum` stage. `Run` maps the list of lines to `Err(message)` or to `Ok(Report(total, diagnostics))`.

The error messages are the code's literals, such as "Invalid char" and "Missing column 1 char".

Two consequences of the code are worth stating:

- Every hand scores at least 1, so `Game.Score` lies in 1..9; 0 is never a score.
- With an unknown mode line, the code's lazy iterator never runs. So no strategy line is parsed or reported, and `Run` returns only `Err("Malformed input")`.

## Model

| member | source | states |
|---|---|---|
| `Game.Beats` | src/main.rs:11-17 | a hand never beats itself |
| `Game.BeatsIsThreeCycle` | src/main.rs:11-17 | beats applied three times returns the hand; applied twice it does not |
| `Game.BeatsInjective` | src/main.rs:11-17 | two different hands never beat the same hand |
| `Game.ExactlyOneResult` | src/main.rs:27-31 | exactly one holds: opponent beats me, same hand, or I beat opponent; so the order of the lose/draw/win guards is immaterial |
| `Game.Score` | src/main.rs:22-32 | score is my hand's base points plus the points of the round's result, decided by which hand mine defeats; it lies in 1..9 |
| `Game.ScoreInjective` | src/main.rs:22-32 | different rounds get different scores, so the nine rounds map one-to-one onto 1..9 |
| `Game.ScoreTable` | src/main.rs:22-32 | the nine values Rock/Rock=4, Rock/Paper=8, …, Scissors/Scissors=6 |
| `Game.PickStrategy` | src/main.rs:42-48 | the picked hand makes the round end in the requested outcome |
| `Game.PickStrategyUnique` | src/main.rs:42-48 | a hand reaches the outcome if and only if it is the picked hand; for Draw that is the opponent's hand |
| `Game.PickStrategyScore` | src/main.rs:42-48 | the outcome part of the picked hand's score is 0, 3 or 6 for Lose, Draw or Win |
| `Codes.Column1FromChar` | src/main.rs:59-70 | succeeds exactly on 'A', 'B', 'C', giving the code written by that letter; otherwise "Invalid char" |
| `Codes.Column2FromChar` | src/main.rs:79-90 | succeeds exactly on 'X', 'Y', 'Z', giving the code written by that letter; otherwise "Invalid char" |
| `Codes.ColumnCharRoundTrip` | src/main.rs:59-90 | decoding a code's letter gives the code back, for both columns |
| `Codes.Column1ToHand` | src/main.rs:92-100 | the n-th letter A, B, C gives the hand worth n base points: Rock, Paper, Scissors |
| `Codes.Column2ToHand` | src/main.rs:102-110 | the n-th letter X, Y, Z gives the hand worth n base points: Rock, Paper, Scissors |
| `Codes.Column2ToOutcome` | src/main.rs:133-141 | the n-th letter X, Y, Z gives the outcome worth 3(n-1) points: Lose, Draw, Win |
| `Codes.HandConversionTable` | src/main.rs:92-110 | A/B/C and X/Y/Z read as Rock/Paper/Scissors |
| `Codes.OutcomeConversionTable` | src/main.rs:133-141 | X/Y/Z read as Lose/Draw/Win |
| `Codes.ConversionsAgreeAndAreInjective` | src/main.rs:92-141 | both columns give hands in the same letter order, and each of the three conversions is one-to-one |
| `LineParser.ParseLine` | src/main.rs:112-129 | succeeds if and only if the line is exactly a column-1 letter, a space and a column-2 letter; the pair it returns writes back as the line |
| `LineParser.ParseLineRoundTrip` | src/main.rs:112-129 | parsing the line that writes a pair of codes gives the pair |
| `LineParser.ParseLineFirstFailureWins` | src/main.rs:115-126 | an empty line, a bad first char, a missing or wrong delimiter, a missing third char, a bad third char and a fourth char get, in that order of precedence, their fixed error messages |
| `LineParser.ParseLineScan` | src/main.rs:112-129 | the iterator-driven parser with its early returns computes exactly `ParseLine` |
| `Runner.ModeOf` | src/main.rs:178-181 | only the exact first lines "Part 1" and "Part 2" select part 1 and part 2 |
| `Runner.Part1Game` | src/main.rs:145-147 | part 1 scores column 2's hand against column 1's by base points plus the round's result; 1..9 |
| `Runner.Part2Game` | src/main.rs:149-151 | part 2's outcome points are exactly those of the outcome column 2 asks for, plus the picked hand's base points; 1..9 |
| `Runner.Play` | src/main.rs:178-180 | the selected mode's game: under part 1 the outcome points are those of the round column 2's hand plays, under part 2 those of the outcome column 2 asks for; 1..9 |
| `Runner.GamesMatchUnitTests` | src/main.rs:198-210 | A Y, B X, C Z score 8, 1, 6 under part 1 and 4, 1, 7 under part 2 |
| `Runner.ScanLines` | src/main.rs:168-176 | each line is either kept or reported; every diagnostic names a line in range; diagnostics are in increasing line order |
| `Runner.ScanLinesDiagnosticsSound` | src/main.rs:170-175 | the line each diagnostic names fails to parse, with the reason the diagnostic gives |
| `Runner.ScanLinesReportsEveryFailure` | src/main.rs:168-176 | every failing line at 0-based index n is reported as line n+1 with its reason |
| `Runner.ScanLinesAllParse` | src/main.rs:168-176 | when all lines parse nothing is reported and all are kept |
| `Runner.ScanLinesStrategiesFromLines` | src/main.rs:168-176 | each kept pair is written by some input line; when all parse, the k-th kept pair is the parse of the k-th line |
| `Runner.ScanLinesAppendStrategies` | src/main.rs:168-176 | the kept lines of concatenated input are the two parts' kept lines joined |
| `Runner.ScanLinesAppendDiagnostics` | src/main.rs:168-176 | the diagnostics of concatenated input are the first part's, then the second part's renumbered after it |
| `Runner.SumGames` | src/main.rs:179-180 | the sum over n parsed lines lies in n..9n |
| `Runner.SumGamesAppend` | src/main.rs:179-180 | summing is additive over concatenation |
| `Runner.Run` | src/main.rs:165-182 | no lines gives "Missing data on first line"; an unknown first line gives "Malformed input"; it succeeds exactly for "Part 1"/"Part 2"; then at most one diagnostic per strategy line and a total between 1 and 9 per kept line |
| `Runner.RunTotalIsKeptTotal` | src/main.rs:168-180 | with a valid mode line, the total equals the mode's game score summed, from the first strategy line on, over exactly the lines that parse |
| `Runner.SumGamesIsKeptTotal` | src/main.rs:168-180 | summing the kept pairs equals summing the game score of each line that parses, read front to back |
| `Runner.RunAddLine` | src/main.rs:168-180 | one more line adds its game score if it parses, or adds nothing and is reported with its 1-based number |
| `Runner.RunReportsNothingIffAllParse` | src/main.rs:168-182 | a successful run reports no line if and only if every strategy line parses |
| `Runner.ModesReportAlike` | src/main.rs:168-182 | the two modes report the same lines for the same strategy lines |
| `Runner.RunModeLineOnly` | src/main.rs:165-180 | a valid mode line alone totals 0 with no diagnostics |
| `Runner.ExampleLinesParse` | src/main.rs:112-129 | A Y, B X and C Z parse to their codes; Q Q fails with "Invalid char" |
| `Runner.ScanExampleValid` | src/main.rs:168-176 | the three valid example lines are all kept, in order |
| `Runner.ScanExampleSkipped` | src/main.rs:168-176 | of A Y, Q Q, B X the outer two are kept and line 2 is reported |
| `Runner.SumExampleGames` | src/main.rs:179-180 | the example games sum to 15 under part 1 and 12 under part 2; the first two sum to 9 |
| `Runner.RunExamplePart1` | src/main.rs:165-182 | example: "Part 1", A Y, B X, C Z totals 15 |
| `Runner.RunExamplePart2` | src/main.rs:165-182 | "Part 2", A Y, B X, C Z totals 12 |
| `Runner.RunExampleSkippedLine` | src/main.rs:165-182 | "Part 1", A Y, Q Q, B X totals 9 and reports line 2 as "Invalid char" |
| `Runner.RunExamplesFatal` | src/main.rs:166-181 | a "Part 3" first line and empty input fail with their messages |

## Left out

- Reading standard input into a string and its `io::Error` path (src/main.rs:161-164): I/O. `Run` takes the input's lines as its argument.
- Splitting the text into lines with `str::lines()` (src/main.rs:165): a library call. How it treats `\r\n` and a trailing newline is not modelled; the list of lines is the input.
- Writing diagnostics with `eprintln!` (src/main.rs:173), printing the total, and `main` (src/main.rs:185-190): output. Diagnostics are returned as `(line, reason)` values; the text "Parsing error on line n: reason" is not built.
- Runner.SumGames: the total is a `nat`, so the `u32` overflow of `sum()` is not modelled (src/main.rs:179-180). It needs hundreds of millions of lines, and its effect depends on the build mode.
- Runner.Run: the total is a `nat` for the same reason, so `Run` never wraps or panics on overflow.
- Unicode detail of Rust's `char` and of `str::chars()`: a line is a `seq<char>`, and one `char` is one element.
