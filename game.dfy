/** Hands, the beats-relation, round scoring and the part-2 strategy picker. */
module Game {

  datatype Hand = Rock | Paper | Scissors

  /** The hand that `h` defeats. */
  function Beats(h: Hand): (r: Hand)
    ensures r != h
  {
    match h
    case Rock => Scissors
    case Paper => Rock
    case Scissors => Paper
  }

  /** The relation is a 3-cycle: applying it three times is the identity, twice is not. */
  lemma BeatsIsThreeCycle(h: Hand)
    ensures Beats(Beats(Beats(h))) == h
    ensures Beats(Beats(h)) != h
  {
    match h
    case Rock =>
    case Paper =>
    case Scissors =>
  }

  /** Two hands never defeat the same hand. */
  lemma BeatsInjective(a: Hand, b: Hand)
    ensures Beats(a) == Beats(b) ==> a == b
  {
    match a
    case Rock =>
    case Paper =>
    case Scissors =>
  }

  datatype Outcome = Lose | Draw | Win

  /** Base points for the hand I play. */
  function ShapePoints(h: Hand): (p: nat)
    ensures 1 <= p <= 3
  {
    match h
    case Rock => 1
    case Paper => 2
    case Scissors => 3
  }

  /** Points for the result of a round. */
  function OutcomePoints(o: Outcome): (p: nat)
    ensures p % 3 == 0 && p <= 6
  {
    match o
    case Lose => 0
    case Draw => 3
    case Win => 6
  }

  /**
   * The result of a round for `me`, defined by which hand my hand defeats;
   * Score instead asks first whether the opponent's hand defeats mine.
   */
  function RoundOutcome(opponent: Hand, me: Hand): Outcome
  {
    if me == opponent then Draw
    else if Beats(me) == opponent then Win
    else Lose
  }

  /** Exactly one of lose, draw and win holds, so the order Score tests them in is immaterial. */
  lemma ExactlyOneResult(opponent: Hand, me: Hand)
    ensures Beats(opponent) == me ==> opponent != me && Beats(me) != opponent
    ensures Beats(me) == opponent ==> opponent != me
    ensures Beats(opponent) == me || opponent == me || Beats(me) == opponent
  {
    match opponent
    case Rock =>
    case Paper =>
    case Scissors =>
  }

  /** Points of one round: base points of my hand plus 0, 3 or 6 for lose, draw or win. */
  function Score(opponent: Hand, me: Hand): (r: nat)
    ensures r == ShapePoints(me) + OutcomePoints(RoundOutcome(opponent, me))
    ensures 1 <= r <= 9
  {
    ShapePoints(me) +
      (if Beats(opponent) == me then 0     // lose
       else if opponent == me then 3       // draw
       else 6)                             // win
  }

  /** Distinct rounds score distinctly: Score is a bijection from the nine rounds onto 1..9. */
  lemma ScoreInjective(o1: Hand, m1: Hand, o2: Hand, m2: Hand)
    ensures Score(o1, m1) == Score(o2, m2) ==> o1 == o2 && m1 == m2
  {
    if Score(o1, m1) == Score(o2, m2) {
      assert ShapePoints(m1) == ShapePoints(m2);
      assert m1 == m2;
      assert RoundOutcome(o1, m1) == RoundOutcome(o2, m2);
      BeatsInjective(m1, m2);
    }
  }

  /** The full table of the nine rounds. */
  lemma ScoreTable()
    ensures Score(Rock, Rock) == 4 && Score(Rock, Paper) == 8 && Score(Rock, Scissors) == 3
    ensures Score(Paper, Rock) == 1 && Score(Paper, Paper) == 5 && Score(Paper, Scissors) == 9
    ensures Score(Scissors, Rock) == 7 && Score(Scissors, Paper) == 2 && Score(Scissors, Scissors) == 6
  {
  }

  /** The hand to play against `opponent` so that the round ends in `outcome`. */
  function PickStrategy(opponent: Hand, outcome: Outcome): (me: Hand)
    ensures RoundOutcome(opponent, me) == outcome
  {
    match outcome
    case Draw => opponent
    case Lose => Beats(opponent)
    case Win => Beats(Beats(opponent))
  }

  /** PickStrategy returns the only hand that achieves the outcome; for a draw that is the opponent's. */
  lemma PickStrategyUnique(opponent: Hand, outcome: Outcome, me: Hand)
    ensures RoundOutcome(opponent, me) == outcome <==> me == PickStrategy(opponent, outcome)
    ensures PickStrategy(opponent, Draw) == opponent
  {
    if RoundOutcome(opponent, me) == outcome {
      match outcome
      case Draw =>
      case Win =>
        BeatsInjective(me, Beats(Beats(opponent)));
        BeatsIsThreeCycle(opponent);
      case Lose =>
        ExactlyOneResult(opponent, me);
    }
  }

  /** The outcome part of the score of the picked hand is 0, 3 or 6 for Lose, Draw or Win. */
  lemma PickStrategyScore(opponent: Hand, outcome: Outcome)
    ensures Score(opponent, PickStrategy(opponent, outcome)) - ShapePoints(PickStrategy(opponent, outcome))
            == OutcomePoints(outcome)
  {
  }
}
