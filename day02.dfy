/** Day 2: scoring a rock-paper-scissors strategy guide. */
module Day02 {
  import opened Wrappers
  import opened Text

  /** The shapes in their cycle order, Rock → Paper → Scissors → Rock. */
  datatype Shape = Rock | Paper | Scissors

  datatype Outcome = Loss | Draw | Win

  /** The discriminants `Rock = 1, Paper = 2, Scissors = 3`. */
  function ShapeScore(s: Shape): (n: nat)
    ensures 1 <= n <= 3
  {
    match s
    case Rock => 1
    case Paper => 2
    case Scissors => 3
  }

  /** The discriminants `Loss = 0, Draw = 3, Win = 6`. */
  function OutcomeScore(o: Outcome): (n: nat)
    ensures n % 3 == 0 && n <= 6
  {
    match o
    case Loss => 0
    case Draw => 3
    case Win => 6
  }

  /** `next_cycle` of the `Sequence` derive. */
  function Next(s: Shape): Shape
  {
    match s
    case Rock => Paper
    case Paper => Scissors
    case Scissors => Rock
  }

  /** `previous_cycle` of the `Sequence` derive. */
  function Previous(s: Shape): Shape
  {
    match s
    case Rock => Scissors
    case Paper => Rock
    case Scissors => Paper
  }

  /** The rule of the game: each shape beats the one before it in the cycle. */
  predicate Beats(a: Shape, b: Shape)
  {
    (a == Rock && b == Scissors) || (a == Scissors && b == Paper) || (a == Paper && b == Rock)
  }

  /** `Shape::duell`: the outcome for `self` playing against `other`. */
  function Duell(self: Shape, other: Shape): (o: Outcome)
    ensures o == Draw <==> self == other
    ensures o == Win <==> Beats(self, other)
    ensures o == Loss <==> Beats(other, self)
  {
    match (self, other)
    case (Rock, Rock) => Draw
    case (Paper, Paper) => Draw
    case (Scissors, Scissors) => Draw
    case (Rock, Paper) => Loss
    case (Paper, Scissors) => Loss
    case (Scissors, Rock) => Loss
    case (Rock, Scissors) => Win
    case (Scissors, Paper) => Win
    case (Paper, Rock) => Win
  }

  /** `Shape::opponent_plays_to_achieve`: the shape to answer `self` with so
      that the answer gets `outcome`. */
  function OpponentPlaysToAchieve(self: Shape, outcome: Outcome): (s: Shape)
    ensures Duell(s, self) == outcome
  {
    match outcome
    case Draw => self
    case Win => Next(self)
    case Loss => Previous(self)
  }

  /** Swapping the players swaps win and loss. */
  lemma DuellAntisymmetric(a: Shape, b: Shape)
    ensures Duell(a, b) == Win <==> Duell(b, a) == Loss
    ensures Duell(a, b) == Draw <==> Duell(b, a) == Draw
  {
  }

  /** The answer achieving an outcome is the only one achieving it. */
  lemma AchieveUnique(opponent: Shape, outcome: Outcome, s: Shape)
    requires Duell(s, opponent) == outcome
    ensures s == OpponentPlaysToAchieve(opponent, outcome)
  {
  }

  /** `Shape::from_str`: "A"/"X" Rock, "B"/"Y" Paper, "C"/"Z" Scissors. */
  function ParseShape(x: String): (r: Option<Shape>)
    ensures r == Some(Rock) <==> x == "A" || x == "X"
    ensures r == Some(Paper) <==> x == "B" || x == "Y"
    ensures r == Some(Scissors) <==> x == "C" || x == "Z"
  {
    if x == "A" || x == "X" then Some(Rock)
    else if x == "B" || x == "Y" then Some(Paper)
    else if x == "C" || x == "Z" then Some(Scissors)
    else None
  }

  /** `Outcome::from_str`: "X" Loss, "Y" Draw, "Z" Win. */
  function ParseOutcome(x: String): (r: Option<Outcome>)
    ensures r == Some(Loss) <==> x == "X"
    ensures r == Some(Draw) <==> x == "Y"
    ensures r == Some(Win) <==> x == "Z"
  {
    if x == "X" then Some(Loss)
    else if x == "Y" then Some(Draw)
    else if x == "Z" then Some(Win)
    else None
  }

  /** The score of one round for the player choosing `yours`. */
  function RoundScore(opponent: Shape, yours: Shape): (n: nat)
    ensures 1 <= n <= 9
    ensures n > 6 <==> Beats(yours, opponent)
  {
    OutcomeScore(Duell(yours, opponent)) + ShapeScore(yours)
  }

  /** The words of a line that parse as shapes, others dropped (`.flatten()`). */
  function Shapes(words: seq<String>): (r: seq<Shape>)
    ensures |r| <= |words|
  {
    if words == [] then []
    else
      match ParseShape(words[0])
      case Some(s) => [s] + Shapes(words[1..])
      case None => Shapes(words[1..])
  }

  /** Scores of the lines for the first reading of the guide: a line counts
      only when exactly two of its words are shapes (`collect_tuple`). */
  function ScoresA(lines: seq<String>): (r: seq<nat>)
    ensures |r| <= |lines|
    ensures forall k | 0 <= k < |r| :: 1 <= r[k] <= 9
    ensures lines != [] && |Shapes(Words(lines[0]))| == 2 ==>
      |r| > 0 && r[0] == RoundScore(Shapes(Words(lines[0]))[0], Shapes(Words(lines[0]))[1])
  {
    if lines == [] then []
    else
      var shapes := Shapes(Words(lines[0]));
      var rest := ScoresA(lines[1..]);
      if |shapes| == 2 then [RoundScore(shapes[0], shapes[1])] + rest else rest
  }

  function Sum(xs: seq<nat>): nat
  {
    if xs == [] then 0 else xs[0] + Sum(xs[1..])
  }

  /** `get_score` (the `u32` sum is unbounded here). */
  function GetScore(guide: String): (score: nat)
    ensures score <= 9 * |Lines(guide)|
  {
    ScoresBounded(ScoresA(Lines(guide)));
    Sum(ScoresA(Lines(guide)))
  }

  lemma {:induction false} ScoresBounded(xs: seq<nat>)
    requires forall k | 0 <= k < |xs| :: xs[k] <= 9
    ensures Sum(xs) <= 9 * |xs|
  {
    if xs != [] {
      ScoresBounded(xs[1..]);
    }
  }

  /** Scores of the lines for the second reading: exactly two words, a shape
      and an outcome; None where a word does not parse (the source panics in
      `unwrap`). */
  function ScoresB(lines: seq<String>): (r: Option<seq<nat>>)
    ensures r.None? <==> exists i | 0 <= i < |lines| :: Unreadable(lines[i])
    ensures r.Some? ==> |r.value| <= |lines| && forall k | 0 <= k < |r.value| :: 1 <= r.value[k] <= 9
  {
    if lines == [] then Some([])
    else
      var words := Words(lines[0]);
      var rest :- ScoresB(lines[1..]);
      if |words| != 2 then Some(rest)
      else
        var opponent :- ParseShape(words[0]);
        var outcome :- ParseOutcome(words[1]);
        var yours := OpponentPlaysToAchieve(opponent, outcome);
        Some([RoundScore(opponent, yours)] + rest)
  }

  /** A line of two words whose first is not a shape or whose second is
      not an outcome: one of the `unwrap`s panics on it. */
  predicate Unreadable(line: String)
  {
    |Words(line)| == 2 && (ParseShape(Words(line)[0]).None? || ParseOutcome(Words(line)[1]).None?)
  }

  /** `get_score_b`, or None where the source panics. */
  function GetScoreB(guide: String): (r: Option<nat>)
    ensures r.None? <==> exists i | 0 <= i < |Lines(guide)| :: Unreadable(Lines(guide)[i])
    ensures r.Some? ==> r.value <= 9 * |Lines(guide)|
  {
    var scores :- ScoresB(Lines(guide));
    ScoresBounded(scores);
    Some(Sum(scores))
  }

  /** In the second reading a round scores exactly what the guide asks for
      plus the shape that achieves it. */
  lemma RoundScoreB(opponent: Shape, outcome: Outcome)
    ensures RoundScore(opponent, OpponentPlaysToAchieve(opponent, outcome))
      == OutcomeScore(outcome) + ShapeScore(OpponentPlaysToAchieve(opponent, outcome))
  {
  }

  /** The second reading of one well-formed line "<A|B|C> <X|Y|Z>". */
  lemma {:induction false} ScoresBLine(line: String, rest: seq<String>, opponent: Shape, outcome: Outcome)
    requires |Words(line)| == 2
    requires ParseShape(Words(line)[0]) == Some(opponent)
    requires ParseOutcome(Words(line)[1]) == Some(outcome)
    requires ScoresB(rest).Some?
    ensures ScoresB([line] + rest)
      == Some([OutcomeScore(outcome) + ShapeScore(OpponentPlaysToAchieve(opponent, outcome))] + ScoresB(rest).value)
  {
    assert ([line] + rest)[1..] == rest;
  }
}
