/** Day 11, the troop: rounds in which every monkey, in id order, empties its
    queue by throwing each item to the monkey its test picks, and the ranking
    of monkeys by how many items they inspected. */
module Day11 {
  import opened Wrappers
  import opened Day11Monkey

  datatype EleventhError = InputInvalid(message: string) | FileProblem(message: string) | NoSuchMonkeyWithId(id: nat)

  /** `Monkeys`, as values: each monkey under its id. */
  type Troop = map<nat, MonkeyState>

  /** What a round leaves behind: the troop as it stands, and the id nobody
      answered to when the round stopped early. */
  datatype Round = Round(troop: Troop, missing: Option<nat>)

  /** Two states of one monkey that differ at most in queue and counter. */
  predicate SameRule(m: MonkeyState, n: MonkeyState)
  {
    && m.id == n.id && m.operation == n.operation && m.modulo == n.modulo
    && m.trueMonkey == n.trueMonkey && m.falseMonkey == n.falseMonkey
  }

  /** The same monkeys under the same ids with the same rules. */
  predicate SameRules(a: Troop, b: Troop)
  {
    a.Keys == b.Keys && forall k | k in a :: SameRule(a[k], b[k])
  }

  /** Every turn can be taken: no divisor is zero and no monkey throws to
      itself. The source panics on a zero divisor, and loops for ever on a
      self-throw, only when an item actually takes that path; this
      predicate asks it of every monkey. */
  predicate WellFormed(ms: Troop)
  {
    forall k | k in ms :: ms[k].modulo > 0 && ms[k].trueMonkey != k && ms[k].falseMonkey != k
  }

  /** The worry level an item has when it is thrown. */
  function Worry(m: MonkeyState, item: nat): (w: nat)
    ensures 3 * w <= Apply(m.operation, item) < 3 * w + 3
  {
    Apply(m.operation, item) / 3
  }

  /** Where monkey `i` throws the front of its queue. */
  function Target(ms: Troop, i: nat): (target: nat)
    requires i in ms && WellFormed(ms) && ms[i].items != []
    ensures target != i
  {
    TestOf(ms[i], Worry(ms[i], ms[i].items[0]))
  }

  /** The troop once monkey `i` has inspected the front of its queue. */
  function Inspected(ms: Troop, i: nat): (r: Troop)
    requires i in ms && ms[i].items != []
    ensures r.Keys == ms.Keys
  {
    ms[i := InspectOf(ms[i]).0]
  }

  /** The troop once that item has landed with its target. */
  function Thrown(ms: Troop, i: nat): (r: Troop)
    requires i in ms && WellFormed(ms) && ms[i].items != [] && Target(ms, i) in ms
    ensures r.Keys == ms.Keys
  {
    var inspected := Inspected(ms, i);
    var target := Target(ms, i);
    inspected[target := CatchOf(inspected[target], Worry(ms[i], ms[i].items[0]))]
  }

  /** One throw changes only the two queues and the thrower's counter. */
  lemma ThrowKeepsRules(ms: Troop, i: nat)
    requires i in ms && WellFormed(ms) && ms[i].items != [] && Target(ms, i) in ms
    ensures SameRules(ms, Thrown(ms, i)) && WellFormed(Thrown(ms, i))
    ensures Thrown(ms, i)[i] == InspectOf(ms[i]).0
  {
  }

  /** One turn of monkey `i`: it inspects the front of its queue and throws
      the new worry level to the test's target, until the queue is empty or
      the target does not exist. */
  function TurnOf(ms: Troop, i: nat): (r: Round)
    requires i in ms && WellFormed(ms)
    ensures SameRules(ms, r.troop) && WellFormed(r.troop)
    decreases |ms[i].items|
  {
    if ms[i].items == [] then Round(ms, None)
    else if Target(ms, i) !in ms then Round(Inspected(ms, i), Some(Target(ms, i)))
    else
      ThrowKeepsRules(ms, i);
      TurnOf(Thrown(ms, i), i)
  }

  /** A turn whose first throw lands goes on with the rest of the queue. */
  lemma ThrowStep(ms: Troop, i: nat)
    requires i in ms && WellFormed(ms) && ms[i].items != [] && Target(ms, i) in ms
    ensures WellFormed(Thrown(ms, i))
    ensures TurnOf(ms, i) == TurnOf(Thrown(ms, i), i)
  {
    ThrowKeepsRules(ms, i);
  }

  /** What one throw leaves with the thrower, the target and everybody else. */
  lemma ThrownParts(ms: Troop, i: nat)
    requires i in ms && WellFormed(ms) && ms[i].items != [] && Target(ms, i) in ms
    ensures var t, m := Target(ms, i), Thrown(ms, i);
      && m[i] == ms[i].(items := ms[i].items[1..], inspections := ms[i].inspections + 1)
      && m[t] == ms[t].(items := ms[t].items + [Worry(ms[i], ms[i].items[0])])
      && forall k | k in ms && k != i && k != t :: m[k] == ms[k]
  {
  }

  /** Turns `i` up to `n - 1`, stopping at the first id that is missing. */
  function RoundFrom(ms: Troop, i: nat, n: nat): (r: Round)
    requires WellFormed(ms)
    ensures SameRules(ms, r.troop) && WellFormed(r.troop)
    decreases n - i, 1
  {
    if i >= n then Round(ms, None)
    else AfterTurn(TurnAt(ms, i), i, n)
  }

  /** The turn of id `i`, which fails at once when no monkey has that id. */
  function TurnAt(ms: Troop, i: nat): (r: Round)
    requires WellFormed(ms)
    ensures SameRules(ms, r.troop) && WellFormed(r.troop)
  {
    if i !in ms then Round(ms, Some(i)) else TurnOf(ms, i)
  }

  /** The rest of a round after turn `i` ended as `t`. */
  function AfterTurn(t: Round, i: nat, n: nat): (r: Round)
    requires WellFormed(t.troop) && i < n
    ensures SameRules(t.troop, r.troop) && WellFormed(r.troop)
    decreases n - i, 0
  {
    if t.missing.Some? then t else RoundFrom(t.troop, i + 1, n)
  }

  /** `play_round` on values: the turns of ids `0` to `len - 1`. */
  function RoundOf(ms: Troop): (r: Round)
    requires WellFormed(ms)
    ensures SameRules(ms, r.troop) && WellFormed(r.troop)
  {
    RoundFrom(ms, 0, |ms|)
  }

  // ---------------------------------------------------------------- properties of a round

  /** A turn that ends normally leaves the monkey's queue empty, having
      inspected every item that was in it, since none comes back to it. */
  lemma {:induction false} TurnEmptiesQueue(ms: Troop, i: nat)
    requires i in ms && WellFormed(ms)
    requires TurnOf(ms, i).missing.None?
    ensures TurnOf(ms, i).troop[i].items == []
    ensures TurnOf(ms, i).troop[i].inspections == ms[i].inspections + |ms[i].items|
    decreases |ms[i].items|
  {
    if ms[i].items != [] {
      ThrowKeepsRules(ms, i);
      TurnEmptiesQueue(Thrown(ms, i), i);
    }
  }

  /** A round stops early only at an id that names no monkey. */
  lemma {:induction false} TurnMissingIsAbsent(ms: Troop, i: nat)
    requires i in ms && WellFormed(ms)
    ensures TurnOf(ms, i).missing.Some? ==> TurnOf(ms, i).missing.value !in ms
    decreases |ms[i].items|
  {
    if ms[i].items != [] && Target(ms, i) in ms {
      ThrowKeepsRules(ms, i);
      TurnMissingIsAbsent(Thrown(ms, i), i);
    }
  }

  lemma {:induction false} RoundMissingIsAbsent(ms: Troop, i: nat, n: nat)
    requires WellFormed(ms)
    ensures RoundFrom(ms, i, n).missing.Some? ==> RoundFrom(ms, i, n).missing.value !in ms
    decreases n - i
  {
    if i < n && i in ms {
      var t := TurnOf(ms, i);
      TurnMissingIsAbsent(ms, i);
      if t.missing.None? {
        RoundMissingIsAbsent(t.troop, i + 1, n);
      }
    }
  }

  /** Every monkey throws only to ids below `n`. */
  predicate TargetsBelow(ms: Troop, n: nat)
  {
    forall k | k in ms :: ms[k].trueMonkey < n && ms[k].falseMonkey < n
  }

  /** Every id below `n` is a monkey. */
  predicate Numbered(ms: Troop, n: nat)
  {
    forall k | 0 <= k < n :: k in ms
  }

  lemma TargetsKept(a: Troop, b: Troop, n: nat)
    requires SameRules(a, b) && TargetsBelow(a, n)
    ensures TargetsBelow(b, n)
  {
    forall k | k in b
      ensures b[k].trueMonkey < n && b[k].falseMonkey < n
    {
      assert SameRule(a[k], b[k]);
    }
  }

  lemma {:induction false} AnsweredTurnCompletes(ms: Troop, i: nat, n: nat)
    requires i in ms && WellFormed(ms) && TargetsBelow(ms, n) && Numbered(ms, n)
    ensures TurnOf(ms, i).missing.None?
    decreases |ms[i].items|
  {
    if ms[i].items != [] {
      assert Target(ms, i) in ms;
      ThrowKeepsRules(ms, i);
      TargetsKept(ms, Thrown(ms, i), n);
      AnsweredTurnCompletes(Thrown(ms, i), i, n);
    }
  }

  lemma {:induction false} AnsweredRoundCompletes(ms: Troop, i: nat, n: nat)
    requires WellFormed(ms) && TargetsBelow(ms, n) && Numbered(ms, n)
    ensures RoundFrom(ms, i, n).missing.None?
    decreases n - i
  {
    if i < n {
      AnsweredTurnCompletes(ms, i, n);
      var t := TurnOf(ms, i);
      TargetsKept(ms, t.troop, n);
      assert t.troop.Keys == ms.Keys;
      AnsweredRoundCompletes(t.troop, i + 1, n);
    }
  }

  /** A round of monkeys numbered `0` to `len - 1` that only throw to each
      other always completes, and an unfinished round always names an id
      that is not a monkey. */
  lemma RoundCompletesWhenAnswered(ms: Troop)
    requires WellFormed(ms)
    ensures Numbered(ms, |ms|) && TargetsBelow(ms, |ms|) ==> RoundOf(ms).missing.None?
    ensures RoundOf(ms).missing.Some? ==> RoundOf(ms).missing.value !in ms
  {
    if Numbered(ms, |ms|) && TargetsBelow(ms, |ms|) {
      AnsweredRoundCompletes(ms, 0, |ms|);
    }
    RoundMissingIsAbsent(ms, 0, |ms|);
  }

  /** The number of items held by monkeys with ids below `n`. */
  function Total(ms: Troop, n: nat): nat
  {
    if n == 0 then 0
    else Total(ms, n - 1) + (if n - 1 in ms then |ms[n - 1].items| else 0)
  }

  lemma {:induction false} TotalUpdate(ms: Troop, n: nat, k: nat, m: MonkeyState)
    requires k in ms && k < n
    ensures Total(ms[k := m], n) + |ms[k].items| == Total(ms, n) + |m.items|
  {
    if n - 1 != k {
      TotalUpdate(ms, n - 1, k, m);
    } else {
      TotalOutside(ms, n - 1, k, m);
    }
  }

  lemma {:induction false} TotalOutside(ms: Troop, n: nat, k: nat, m: MonkeyState)
    requires n <= k
    ensures Total(ms[k := m], n) == Total(ms, n)
  {
    if n > 0 {
      TotalOutside(ms, n - 1, k, m);
    }
  }

  /** A throw that lands keeps the total: one item leaves a queue and one
      joins another. */
  lemma {:induction false} TurnConserves(ms: Troop, i: nat, n: nat)
    requires i in ms && WellFormed(ms) && (forall k | k in ms :: k < n)
    requires TurnOf(ms, i).missing.None?
    ensures Total(TurnOf(ms, i).troop, n) == Total(ms, n)
    decreases |ms[i].items|
  {
    if ms[i].items != [] {
      var inspected := Inspected(ms, i);
      var target := Target(ms, i);
      TotalUpdate(ms, n, i, InspectOf(ms[i]).0);
      TotalUpdate(inspected, n, target, CatchOf(inspected[target], Worry(ms[i], ms[i].items[0])));
      ThrowKeepsRules(ms, i);
      TurnConserves(Thrown(ms, i), i, n);
    }
  }

  lemma {:induction false} RoundConserves(ms: Troop, i: nat, n: nat, bound: nat)
    requires WellFormed(ms) && (forall k | k in ms :: k < bound)
    requires RoundFrom(ms, i, n).missing.None?
    ensures Total(RoundFrom(ms, i, n).troop, bound) == Total(ms, bound)
    decreases n - i
  {
    if i < n {
      var t := TurnOf(ms, i);
      TurnConserves(ms, i, bound);
      RoundConserves(t.troop, i + 1, n, bound);
    }
  }

  /** A completed round neither loses nor creates items. */
  lemma RoundKeepsItems(ms: Troop, bound: nat)
    requires WellFormed(ms) && (forall k | k in ms :: k < bound)
    requires RoundOf(ms).missing.None?
    ensures Total(RoundOf(ms).troop, bound) == Total(ms, bound)
  {
    RoundConserves(ms, 0, |ms|, bound);
  }

  // ---------------------------------------------------------------- the sample, round 1

  /** Four monkeys under the ids 0 to 3. */
  predicate SampleTroop(ms: Troop, a: MonkeyState, b: MonkeyState, c: MonkeyState, d: MonkeyState)
  {
    ms.Keys == {0, 1, 2, 3} && ms[0] == a && ms[1] == b && ms[2] == c && ms[3] == d
  }

  lemma SampleThrow0(s: Troop)
    requires SampleTroop(s,
      MonkeyState(0, [79, 98], Multiply(19), 23, 2, 3, 0),
      MonkeyState(1, [54, 65, 75, 74], Add(6), 19, 2, 0, 0),
      MonkeyState(2, [79, 60, 97], Square, 13, 1, 3, 0),
      MonkeyState(3, [74], Add(3), 17, 0, 1, 0))
    ensures WellFormed(s) && TurnOf(s, 0) == TurnOf(Thrown(s, 0), 0)
    ensures SampleTroop(Thrown(s, 0),
      MonkeyState(0, [98], Multiply(19), 23, 2, 3, 1),
      MonkeyState(1, [54, 65, 75, 74], Add(6), 19, 2, 0, 0),
      MonkeyState(2, [79, 60, 97], Square, 13, 1, 3, 0),
      MonkeyState(3, [74, 500], Add(3), 17, 0, 1, 0))
  {
    assert [79, 98][1..] == [98] && [74] + [500] == [74, 500];
    assert Worry(s[0], 79) == 500 && Target(s, 0) == 3;
    ThrowStep(s, 0);
    ThrownParts(s, 0);
  }

  lemma SampleThrow1(s: Troop)
    requires SampleTroop(s,
      MonkeyState(0, [98], Multiply(19), 23, 2, 3, 1),
      MonkeyState(1, [54, 65, 75, 74], Add(6), 19, 2, 0, 0),
      MonkeyState(2, [79, 60, 97], Square, 13, 1, 3, 0),
      MonkeyState(3, [74, 500], Add(3), 17, 0, 1, 0))
    ensures WellFormed(s) && TurnOf(s, 0) == TurnOf(Thrown(s, 0), 0)
    ensures SampleTroop(Thrown(s, 0),
      MonkeyState(0, [], Multiply(19), 23, 2, 3, 2),
      MonkeyState(1, [54, 65, 75, 74], Add(6), 19, 2, 0, 0),
      MonkeyState(2, [79, 60, 97], Square, 13, 1, 3, 0),
      MonkeyState(3, [74, 500, 620], Add(3), 17, 0, 1, 0))
  {
    assert [98][1..] == [] && [74, 500] + [620] == [74, 500, 620];
    assert Worry(s[0], 98) == 620 && Target(s, 0) == 3;
    ThrowStep(s, 0);
    ThrownParts(s, 0);
  }

  lemma SampleTurn0(s0: Troop)
    requires SampleTroop(s0,
      MonkeyState(0, [79, 98], Multiply(19), 23, 2, 3, 0),
      MonkeyState(1, [54, 65, 75, 74], Add(6), 19, 2, 0, 0),
      MonkeyState(2, [79, 60, 97], Square, 13, 1, 3, 0),
      MonkeyState(3, [74], Add(3), 17, 0, 1, 0))
    ensures WellFormed(s0) && TurnOf(s0, 0).missing.None?
    ensures SampleTroop(TurnOf(s0, 0).troop,
      MonkeyState(0, [], Multiply(19), 23, 2, 3, 2),
      MonkeyState(1, [54, 65, 75, 74], Add(6), 19, 2, 0, 0),
      MonkeyState(2, [79, 60, 97], Square, 13, 1, 3, 0),
      MonkeyState(3, [74, 500, 620], Add(3), 17, 0, 1, 0))
  {
    SampleThrow0(s0);
    var s1 := Thrown(s0, 0);
    SampleThrow1(s1);
    var s2 := Thrown(s1, 0);
  }

  lemma SampleThrow2(s: Troop)
    requires SampleTroop(s,
      MonkeyState(0, [], Multiply(19), 23, 2, 3, 2),
      MonkeyState(1, [54, 65, 75, 74], Add(6), 19, 2, 0, 0),
      MonkeyState(2, [79, 60, 97], Square, 13, 1, 3, 0),
      MonkeyState(3, [74, 500, 620], Add(3), 17, 0, 1, 0))
    ensures WellFormed(s) && TurnOf(s, 1) == TurnOf(Thrown(s, 1), 1)
    ensures SampleTroop(Thrown(s, 1),
      MonkeyState(0, [20], Multiply(19), 23, 2, 3, 2),
      MonkeyState(1, [65, 75, 74], Add(6), 19, 2, 0, 1),
      MonkeyState(2, [79, 60, 97], Square, 13, 1, 3, 0),
      MonkeyState(3, [74, 500, 620], Add(3), 17, 0, 1, 0))
  {
    assert [54, 65, 75, 74][1..] == [65, 75, 74] && [] + [20] == [20];
    assert Worry(s[1], 54) == 20 && Target(s, 1) == 0;
    ThrowStep(s, 1);
    ThrownParts(s, 1);
  }

  lemma SampleThrow3(s: Troop)
    requires SampleTroop(s,
      MonkeyState(0, [20], Multiply(19), 23, 2, 3, 2),
      MonkeyState(1, [65, 75, 74], Add(6), 19, 2, 0, 1),
      MonkeyState(2, [79, 60, 97], Square, 13, 1, 3, 0),
      MonkeyState(3, [74, 500, 620], Add(3), 17, 0, 1, 0))
    ensures WellFormed(s) && TurnOf(s, 1) == TurnOf(Thrown(s, 1), 1)
    ensures SampleTroop(Thrown(s, 1),
      MonkeyState(0, [20, 23], Multiply(19), 23, 2, 3, 2),
      MonkeyState(1, [75, 74], Add(6), 19, 2, 0, 2),
      MonkeyState(2, [79, 60, 97], Square, 13, 1, 3, 0),
      MonkeyState(3, [74, 500, 620], Add(3), 17, 0, 1, 0))
  {
    assert [65, 75, 74][1..] == [75, 74] && [20] + [23] == [20, 23];
    assert Worry(s[1], 65) == 23 && Target(s, 1) == 0;
    ThrowStep(s, 1);
    ThrownParts(s, 1);
  }

  lemma SampleThrow4(s: Troop)
    requires SampleTroop(s,
      MonkeyState(0, [20, 23], Multiply(19), 23, 2, 3, 2),
      MonkeyState(1, [75, 74], Add(6), 19, 2, 0, 2),
      MonkeyState(2, [79, 60, 97], Square, 13, 1, 3, 0),
      MonkeyState(3, [74, 500, 620], Add(3), 17, 0, 1, 0))
    ensures WellFormed(s) && TurnOf(s, 1) == TurnOf(Thrown(s, 1), 1)
    ensures SampleTroop(Thrown(s, 1),
      MonkeyState(0, [20, 23, 27], Multiply(19), 23, 2, 3, 2),
      MonkeyState(1, [74], Add(6), 19, 2, 0, 3),
      MonkeyState(2, [79, 60, 97], Square, 13, 1, 3, 0),
      MonkeyState(3, [74, 500, 620], Add(3), 17, 0, 1, 0))
  {
    assert [75, 74][1..] == [74] && [20, 23] + [27] == [20, 23, 27];
    assert Worry(s[1], 75) == 27 && Target(s, 1) == 0;
    ThrowStep(s, 1);
    ThrownParts(s, 1);
  }

  lemma SampleThrow5(s: Troop)
    requires SampleTroop(s,
      MonkeyState(0, [20, 23, 27], Multiply(19), 23, 2, 3, 2),
      MonkeyState(1, [74], Add(6), 19, 2, 0, 3),
      MonkeyState(2, [79, 60, 97], Square, 13, 1, 3, 0),
      MonkeyState(3, [74, 500, 620], Add(3), 17, 0, 1, 0))
    ensures WellFormed(s) && TurnOf(s, 1) == TurnOf(Thrown(s, 1), 1)
    ensures SampleTroop(Thrown(s, 1),
      MonkeyState(0, [20, 23, 27, 26], Multiply(19), 23, 2, 3, 2),
      MonkeyState(1, [], Add(6), 19, 2, 0, 4),
      MonkeyState(2, [79, 60, 97], Square, 13, 1, 3, 0),
      MonkeyState(3, [74, 500, 620], Add(3), 17, 0, 1, 0))
  {
    assert [74][1..] == [] && [20, 23, 27] + [26] == [20, 23, 27, 26];
    assert Worry(s[1], 74) == 26 && Target(s, 1) == 0;
    ThrowStep(s, 1);
    ThrownParts(s, 1);
  }

  lemma SampleTurn1(s0: Troop)
    requires SampleTroop(s0,
      MonkeyState(0, [], Multiply(19), 23, 2, 3, 2),
      MonkeyState(1, [54, 65, 75, 74], Add(6), 19, 2, 0, 0),
      MonkeyState(2, [79, 60, 97], Square, 13, 1, 3, 0),
      MonkeyState(3, [74, 500, 620], Add(3), 17, 0, 1, 0))
    ensures WellFormed(s0) && TurnOf(s0, 1).missing.None?
    ensures SampleTroop(TurnOf(s0, 1).troop,
      MonkeyState(0, [20, 23, 27, 26], Multiply(19), 23, 2, 3, 2),
      MonkeyState(1, [], Add(6), 19, 2, 0, 4),
      MonkeyState(2, [79, 60, 97], Square, 13, 1, 3, 0),
      MonkeyState(3, [74, 500, 620], Add(3), 17, 0, 1, 0))
  {
    SampleThrow2(s0);
    var s1 := Thrown(s0, 1);
    SampleThrow3(s1);
    var s2 := Thrown(s1, 1);
    SampleThrow4(s2);
    var s3 := Thrown(s2, 1);
    SampleThrow5(s3);
    var s4 := Thrown(s3, 1);
  }

  lemma SampleThrow6(s: Troop)
    requires SampleTroop(s,
      MonkeyState(0, [20, 23, 27, 26], Multiply(19), 23, 2, 3, 2),
      MonkeyState(1, [], Add(6), 19, 2, 0, 4),
      MonkeyState(2, [79, 60, 97], Square, 13, 1, 3, 0),
      MonkeyState(3, [74, 500, 620], Add(3), 17, 0, 1, 0))
    ensures WellFormed(s) && TurnOf(s, 2) == TurnOf(Thrown(s, 2), 2)
    ensures SampleTroop(Thrown(s, 2),
      MonkeyState(0, [20, 23, 27, 26], Multiply(19), 23, 2, 3, 2),
      MonkeyState(1, [2080], Add(6), 19, 2, 0, 4),
      MonkeyState(2, [60, 97], Square, 13, 1, 3, 1),
      MonkeyState(3, [74, 500, 620], Add(3), 17, 0, 1, 0))
  {
    assert [79, 60, 97][1..] == [60, 97] && [] + [2080] == [2080];
    assert Worry(s[2], 79) == 2080 && Target(s, 2) == 1;
    ThrowStep(s, 2);
    ThrownParts(s, 2);
  }

  lemma SampleThrow7(s: Troop)
    requires SampleTroop(s,
      MonkeyState(0, [20, 23, 27, 26], Multiply(19), 23, 2, 3, 2),
      MonkeyState(1, [2080], Add(6), 19, 2, 0, 4),
      MonkeyState(2, [60, 97], Square, 13, 1, 3, 1),
      MonkeyState(3, [74, 500, 620], Add(3), 17, 0, 1, 0))
    ensures WellFormed(s) && TurnOf(s, 2) == TurnOf(Thrown(s, 2), 2)
    ensures SampleTroop(Thrown(s, 2),
      MonkeyState(0, [20, 23, 27, 26], Multiply(19), 23, 2, 3, 2),
      MonkeyState(1, [2080], Add(6), 19, 2, 0, 4),
      MonkeyState(2, [97], Square, 13, 1, 3, 2),
      MonkeyState(3, [74, 500, 620, 1200], Add(3), 17, 0, 1, 0))
  {
    assert [60, 97][1..] == [97] && [74, 500, 620] + [1200] == [74, 500, 620, 1200];
    assert Worry(s[2], 60) == 1200 && Target(s, 2) == 3;
    ThrowStep(s, 2);
    ThrownParts(s, 2);
  }

  lemma SampleThrow8(s: Troop)
    requires SampleTroop(s,
      MonkeyState(0, [20, 23, 27, 26], Multiply(19), 23, 2, 3, 2),
      MonkeyState(1, [2080], Add(6), 19, 2, 0, 4),
      MonkeyState(2, [97], Square, 13, 1, 3, 2),
      MonkeyState(3, [74, 500, 620, 1200], Add(3), 17, 0, 1, 0))
    ensures WellFormed(s) && TurnOf(s, 2) == TurnOf(Thrown(s, 2), 2)
    ensures SampleTroop(Thrown(s, 2),
      MonkeyState(0, [20, 23, 27, 26], Multiply(19), 23, 2, 3, 2),
      MonkeyState(1, [2080], Add(6), 19, 2, 0, 4),
      MonkeyState(2, [], Square, 13, 1, 3, 3),
      MonkeyState(3, [74, 500, 620, 1200, 3136], Add(3), 17, 0, 1, 0))
  {
    assert [97][1..] == [] && [74, 500, 620, 1200] + [3136] == [74, 500, 620, 1200, 3136];
    assert Worry(s[2], 97) == 3136 && Target(s, 2) == 3;
    ThrowStep(s, 2);
    ThrownParts(s, 2);
  }

  lemma SampleTurn2(s0: Troop)
    requires SampleTroop(s0,
      MonkeyState(0, [20, 23, 27, 26], Multiply(19), 23, 2, 3, 2),
      MonkeyState(1, [], Add(6), 19, 2, 0, 4),
      MonkeyState(2, [79, 60, 97], Square, 13, 1, 3, 0),
      MonkeyState(3, [74, 500, 620], Add(3), 17, 0, 1, 0))
    ensures WellFormed(s0) && TurnOf(s0, 2).missing.None?
    ensures SampleTroop(TurnOf(s0, 2).troop,
      MonkeyState(0, [20, 23, 27, 26], Multiply(19), 23, 2, 3, 2),
      MonkeyState(1, [2080], Add(6), 19, 2, 0, 4),
      MonkeyState(2, [], Square, 13, 1, 3, 3),
      MonkeyState(3, [74, 500, 620, 1200, 3136], Add(3), 17, 0, 1, 0))
  {
    SampleThrow6(s0);
    var s1 := Thrown(s0, 2);
    SampleThrow7(s1);
    var s2 := Thrown(s1, 2);
    SampleThrow8(s2);
    var s3 := Thrown(s2, 2);
  }

  lemma SampleThrow9(s: Troop)
    requires SampleTroop(s,
      MonkeyState(0, [20, 23, 27, 26], Multiply(19), 23, 2, 3, 2),
      MonkeyState(1, [2080], Add(6), 19, 2, 0, 4),
      MonkeyState(2, [], Square, 13, 1, 3, 3),
      MonkeyState(3, [74, 500, 620, 1200, 3136], Add(3), 17, 0, 1, 0))
    ensures WellFormed(s) && TurnOf(s, 3) == TurnOf(Thrown(s, 3), 3)
    ensures SampleTroop(Thrown(s, 3),
      MonkeyState(0, [20, 23, 27, 26], Multiply(19), 23, 2, 3, 2),
      MonkeyState(1, [2080, 25], Add(6), 19, 2, 0, 4),
      MonkeyState(2, [], Square, 13, 1, 3, 3),
      MonkeyState(3, [500, 620, 1200, 3136], Add(3), 17, 0, 1, 1))
  {
    assert [74, 500, 620, 1200, 3136][1..] == [500, 620, 1200, 3136] && [2080] + [25] == [2080, 25];
    assert Worry(s[3], 74) == 25 && Target(s, 3) == 1;
    ThrowStep(s, 3);
    ThrownParts(s, 3);
  }

  lemma SampleThrow10(s: Troop)
    requires SampleTroop(s,
      MonkeyState(0, [20, 23, 27, 26], Multiply(19), 23, 2, 3, 2),
      MonkeyState(1, [2080, 25], Add(6), 19, 2, 0, 4),
      MonkeyState(2, [], Square, 13, 1, 3, 3),
      MonkeyState(3, [500, 620, 1200, 3136], Add(3), 17, 0, 1, 1))
    ensures WellFormed(s) && TurnOf(s, 3) == TurnOf(Thrown(s, 3), 3)
    ensures SampleTroop(Thrown(s, 3),
      MonkeyState(0, [20, 23, 27, 26], Multiply(19), 23, 2, 3, 2),
      MonkeyState(1, [2080, 25, 167], Add(6), 19, 2, 0, 4),
      MonkeyState(2, [], Square, 13, 1, 3, 3),
      MonkeyState(3, [620, 1200, 3136], Add(3), 17, 0, 1, 2))
  {
    assert [500, 620, 1200, 3136][1..] == [620, 1200, 3136] && [2080, 25] + [167] == [2080, 25, 167];
    assert Worry(s[3], 500) == 167 && Target(s, 3) == 1;
    ThrowStep(s, 3);
    ThrownParts(s, 3);
  }

  lemma SampleThrow11(s: Troop)
    requires SampleTroop(s,
      MonkeyState(0, [20, 23, 27, 26], Multiply(19), 23, 2, 3, 2),
      MonkeyState(1, [2080, 25, 167], Add(6), 19, 2, 0, 4),
      MonkeyState(2, [], Square, 13, 1, 3, 3),
      MonkeyState(3, [620, 1200, 3136], Add(3), 17, 0, 1, 2))
    ensures WellFormed(s) && TurnOf(s, 3) == TurnOf(Thrown(s, 3), 3)
    ensures SampleTroop(Thrown(s, 3),
      MonkeyState(0, [20, 23, 27, 26], Multiply(19), 23, 2, 3, 2),
      MonkeyState(1, [2080, 25, 167, 207], Add(6), 19, 2, 0, 4),
      MonkeyState(2, [], Square, 13, 1, 3, 3),
      MonkeyState(3, [1200, 3136], Add(3), 17, 0, 1, 3))
  {
    assert [620, 1200, 3136][1..] == [1200, 3136] && [2080, 25, 167] + [207] == [2080, 25, 167, 207];
    assert Worry(s[3], 620) == 207 && Target(s, 3) == 1;
    ThrowStep(s, 3);
    ThrownParts(s, 3);
  }

  lemma SampleThrow12(s: Troop)
    requires SampleTroop(s,
      MonkeyState(0, [20, 23, 27, 26], Multiply(19), 23, 2, 3, 2),
      MonkeyState(1, [2080, 25, 167, 207], Add(6), 19, 2, 0, 4),
      MonkeyState(2, [], Square, 13, 1, 3, 3),
      MonkeyState(3, [1200, 3136], Add(3), 17, 0, 1, 3))
    ensures WellFormed(s) && TurnOf(s, 3) == TurnOf(Thrown(s, 3), 3)
    ensures SampleTroop(Thrown(s, 3),
      MonkeyState(0, [20, 23, 27, 26], Multiply(19), 23, 2, 3, 2),
      MonkeyState(1, [2080, 25, 167, 207, 401], Add(6), 19, 2, 0, 4),
      MonkeyState(2, [], Square, 13, 1, 3, 3),
      MonkeyState(3, [3136], Add(3), 17, 0, 1, 4))
  {
    assert [1200, 3136][1..] == [3136] && [2080, 25, 167, 207] + [401] == [2080, 25, 167, 207, 401];
    assert Worry(s[3], 1200) == 401 && Target(s, 3) == 1;
    ThrowStep(s, 3);
    ThrownParts(s, 3);
  }

  lemma SampleThrow13(s: Troop)
    requires SampleTroop(s,
      MonkeyState(0, [20, 23, 27, 26], Multiply(19), 23, 2, 3, 2),
      MonkeyState(1, [2080, 25, 167, 207, 401], Add(6), 19, 2, 0, 4),
      MonkeyState(2, [], Square, 13, 1, 3, 3),
      MonkeyState(3, [3136], Add(3), 17, 0, 1, 4))
    ensures WellFormed(s) && TurnOf(s, 3) == TurnOf(Thrown(s, 3), 3)
    ensures SampleTroop(Thrown(s, 3),
      MonkeyState(0, [20, 23, 27, 26], Multiply(19), 23, 2, 3, 2),
      MonkeyState(1, [2080, 25, 167, 207, 401, 1046], Add(6), 19, 2, 0, 4),
      MonkeyState(2, [], Square, 13, 1, 3, 3),
      MonkeyState(3, [], Add(3), 17, 0, 1, 5))
  {
    assert [3136][1..] == [] && [2080, 25, 167, 207, 401] + [1046] == [2080, 25, 167, 207, 401, 1046];
    assert Worry(s[3], 3136) == 1046 && Target(s, 3) == 1;
    ThrowStep(s, 3);
    ThrownParts(s, 3);
  }

  lemma SampleTurn3(s0: Troop)
    requires SampleTroop(s0,
      MonkeyState(0, [20, 23, 27, 26], Multiply(19), 23, 2, 3, 2),
      MonkeyState(1, [2080], Add(6), 19, 2, 0, 4),
      MonkeyState(2, [], Square, 13, 1, 3, 3),
      MonkeyState(3, [74, 500, 620, 1200, 3136], Add(3), 17, 0, 1, 0))
    ensures WellFormed(s0) && TurnOf(s0, 3).missing.None?
    ensures SampleTroop(TurnOf(s0, 3).troop,
      MonkeyState(0, [20, 23, 27, 26], Multiply(19), 23, 2, 3, 2),
      MonkeyState(1, [2080, 25, 167, 207, 401, 1046], Add(6), 19, 2, 0, 4),
      MonkeyState(2, [], Square, 13, 1, 3, 3),
      MonkeyState(3, [], Add(3), 17, 0, 1, 5))
  {
    SampleThrow9(s0);
    var s1 := Thrown(s0, 3);
    SampleThrow10(s1);
    var s2 := Thrown(s1, 3);
    SampleThrow11(s2);
    var s3 := Thrown(s2, 3);
    SampleThrow12(s3);
    var s4 := Thrown(s3, 3);
    SampleThrow13(s4);
    var s5 := Thrown(s4, 3);
  }

  /** The first round of the sample: the queues the source's test expects,
      and each monkey has inspected what it held or caught during the round. */
  lemma SampleRoundOne(ms: Troop)
    requires SampleTroop(ms,
      MonkeyState(0, [79, 98], Multiply(19), 23, 2, 3, 0),
      MonkeyState(1, [54, 65, 75, 74], Add(6), 19, 2, 0, 0),
      MonkeyState(2, [79, 60, 97], Square, 13, 1, 3, 0),
      MonkeyState(3, [74], Add(3), 17, 0, 1, 0))
    ensures WellFormed(ms) && RoundOf(ms).missing.None?
    ensures SampleTroop(RoundOf(ms).troop,
      MonkeyState(0, [20, 23, 27, 26], Multiply(19), 23, 2, 3, 2),
      MonkeyState(1, [2080, 25, 167, 207, 401, 1046], Add(6), 19, 2, 0, 4),
      MonkeyState(2, [], Square, 13, 1, 3, 3),
      MonkeyState(3, [], Add(3), 17, 0, 1, 5))
  {
    assert |ms| == |ms.Keys| == 4;
    SampleTurn0(ms);
    var t0 := TurnOf(ms, 0).troop;
    assert RoundFrom(ms, 0, 4) == RoundFrom(t0, 1, 4);
    SampleTurn1(t0);
    var t1 := TurnOf(t0, 1).troop;
    assert RoundFrom(t0, 1, 4) == RoundFrom(t1, 2, 4);
    SampleTurn2(t1);
    var t2 := TurnOf(t1, 2).troop;
    assert RoundFrom(t1, 2, 4) == RoundFrom(t2, 3, 4);
    SampleTurn3(t2);
    var t3 := TurnOf(t2, 3).troop;
    assert RoundFrom(t2, 3, 4) == RoundFrom(t3, 4, 4) == Round(t3, None);
  }

  // ---------------------------------------------------------------- the troop in place

  /** The states of the monkeys a map of objects holds. */
  function Snapshot(monkeys: map<nat, Monkey>): (ms: Troop)
    reads set k | k in monkeys :: monkeys[k]
    ensures ms.Keys == monkeys.Keys
  {
    map k | k in monkeys :: monkeys[k].State()
  }

  /** No monkey object sits under two ids. */
  predicate Distinct(monkeys: map<nat, Monkey>)
  {
    forall a, b | a in monkeys && b in monkeys && a != b :: monkeys[a] != monkeys[b]
  }

  /** `monkeys[i].inspect()`, seen on the whole troop. */
  method InspectAt(monkeys: map<nat, Monkey>, i: nat) returns (item: Option<nat>)
    requires Distinct(monkeys) && i in monkeys
    modifies monkeys[i]
    ensures Snapshot(monkeys) == old(Snapshot(monkeys))[i := InspectOf(old(monkeys[i].State())).0]
    ensures item == InspectOf(old(monkeys[i].State())).1
  {
    item := monkeys[i].Inspect();
    forall k | k in monkeys && k != i
      ensures monkeys[k].State() == old(monkeys[k].State())
    {
      assert monkeys[k] != monkeys[i];
    }
  }

  /** `monkeys[target].catch(worry)`, seen on the whole troop. */
  method CatchAt(monkeys: map<nat, Monkey>, target: nat, worry: nat)
    requires Distinct(monkeys) && target in monkeys
    modifies monkeys[target]
    ensures Snapshot(monkeys) == old(Snapshot(monkeys))[target := CatchOf(old(monkeys[target].State()), worry)]
  {
    monkeys[target].Catch(worry);
    forall k | k in monkeys && k != target
      ensures monkeys[k].State() == old(monkeys[k].State())
    {
      assert monkeys[k] != monkeys[target];
    }
  }

  /** The loop of one turn in `play_round`: monkey `i` inspects and throws
      until its queue is empty or a target is missing. */
  method Turn(monkeys: map<nat, Monkey>, i: nat) returns (missing: Option<nat>)
    requires Distinct(monkeys) && WellFormed(Snapshot(monkeys))
    modifies set k | k in monkeys :: monkeys[k]
    ensures Snapshot(monkeys) == TurnAt(old(Snapshot(monkeys)), i).troop
    ensures missing == TurnAt(old(Snapshot(monkeys)), i).missing
  {
    if i !in monkeys {
      return Some(i);
    }
    var monkey := monkeys[i];
    while true
      invariant WellFormed(Snapshot(monkeys))
      invariant TurnOf(Snapshot(monkeys), i) == TurnOf(old(Snapshot(monkeys)), i)
      decreases |monkey.items|
    {
      ghost var before := Snapshot(monkeys);
      var item := InspectAt(monkeys, i);
      if item.None? {
        return None;
      }
      var worry := Apply(monkey.operation, item.value) / 3;
      var next := monkey.Test(worry);
      assert next == Target(before, i);
      if next !in monkeys {
        return Some(next);
      }
      CatchAt(monkeys, next, worry);
      ThrowKeepsRules(before, i);
      assert Snapshot(monkeys) == Thrown(before, i);
    }
  }

  /** `play_round`: turns in id order, each until the queue is empty; the
      first missing id, at a turn or as a target, ends the round with
      `NoSuchMonkeyWithId` and leaves the monkeys as far as they got. */
  method PlayRound(monkeys: map<nat, Monkey>) returns (r: Result<(), EleventhError>)
    requires Distinct(monkeys) && WellFormed(Snapshot(monkeys))
    modifies set k | k in monkeys :: monkeys[k]
    ensures Snapshot(monkeys) == RoundOf(old(Snapshot(monkeys))).troop
    ensures r.Ok? <==> RoundOf(old(Snapshot(monkeys))).missing.None?
    ensures r.Err? ==> r.error == NoSuchMonkeyWithId(RoundOf(old(Snapshot(monkeys))).missing.value)
  {
    ghost var goal := RoundOf(Snapshot(monkeys));
    var n := |monkeys|;
    for i := 0 to n
      invariant WellFormed(Snapshot(monkeys))
      invariant RoundFrom(Snapshot(monkeys), i, n) == goal
    {
      var missing := Turn(monkeys, i);
      if missing.Some? {
        return Err(NoSuchMonkeyWithId(missing.value));
      }
    }
    r := Ok(());
  }

  // ---------------------------------------------------------------- ranking

  /** Most inspections first. */
  predicate ByActivity(s: seq<MonkeyState>)
  {
    forall i, j | 0 <= i < j < |s| :: s[i].inspections >= s[j].inspections
  }

  /** `most_active_monkeys`: the monkeys, in the order the map yields them,
      sorted by inspections, most first. */
  method MostActive(monkeys: seq<MonkeyState>) returns (ranked: seq<MonkeyState>)
    ensures multiset(ranked) == multiset(monkeys)
    ensures ByActivity(ranked)
  {
    ranked := [];
    for i := 0 to |monkeys|
      invariant multiset(ranked) == multiset(monkeys[..i])
      invariant ByActivity(ranked)
    {
      ranked := Insert(ranked, monkeys[i]);
      assert monkeys[..i + 1] == monkeys[..i] + [monkeys[i]];
    }
    assert monkeys[..|monkeys|] == monkeys;
  }

  /** Places `m` after every monkey at least as active, keeping the order. */
  method Insert(ranked: seq<MonkeyState>, m: MonkeyState) returns (r: seq<MonkeyState>)
    requires ByActivity(ranked)
    ensures multiset(r) == multiset(ranked) + multiset{m}
    ensures ByActivity(r)
  {
    var j := 0;
    while j < |ranked| && ranked[j].inspections >= m.inspections
      invariant 0 <= j <= |ranked|
      invariant forall k | 0 <= k < j :: ranked[k].inspections >= m.inspections
    {
      j := j + 1;
    }
    r := ranked[..j] + [m] + ranked[j..];
    InsertAt(ranked, j, m);
  }

  lemma InsertAt(ranked: seq<MonkeyState>, j: nat, m: MonkeyState)
    requires ByActivity(ranked) && j <= |ranked|
    requires forall k | 0 <= k < j :: ranked[k].inspections >= m.inspections
    requires j < |ranked| ==> ranked[j].inspections < m.inspections
    ensures multiset(ranked[..j] + [m] + ranked[j..]) == multiset(ranked) + multiset{m}
    ensures ByActivity(ranked[..j] + [m] + ranked[j..])
  {
    assert ranked == ranked[..j] + ranked[j..];
    var r := ranked[..j] + [m] + ranked[j..];
    forall a, b | 0 <= a < b < |r|
      ensures r[a].inspections >= r[b].inspections
    {
      if a < j && b > j {
        assert r[a] == ranked[a] && r[b] == ranked[b - 1];
      } else if b > j {
        assert r[b] == ranked[b - 1];
      }
    }
  }
}
