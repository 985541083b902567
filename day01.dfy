/** Day 1: the elf carrying the most calories. The input lists calorie
    counts one per line, one block of lines per elf, blocks separated by an
    empty line. */
module Day01 {
  import opened Wrappers
  import opened Text
  import opened Seqs

  /** A run of consecutive lines that `group_by(|line| !line.is_empty())`
      puts together, with the key they share. */
  datatype Group = Group(nonEmpty: bool, lines: seq<String>)

  function Concat(groups: seq<Group>): seq<String>
  {
    if groups == [] then [] else groups[0].lines + Concat(groups[1..])
  }

  predicate Homogeneous(g: Group)
  {
    g.lines != [] && forall k | 0 <= k < |g.lines| :: (g.lines[k] != []) == g.nonEmpty
  }

  /** itertools' `group_by`: the maximal runs of lines with the same key.
      Every run has one key, and neighbouring runs have different keys. */
  function GroupByNonEmpty(lines: seq<String>): (groups: seq<Group>)
    ensures forall k | 0 <= k < |groups| :: Homogeneous(groups[k])
    ensures forall k | 0 <= k < |groups| - 1 :: groups[k].nonEmpty != groups[k + 1].nonEmpty
    ensures lines != [] ==> groups != [] && groups[0].nonEmpty == (lines[0] != [])
  {
    if lines == [] then []
    else
      var key := lines[0] != [];
      var rest := GroupByNonEmpty(lines[1..]);
      if rest != [] && rest[0].nonEmpty == key then
        var g := Group(key, [lines[0]] + rest[0].lines);
        JoinRun(key, lines[0], rest[0]);
        var r := [g] + rest[1..];
        assert forall k | 1 <= k < |r| :: r[k] == rest[k];
        r
      else
        var r := [Group(key, [lines[0]])] + rest;
        assert forall k | 1 <= k < |r| :: r[k] == rest[k - 1];
        r
  }

  /** Gluing the runs back together gives the lines again. */
  lemma {:induction false} GroupByNonEmptyConcat(lines: seq<String>)
    ensures Concat(GroupByNonEmpty(lines)) == lines
  {
    if lines != [] {
      var key := lines[0] != [];
      var rest := GroupByNonEmpty(lines[1..]);
      GroupByNonEmptyConcat(lines[1..]);
      if rest != [] && rest[0].nonEmpty == key {
        var g := Group(key, [lines[0]] + rest[0].lines);
        ConcatCons(g, rest[1..]);
        ConcatCons(rest[0], rest[1..]);
        assert rest == [rest[0]] + rest[1..];
      } else {
        ConcatCons(Group(key, [lines[0]]), rest);
      }
      assert lines == [lines[0]] + lines[1..];
    }
  }

  lemma JoinRun(key: bool, line: String, g: Group)
    requires Homogeneous(g) && g.nonEmpty == key && (line != []) == key
    ensures Homogeneous(Group(key, [line] + g.lines))
  {
    var lines := [line] + g.lines;
    forall k | 0 <= k < |lines| ensures (lines[k] != []) == key {
      if k > 0 { assert lines[k] == g.lines[k - 1]; }
    }
  }

  lemma ConcatCons(g: Group, rest: seq<Group>)
    ensures Concat([g] + rest) == g.lines + Concat(rest)
  {
    assert ([g] + rest)[1..] == rest;
  }

  /** `lines.map(|line| line.parse::<u32>()).flatten()`: the lines that parse
      as `u32`, in order; the others are dropped. */
  function Calories(lines: seq<String>): (cs: seq<nat>)
    ensures |cs| <= |lines|
    ensures forall k | 0 <= k < |cs| :: cs[k] <= U32_MAX
  {
    if lines == [] then []
    else
      var rest := Calories(lines[1..]);
      match ParseUnsigned(lines[0], U32_MAX)
      case Some(c) =>
        var r := [c] + rest;
        assert forall k | 1 <= k < |r| :: r[k] == rest[k - 1];
        r
      case None => rest
  }

  function Sum(xs: seq<nat>): nat
  {
    if xs == [] then 0 else xs[0] + Sum(xs[1..])
  }

  /** The calorie totals of the elves, in input order: one per group whose
      lines yield at least one number. */
  function Totals(groups: seq<Group>): seq<nat>
  {
    if groups == [] then []
    else
      var cs := Calories(groups[0].lines);
      var rest := Totals(groups[1..]);
      if cs == [] then rest else [Sum(cs)] + rest
  }

  /** `find_elv_carrying_most_calories`: the (0-based position, total) of the
      elf with the largest total, the last one on ties, or None without elves. */
  function FindElfCarryingMostCalories(input: String): (r: Option<(nat, nat)>)
    ensures var totals := Totals(GroupByNonEmpty(Lines(input)));
      && (r.None? <==> totals == [])
      && (r.Some? ==> r.value.0 < |totals| && r.value.1 == totals[r.value.0])
      && (r.Some? ==> forall j | 0 <= j < |totals| :: totals[j] <= r.value.1)
      && (r.Some? ==> forall j | r.value.0 < j < |totals| :: totals[j] < r.value.1)
  {
    var totals := Totals(GroupByNonEmpty(Lines(input)));
    if totals == [] then None
    else
      var i := LastMaxIndex(totals);
      Some((i, totals[i]))
  }

  /** Runs of empty lines never make an elf, and neither do lines that do not
      parse: every total comes from a run of non-empty lines holding a number. */
  lemma {:induction false} TotalsComeFromNumbers(groups: seq<Group>, k: nat)
    requires forall j | 0 <= j < |groups| :: Homogeneous(groups[j])
    requires k < |Totals(groups)|
    ensures exists j | 0 <= j < |groups| ::
      groups[j].nonEmpty && Calories(groups[j].lines) != [] && Totals(groups)[k] == Sum(Calories(groups[j].lines))
  {
    var cs := Calories(groups[0].lines);
    if cs == [] {
      TotalsComeFromNumbers(groups[1..], k);
      var j :| 0 <= j < |groups[1..]| && groups[1..][j].nonEmpty && Calories(groups[1..][j].lines) != []
        && Totals(groups[1..])[k] == Sum(Calories(groups[1..][j].lines));
      assert groups[j + 1] == groups[1..][j];
    } else {
      EmptyLinesHaveNoCalories(groups[0]);
      if k == 0 {
        assert groups[0].nonEmpty;
      } else {
        TotalsComeFromNumbers(groups[1..], k - 1);
        var j :| 0 <= j < |groups[1..]| && groups[1..][j].nonEmpty && Calories(groups[1..][j].lines) != []
          && Totals(groups[1..])[k - 1] == Sum(Calories(groups[1..][j].lines));
        assert groups[j + 1] == groups[1..][j];
      }
    }
  }

  lemma EmptyLinesHaveNoCalories(g: Group)
    requires Homogeneous(g)
    requires Calories(g.lines) != []
    ensures g.nonEmpty
  {
    if !g.nonEmpty {
      assert g.lines[0] == [];
      NoCaloriesInEmptyLines(g.lines);
    }
  }

  lemma {:induction false} NoCaloriesInEmptyLines(lines: seq<String>)
    requires forall k | 0 <= k < |lines| :: lines[k] == []
    ensures Calories(lines) == []
  {
    if lines != [] {
      NoCaloriesInEmptyLines(lines[1..]);
    }
  }
}
