/** Day 19, the search engine `A`: a best-first search that always expands
    the frontier node of highest cost, remembers the lowest cost it has seen
    for every node (`dist`) and the node each one was reached from (`done`),
    and reads the path back from the first goal node it pops. */
module Day19Solver {
  import Text
  import opened Seqs

  /** `dist.entry(next).or_insert(i32::MAX)`: the cost of a node not seen yet. */
  const Unseen: int := Text.I32_MAX

  /** How `solve` ends: the path to the first goal popped, or an empty
      frontier (the source's `unreachable!` panic). `OutOfFuel` is the model's
      bound on the number of pops; the source has none. */
  datatype Outcome<N> = Found(path: seq<N>) | Exhausted | OutOfFuel

  /** The search's bookkeeping: the frontier `todo`, the best cost seen per
      node `dist`, and the parent of every node pushed `done`. */
  datatype Frontier<N> = Frontier(todo: seq<N>, dist: map<N, int>, done: map<N, N>)

  /** The best cost seen for `x`, `i32::MAX` when none. */
  function Known<N(==)>(dist: map<N, int>, x: N): int
  {
    if x in dist then dist[x] else Unseen
  }

  /** `BinaryHeap::pop` takes a node of highest cost; among equal costs the
      model takes the one pushed first. */
  function MaxIndex<N>(todo: seq<N>, cost: N -> int): (k: nat)
    requires todo != []
    ensures k < |todo|
    ensures forall i | 0 <= i < |todo| :: cost(todo[i]) <= cost(todo[k])
    ensures forall i | 0 <= i < k :: cost(todo[i]) < cost(todo[k])
  {
    if |todo| == 1 then 0
    else
      var k := MaxIndex(todo[..|todo| - 1], cost);
      assert forall i | 0 <= i < |todo| - 1 :: todo[..|todo| - 1][i] == todo[i];
      if cost(todo[|todo| - 1]) > cost(todo[k]) then |todo| - 1 else k
  }

  function Remove<N>(s: seq<N>, k: nat): (r: seq<N>)
    requires k < |s|
    ensures |r| == |s| - 1
    ensures forall x | x in s && x != s[k] :: x in r
    ensures forall x | x in r :: x in s
  {
    var r := s[..k] + s[k + 1..];
    assert forall i | 0 <= i < |s| && i != k :: s[i] == if i < k then r[i] else r[i - 1];
    r
  }

  /** One candidate in the loop of `solve`: its best cost defaults to
      `i32::MAX`; when its own cost is strictly lower, that becomes its best
      cost, the expanded node becomes its parent and it is pushed. */
  function Relax<N(==)>(f: Frontier<N>, n: N, next: N, cost: N -> int): Frontier<N>
  {
    var d := Known(f.dist, next);
    if cost(next) < d then Frontier(f.todo + [next], f.dist[next := cost(next)], f.done[next := n])
    else Frontier(f.todo, f.dist[next := d], f.done)
  }

  /** The whole loop over the candidates of `n`, in order. */
  function RelaxAll<N(==)>(f: Frontier<N>, n: N, cands: seq<N>, cost: N -> int): Frontier<N>
  {
    if cands == [] then f
    else Relax(RelaxAll(f, n, cands[..|cands| - 1], cost), n, cands[|cands| - 1], cost)
  }

  /** Expanding a node never raises a best cost, gives every candidate a
      best cost no higher than its own, and pushes (recording `n` as parent)
      only candidates whose cost is strictly below the best cost known
      before; nothing else is pushed or re-parented. */
  lemma {:induction false} RelaxAllSpec<N>(f: Frontier<N>, n: N, cands: seq<N>, cost: N -> int)
    ensures var r := RelaxAll(f, n, cands, cost);
      && (forall x :: x in r.dist <==> x in f.dist || x in cands)
      && (forall x | x in r.dist :: r.dist[x] <= Known(f.dist, x))
      && (forall x | x in cands :: r.dist[x] <= cost(x))
      && |f.todo| <= |r.todo| && r.todo[..|f.todo|] == f.todo
      && (forall i | |f.todo| <= i < |r.todo| :: r.todo[i] in cands && cost(r.todo[i]) < Known(f.dist, r.todo[i]))
      && (forall x :: x in r.done <==> x in f.done || x in r.todo[|f.todo|..])
      && (forall x | x in r.done :: r.done[x] == if x in r.todo[|f.todo|..] then n else f.done[x])
    decreases |cands|
  {
    if cands != [] {
      var init := cands[..|cands| - 1];
      var next := cands[|cands| - 1];
      var g := RelaxAll(f, n, init, cost);
      RelaxAllSpec(f, n, init, cost);
      var r := Relax(g, n, next, cost);
      assert r == RelaxAll(f, n, cands, cost);
      assert forall x :: x in cands <==> x in init || x == next;
      if cost(next) < Known(g.dist, next) {
        assert r.todo == g.todo + [next];
        assert r.todo[..|f.todo|] == g.todo[..|f.todo|];
        assert r.todo[|f.todo|..] == g.todo[|f.todo|..] + [next];
      } else {
        assert r.todo == g.todo;
      }
    }
  }

  // ---------------------------------------------------------------- walks

  /** A walk the search can take: every node but the last is not a goal and
      the next one is among its candidates, at a cost below `i32::MAX` (a
      node of that cost is never pushed). */
  ghost predicate Walk<N(!new)>(candidates: N -> seq<N>, goal: N -> bool, cost: N -> int, w: seq<N>)
    decreases |w|
  {
    && |w| > 0
    && (|w| > 1 ==> !goal(w[0]) && w[1] in candidates(w[0]) && cost(w[1]) < Unseen && Walk(candidates, goal, cost, w[1..]))
  }

  /** Costs never rise along the walk: the cost is an upper bound on what
      can still be reached. */
  ghost predicate Monotone<N(!new)>(cost: N -> int, w: seq<N>)
    decreases |w|
  {
    |w| > 1 ==> cost(w[1]) <= cost(w[0]) && Monotone(cost, w[1..])
  }

  /** Each node of `path` after the first has the one before it as parent. */
  ghost predicate Chained<N(!new)>(done: map<N, N>, path: seq<N>)
    decreases |path|
  {
    |path| > 1 ==> path[1] in done && done[path[1]] == path[0] && Chained(done, path[1..])
  }

  /** The start keeps best cost 0 and no parent; every node with a parent
      was pushed at its own cost, which is below `i32::MAX`. */
  ghost predicate Rooted<N(!new)>(cost: N -> int, start: N, f: Frontier<N>)
  {
    && start in f.dist && f.dist[start] == 0 && 0 <= cost(start) && start !in f.done
    && (forall x | x in f.dist :: f.dist[x] <= Unseen)
    && (forall x | x in f.done :: x in f.dist && f.dist[x] <= cost(x) && cost(x) < Unseen)
  }

  /** `rank` orders the start and the nodes with a parent by when they were
      first pushed; every parent ranks before its child, so the parent links
      have no cycle. */
  ghost predicate Ranked<N(!new)>(start: N, done: map<N, N>, rank: map<N, nat>, counter: nat)
  {
    && (forall x :: x in rank <==> x in done || x == start)
    && (forall x | x in rank :: rank[x] < counter)
    && (forall x | x in done :: done[x] in rank && rank[done[x]] < rank[x])
  }

  /** Every parent is a node that was not a goal, and its child is one of its candidates. */
  ghost predicate Linked<N(!new)>(candidates: N -> seq<N>, goal: N -> bool, done: map<N, N>)
  {
    forall x | x in done :: x in candidates(done[x]) && !goal(done[x])
  }

  /** Every node given a best cost below `i32::MAX` is on the frontier or has been popped. */
  ghost predicate Covered<N(!new)>(f: Frontier<N>, popped: set<N>)
  {
    forall x | x in f.dist && f.dist[x] < Unseen :: x in popped || x in f.todo
  }

  /** The nodes popped are not goals, and their candidates (those of `n`,
      the node being expanded, as far as `seen`) have a best cost at most
      their own. */
  ghost predicate Expanded<N(!new)>(candidates: N -> seq<N>, goal: N -> bool, cost: N -> int,
                                    dist: map<N, int>, popped: set<N>, n: N, seen: seq<N>)
  {
    && (forall p | p in popped :: !goal(p))
    && (forall p, c | p in popped && c in candidates(p) && (p == n ==> c in seen) :: c in dist && dist[c] <= cost(c))
  }

  /** The bookkeeping of a search from `start`, while node `n` is being
      expanded and its candidates `seen` have been tried. `popped` holds the
      nodes taken from the frontier. */
  ghost predicate Searching<N(!new)>(candidates: N -> seq<N>, goal: N -> bool, cost: N -> int, start: N,
                                     f: Frontier<N>, popped: set<N>, rank: map<N, nat>, counter: nat,
                                     n: N, seen: seq<N>)
  {
    && Rooted(cost, start, f)
    && Ranked(start, f.done, rank, counter)
    && Linked(candidates, goal, f.done)
    && (forall x | x in f.todo :: x in rank)
    && n in rank
    && Covered(f, popped)
    && Expanded(candidates, goal, cost, f.dist, popped, n, seen)
  }

  /** Taking a node off the frontier: the bookkeeping holds with the node
      popped and none of its candidates tried yet. */
  lemma PopKeeps<N(!new)>(candidates: N -> seq<N>, goal: N -> bool, cost: N -> int, start: N,
                    f: Frontier<N>, popped: set<N>, rank: map<N, nat>, counter: nat, cur: N, k: nat)
    requires Searching(candidates, goal, cost, start, f, popped, rank, counter, cur, candidates(cur))
    requires k < |f.todo| && !goal(f.todo[k])
    ensures Searching(candidates, goal, cost, start, Frontier(Remove(f.todo, k), f.dist, f.done),
                      popped + {f.todo[k]}, rank, counter, f.todo[k], [])
  {
    var n := f.todo[k];
    var g := Frontier(Remove(f.todo, k), f.dist, f.done);
    PopCovered(f, popped, k);
    PopExpanded(candidates, goal, cost, f.dist, popped, cur, n);
    assert forall x | x in g.todo :: x in f.todo;
  }

  lemma PopCovered<N(!new)>(f: Frontier<N>, popped: set<N>, k: nat)
    requires Covered(f, popped) && k < |f.todo|
    ensures Covered(Frontier(Remove(f.todo, k), f.dist, f.done), popped + {f.todo[k]})
  {
  }

  lemma PopExpanded<N(!new)>(candidates: N -> seq<N>, goal: N -> bool, cost: N -> int,
                             dist: map<N, int>, popped: set<N>, cur: N, n: N)
    requires Expanded(candidates, goal, cost, dist, popped, cur, candidates(cur))
    requires !goal(n)
    ensures Expanded(candidates, goal, cost, dist, popped + {n}, n, [])
  {
    forall p, c | p in popped + {n} && c in candidates(p) && (p == n ==> c in [])
      ensures c in dist && dist[c] <= cost(c)
    {
      assert p in popped && (p == cur ==> c in candidates(cur));
    }
  }

  lemma RelaxRooted<N(!new)>(cost: N -> int, start: N, f: Frontier<N>, n: N, next: N)
    requires Rooted(cost, start, f)
    ensures Rooted(cost, start, Relax(f, n, next, cost))
    ensures cost(next) < Known(f.dist, next) ==> next !in f.done && next != start
  {
    var r := Relax(f, n, next, cost);
    if cost(next) < Known(f.dist, next) {
      forall x | x in r.done
        ensures x in r.dist && r.dist[x] <= cost(x) && cost(x) < Unseen
      {
        if x != next {
          assert x in f.done;
        }
      }
    }
  }

  lemma RelaxRanked<N(!new)>(cost: N -> int, start: N, f: Frontier<N>, rank: map<N, nat>, counter: nat, n: N, next: N)
    requires Rooted(cost, start, f) && Ranked(start, f.done, rank, counter) && n in rank
    ensures var pushed := cost(next) < Known(f.dist, next);
      Ranked(start, Relax(f, n, next, cost).done,
             if pushed then rank[next := counter] else rank, if pushed then counter + 1 else counter)
  {
    var r := Relax(f, n, next, cost);
    if cost(next) < Known(f.dist, next) {
      RelaxRooted(cost, start, f, n, next);
      assert next !in rank;
      var rank' := rank[next := counter];
      forall x | x in r.done
        ensures r.done[x] in rank' && rank'[r.done[x]] < rank'[x]
      {
        if x != next {
          assert r.done[x] == f.done[x];
        }
      }
    }
  }

  lemma RelaxCovered<N(!new)>(cost: N -> int, f: Frontier<N>, popped: set<N>, n: N, next: N)
    requires Covered(f, popped)
    ensures Covered(Relax(f, n, next, cost), popped)
  {
    var r := Relax(f, n, next, cost);
    forall x | x in r.dist && r.dist[x] < Unseen
      ensures x in popped || x in r.todo
    {
      if x != next {
        assert r.dist[x] == f.dist[x];
      } else if cost(next) >= Known(f.dist, next) {
        assert next in f.dist;
      }
    }
  }

  lemma RelaxExpanded<N(!new)>(candidates: N -> seq<N>, goal: N -> bool, cost: N -> int,
                               f: Frontier<N>, popped: set<N>, n: N, seen: seq<N>, next: N)
    requires Expanded(candidates, goal, cost, f.dist, popped, n, seen)
    ensures Expanded(candidates, goal, cost, Relax(f, n, next, cost).dist, popped, n, seen + [next])
  {
    var r := Relax(f, n, next, cost);
    forall p, c | p in popped && c in candidates(p) && (p == n ==> c in seen + [next])
      ensures c in r.dist && r.dist[c] <= cost(c)
    {
      if c != next {
        assert p == n ==> c in seen;
        assert c in f.dist && f.dist[c] <= cost(c);
      }
    }
  }

  /** Trying one candidate of the node being expanded keeps the bookkeeping,
      with the candidate ranked after every node if it is pushed. */
  lemma RelaxKeeps<N(!new)>(candidates: N -> seq<N>, goal: N -> bool, cost: N -> int, start: N,
                      f: Frontier<N>, popped: set<N>, rank: map<N, nat>, counter: nat,
                      n: N, seen: seq<N>, next: N)
    requires Searching(candidates, goal, cost, start, f, popped, rank, counter, n, seen)
    requires n in popped && !goal(n) && next in candidates(n)
    ensures var pushed := cost(next) < Known(f.dist, next);
      Searching(candidates, goal, cost, start, Relax(f, n, next, cost), popped,
                if pushed then rank[next := counter] else rank, if pushed then counter + 1 else counter,
                n, seen + [next])
  {
    RelaxRooted(cost, start, f, n, next);
    RelaxRanked(cost, start, f, rank, counter, n, next);
    RelaxCovered(cost, f, popped, n, next);
    RelaxExpanded(candidates, goal, cost, f, popped, n, seen, next);
  }

  /** From every walk that starts at a node given a best cost below
      `i32::MAX` and reaches a goal, some node is still on the frontier: the
      nodes popped are not goals, and every candidate of a node popped has a
      best cost at most its own. */
  lemma {:induction false} OnFrontier<N(!new)>(candidates: N -> seq<N>, goal: N -> bool, cost: N -> int, start: N,
                                          f: Frontier<N>, popped: set<N>, rank: map<N, nat>, counter: nat,
                                          cur: N, w: seq<N>)
    requires Searching(candidates, goal, cost, start, f, popped, rank, counter, cur, candidates(cur))
    requires Walk(candidates, goal, cost, w) && goal(w[|w| - 1])
    requires w[0] in f.dist && f.dist[w[0]] < Unseen
    ensures exists j | 0 <= j < |w| :: w[j] in f.todo
    decreases |w|
  {
    if w[0] !in f.todo {
      assert Covered(f, popped) && Expanded(candidates, goal, cost, f.dist, popped, cur, candidates(cur));
      assert w[0] in popped;
      assert |w| > 1;
      assert w[1..][|w[1..]| - 1] == w[|w| - 1];
      OnFrontier(candidates, goal, cost, start, f, popped, rank, counter, cur, w[1..]);
      var j :| 0 <= j < |w[1..]| && w[1..][j] in f.todo;
      assert w[j + 1] in f.todo;
    }
  }

  /** Along a monotone walk the last node costs no more than any earlier one. */
  lemma {:induction false} MonotoneEnds<N(!new)>(cost: N -> int, w: seq<N>, j: nat)
    requires Monotone(cost, w) && j < |w|
    ensures cost(w[|w| - 1]) <= cost(w[j])
    decreases |w|
  {
    if |w| > 1 {
      assert w[1..][|w[1..]| - 1] == w[|w| - 1];
      if j == 0 {
        MonotoneEnds(cost, w[1..], 0);
      } else {
        MonotoneEnds(cost, w[1..], j - 1);
      }
    }
  }

  /** When a goal is popped, it has the highest cost on the frontier, and
      some node of every walk from the start to a goal is on the frontier:
      along a walk whose costs never rise, the goal reached costs no more. */
  lemma GoalIsBest<N(!new)>(candidates: N -> seq<N>, goal: N -> bool, cost: N -> int, start: N,
                            f: Frontier<N>, popped: set<N>, rank: map<N, nat>, counter: nat, cur: N, k: nat)
    requires Searching(candidates, goal, cost, start, f, popped, rank, counter, cur, candidates(cur))
    requires k < |f.todo| && forall i | 0 <= i < |f.todo| :: cost(f.todo[i]) <= cost(f.todo[k])
    ensures forall w | Walk(candidates, goal, cost, w) && w[0] == start && goal(w[|w| - 1]) && Monotone(cost, w) ::
      cost(w[|w| - 1]) <= cost(f.todo[k])
  {
    forall w | Walk(candidates, goal, cost, w) && w[0] == start && goal(w[|w| - 1]) && Monotone(cost, w)
      ensures cost(w[|w| - 1]) <= cost(f.todo[k])
    {
      OnFrontier(candidates, goal, cost, start, f, popped, rank, counter, cur, w);
      var j :| 0 <= j < |w| && w[j] in f.todo;
      MonotoneEnds(cost, w, j);
    }
  }

  /** With the frontier empty, no walk from the start reaches a goal. */
  lemma NoGoalLeft<N(!new)>(candidates: N -> seq<N>, goal: N -> bool, cost: N -> int, start: N,
                            f: Frontier<N>, popped: set<N>, rank: map<N, nat>, counter: nat, cur: N)
    requires Searching(candidates, goal, cost, start, f, popped, rank, counter, cur, candidates(cur))
    requires f.todo == []
    ensures forall w | Walk(candidates, goal, cost, w) && w[0] == start :: !goal(w[|w| - 1])
  {
    forall w | Walk(candidates, goal, cost, w) && w[0] == start
      ensures !goal(w[|w| - 1])
    {
      if goal(w[|w| - 1]) {
        OnFrontier(candidates, goal, cost, start, f, popped, rank, counter, cur, w);
      }
    }
  }

  // ---------------------------------------------------------------- the engine

  /** The engine's own state: the parent links and the frontier. Both
      outlive a call to `Solve`, as the fields of the source's struct do. */
  class A<N(==,!new)> {
    var done: map<N, N>
    var todo: seq<N>

    /** `A::new`: no parents and an empty frontier. */
    constructor ()
      ensures done == map[] && todo == []
    {
      done := map[];
      todo := [];
    }

    /** `solve`: push `start` with best cost 0, then pop a node of highest
        cost until a goal comes off the frontier, pushing every candidate
        that improves on its best cost; the path is read back along the
        parents. An empty frontier is fatal. The search gives up after
        `fuel` pops. */
    method Solve(candidates: N -> seq<N>, start: N, goal: N -> bool, cost: N -> int, fuel: nat)
      returns (r: Outcome<N>)
      requires done == map[] && todo == []
      requires 0 <= cost(start)
      modifies this
      ensures r.Found? ==>
        && Walk(candidates, goal, cost, r.path) && r.path[0] == start && goal(r.path[|r.path| - 1])
        && Chained(done, r.path)
        && (forall w | Walk(candidates, goal, cost, w) && w[0] == start && goal(w[|w| - 1]) && Monotone(cost, w) ::
              cost(w[|w| - 1]) <= cost(r.path[|r.path| - 1]))
      ensures r.Exhausted? ==>
        forall w | Walk(candidates, goal, cost, w) && w[0] == start :: !goal(w[|w| - 1])
    {
      var dist: map<N, int> := map[start := 0];
      todo := [start];
      ghost var popped: set<N> := {};
      ghost var rank: map<N, nat> := map[start := 0];
      ghost var counter: nat := 1;
      ghost var cur := start;
      var steps := fuel;
      while todo != []
        invariant Searching(candidates, goal, cost, start, Frontier(todo, dist, done), popped, rank, counter, cur, candidates(cur))
        decreases steps
      {
        if steps == 0 {
          return OutOfFuel;
        }
        steps := steps - 1;
        var k := MaxIndex(todo, cost);
        var n := todo[k];
        if goal(n) {
          GoalIsBest(candidates, goal, cost, start, Frontier(todo, dist, done), popped, rank, counter, cur, k);
          var path := TracePath(start, goal, candidates, cost, dist, rank, counter, n);
          return Found(path);
        }
        PopKeeps(candidates, goal, cost, start, Frontier(todo, dist, done), popped, rank, counter, cur, k);
        todo := Remove(todo, k);
        popped, cur := popped + {n}, n;
        dist, rank, counter := Expand(candidates, goal, cost, start, n, dist, popped, rank, counter);
      }
      NoGoalLeft(candidates, goal, cost, start, Frontier(todo, dist, done), popped, rank, counter, cur);
      return Exhausted;
    }

    /** The loop over the candidates of `n` in `solve`: each one that
        improves on its best cost gets that cost, `n` as its parent, and is
        pushed. */
    method Expand(candidates: N -> seq<N>, ghost goal: N -> bool, cost: N -> int, ghost start: N, n: N,
                  dist: map<N, int>, ghost popped: set<N>, ghost rank: map<N, nat>, ghost counter: nat)
      returns (dist': map<N, int>, ghost rank': map<N, nat>, ghost counter': nat)
      requires Searching(candidates, goal, cost, start, Frontier(todo, dist, done), popped, rank, counter, n, [])
      requires n in popped && !goal(n)
      modifies this
      ensures Frontier(todo, dist', done) == RelaxAll(Frontier(old(todo), dist, old(done)), n, candidates(n), cost)
      ensures Searching(candidates, goal, cost, start, Frontier(todo, dist', done), popped, rank', counter', n, candidates(n))
    {
      ghost var before := Frontier(todo, dist, done);
      var cands := candidates(n);
      dist', rank', counter' := dist, rank, counter;
      for i := 0 to |cands|
        invariant Frontier(todo, dist', done) == RelaxAll(before, n, cands[..i], cost)
        invariant Searching(candidates, goal, cost, start, Frontier(todo, dist', done), popped, rank', counter', n, cands[..i])
      {
        var next := cands[i];
        ghost var g := Frontier(todo, dist', done);
        assert cands[..i + 1] == cands[..i] + [next];
        assert RelaxAll(before, n, cands[..i + 1], cost) == Relax(g, n, next, cost);
        RelaxKeeps(candidates, goal, cost, start, g, popped, rank', counter', n, cands[..i], next);
        var c := cost(next);
        var d := if next in dist' then dist'[next] else Unseen;
        if c < d {
          dist' := dist'[next := c];
          done := done[next := n];
          todo := todo + [next];
          rank', counter' := rank'[next := counter'], counter' + 1;
        } else {
          dist' := dist'[next := d];
        }
        assert Frontier(todo, dist', done) == Relax(g, n, next, cost);
      }
      assert cands[..|cands|] == cands;
    }

    /** The walk back from the goal along `done` until a node without a
        parent, which is the start. The source pushes each parent at the back
        and reverses at the end; the model puts each parent at the front. */
    method TracePath(ghost start: N, ghost goal: N -> bool, ghost candidates: N -> seq<N>, ghost cost: N -> int,
                     ghost dist: map<N, int>, ghost rank: map<N, nat>, ghost counter: nat, n: N)
      returns (path: seq<N>)
      requires Ranked(start, done, rank, counter) && Linked(candidates, goal, done) && Rooted(cost, start, Frontier(todo, dist, done))
      requires n in rank
      ensures Walk(candidates, goal, cost, path) && Chained(done, path)
      ensures path[0] == start && path[|path| - 1] == n
    {
      path := [n];
      var x := n;
      while x in done
        invariant x in rank && |path| > 0 && path[0] == x && path[|path| - 1] == n
        invariant Walk(candidates, goal, cost, path) && Chained(done, path)
        decreases rank[x]
      {
        var previous := done[x];
        PrependParent(candidates, goal, cost, done, path);
        path := [previous] + path;
        x := previous;
      }
    }
  }

  /** A walk along the parent links extends backwards by one parent. */
  lemma PrependParent<N(!new)>(candidates: N -> seq<N>, goal: N -> bool, cost: N -> int, done: map<N, N>, path: seq<N>)
    requires Walk(candidates, goal, cost, path) && Chained(done, path)
    requires path[0] in done && path[0] in candidates(done[path[0]]) && !goal(done[path[0]]) && cost(path[0]) < Unseen
    ensures Walk(candidates, goal, cost, [done[path[0]]] + path) && Chained(done, [done[path[0]]] + path)
  {
    var longer := [done[path[0]]] + path;
    assert longer[1..] == path;
  }
}
