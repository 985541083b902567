/** Day 20, "Grove Positioning System": the ring buffer the encrypted file
    is mixed in (`20/src/rb.rs`) and the mixing itself (`20/src/lib.rs`).
    `usize`/`isize` arithmetic is unbounded here; the `i32` values come
    from `str::parse`. */
module Day20 {
  import opened Wrappers
  import opened Text
  import opened Ints

  // ---------------------------------------------------------------- index arithmetic

  /** `RingBuffer::idx`: an index taken modulo the buffer's size. Rust's `%`
      keeps the dividend's sign, so a negative index counts back from
      `freq`. */
  function Idx(freq: nat, x: int): (r: nat)
    requires freq >= 1
    ensures r <= freq
    ensures x >= 0 ==> r == x % freq
    ensures x < 0 ==> r == freq - Abs(x) % freq
  {
    var modulo := TruncRem(x, freq);
    if x >= 0 then modulo else freq + modulo
  }

  /** `RingBuffer::idxmod`: the same over the `freq - 1` places left once
      the moving element is out. A negative multiple of `freq - 1` gives
      `freq - 1`, the end of the shortened buffer, never more. */
  function IdxMod(freq: nat, x: int): (r: nat)
    requires freq >= 2
    ensures r <= freq - 1
    ensures x >= 0 ==> r == x % (freq - 1)
    ensures x < 0 ==> r == (freq - 1) - Abs(x) % (freq - 1)
  {
    var f := freq - 1;
    var modulo := TruncRem(x, f);
    if x >= 0 then modulo else f + modulo
  }

  // ---------------------------------------------------------------- shifting

  /** What `RingBuffer::shift` leaves in the buffer: the element at
      `idx(index)` is taken out and put back at `idxmod(index + amount)`;
      a zero amount leaves everything in place. */
  function Shifted<T>(s: seq<T>, index: nat, amount: int): (r: seq<T>)
    requires amount == 0 || |s| >= 2
    ensures |r| == |s|
    ensures amount == 0 ==> r == s
  {
    if amount == 0 then s
    else
      var k := Idx(|s|, index);
      var x := s[k];
      var rest := s[..k] + s[k + 1..];
      var j := IdxMod(|s|, index + amount);
      rest[..j] + [x] + rest[j..]
  }

  /** Shifting only reorders the buffer. */
  lemma ShiftedPermutes<T>(s: seq<T>, index: nat, amount: int)
    requires amount == 0 || |s| >= 2
    ensures multiset(Shifted(s, index, amount)) == multiset(s)
  {
    if amount != 0 {
      MoveKeepsElements(s, Idx(|s|, index), IdxMod(|s|, index + amount));
    }
  }

  lemma MoveKeepsElements<T>(s: seq<T>, k: nat, j: nat)
    requires k < |s| && j < |s|
    ensures var rest := s[..k] + s[k + 1..];
      multiset(rest[..j] + [s[k]] + rest[j..]) == multiset(s)
  {
    var rest := s[..k] + s[k + 1..];
    assert s == s[..k] + [s[k]] + s[k + 1..];
    assert multiset(s) == multiset(s[..k]) + multiset([s[k]]) + multiset(s[k + 1..]);
    assert multiset(rest) == multiset(s[..k]) + multiset(s[k + 1..]);
    assert rest == rest[..j] + rest[j..];
    assert multiset(rest) == multiset(rest[..j]) + multiset(rest[j..]);
    assert multiset(rest[..j] + [s[k]] + rest[j..]) == multiset(rest[..j]) + multiset([s[k]]) + multiset(rest[j..]);
    assert multiset(rest) + multiset([s[k]]) == multiset(s);
  }

  /** The moved element lands at `idxmod(index + amount)`, and the others
      keep their relative order. */
  lemma ShiftedMoves<T>(s: seq<T>, index: nat, amount: int)
    requires amount != 0 && |s| >= 2
    ensures var r, k, j := Shifted(s, index, amount), index % |s|, IdxMod(|s|, index + amount);
      r[j] == s[k] && r[..j] + r[j + 1..] == s[..k] + s[k + 1..]
  {
    var k, j := Idx(|s|, index), IdxMod(|s|, index + amount);
    assert k == index % |s|;
    InsertedAt(s[..k] + s[k + 1..], j, s[k]);
  }

  /** Putting `x` back at `j` leaves it there and the rest around it. */
  lemma InsertedAt<T>(rest: seq<T>, j: nat, x: T)
    requires j <= |rest|
    ensures var r := rest[..j] + [x] + rest[j..];
      r[j] == x && r[..j] + r[j + 1..] == rest
  {
    var r := rest[..j] + [x] + rest[j..];
    assert r[..j] == rest[..j] && r[j + 1..] == rest[j..];
  }

  /** Moving by a positive amount only depends on it modulo `|s| - 1`:
      whole turns around the shortened buffer change nothing. */
  lemma ShiftedPeriodic<T>(s: seq<T>, index: nat, a: nat, b: nat)
    requires a != 0 && b != 0 && |s| >= 2
    requires a % (|s| - 1) == b % (|s| - 1)
    ensures Shifted(s, index, a) == Shifted(s, index, b)
  {
    var f, r := |s| - 1, a % (|s| - 1);
    ModAddMod(a, index, f, r, index + a);
    ModAddMod(b, index, f, r, index + b);
    SameTarget(s, index, a, b);
  }

  lemma SameTarget<T>(s: seq<T>, index: nat, a: int, b: int)
    requires a != 0 && b != 0 && |s| >= 2
    requires IdxMod(|s|, index + a) == IdxMod(|s|, index + b)
    ensures Shifted(s, index, a) == Shifted(s, index, b)
  {
  }

  /** `RingBuffer<T>`: a `VecDeque` and the modulus `freq` its indices
      are taken by, which is its length. */
  class RingBuffer<T> {
    var freq: nat
    var buf: seq<T>

    ghost predicate Valid()
      reads this
    {
      freq == |buf|
    }

    /** `FromIterator::from_iter`: `freq` is the element count. */
    constructor FromIter(items: seq<T>)
      ensures Valid() && buf == items
    {
      freq := |items|;
      buf := items;
    }

    /** `Index::index`: indices wrap around. */
    function Get(index: nat): (r: T)
      reads this
      requires Valid() && freq >= 1
      ensures r == buf[index % freq]
    {
      buf[Idx(freq, index)]
    }

    /** `RingBuffer::shift`. Taking `idxmod` panics on a one-element buffer
        unless the amount is zero. */
    method Shift(index: nat, amount: int)
      requires Valid() && (amount == 0 || freq >= 2)
      modifies this
      ensures Valid() && buf == Shifted(old(buf), index, amount)
    {
      if amount == 0 {
        return;
      }
      var x := buf[Idx(freq, index)];
      buf := buf[..Idx(freq, index)] + buf[Idx(freq, index) + 1..];
      var newIdx := IdxMod(freq, index + amount);
      // `idxmod` never exceeds the shortened length, so the source's
      // `push_back` branch is never taken.
      buf := buf[..newIdx] + [x] + buf[newIdx..];
    }
  }

  // ---------------------------------------------------------------- mixing

  /** An element of the buffer: its place in the original file and its value. */
  type Tagged = (nat, int)

  /** `into_iter().enumerate()`. */
  function Enumerate(xs: seq<int>): (r: seq<Tagged>)
    ensures |r| == |xs|
    ensures forall i | 0 <= i < |xs| :: r[i] == (i, xs[i])
  {
    seq(|xs|, i requires 0 <= i < |xs| => (i, xs[i]))
  }

  /** `position(|(i, _)| *i == tag)`: the first element carrying `tag`. */
  function TagPosition(buf: seq<Tagged>, tag: nat): (p: nat)
    requires exists j | 0 <= j < |buf| :: buf[j].0 == tag
    ensures p < |buf| && buf[p].0 == tag
    ensures forall j | 0 <= j < p :: buf[j].0 != tag
  {
    if buf[0].0 == tag then 0
    else
      var j :| 0 <= j < |buf| && buf[j].0 == tag;
      assert buf[1..][j - 1].0 == tag;
      1 + TagPosition(buf[1..], tag)
  }

  /** Mixing a one-number file panics (a modulus by `freq - 1 == 0`)
      unless that number is zero. */
  predicate Mixable(original: seq<int>)
  {
    |original| != 1 || original[0] == 0
  }

  /** Some element of the buffer carries `tag`. */
  predicate HasTag(buf: seq<Tagged>, tag: nat)
  {
    exists j | 0 <= j < |buf| :: buf[j].0 == tag
  }

  /** One step of `mix_step`: the element tagged `step` moves by its value.
      A buffer without that tag is never reached (`MixingHasTags`); the
      source's `unwrap` would panic on one, and here it is left as it is. */
  function MixStepOf(buf: seq<Tagged>, original: seq<int>, step: nat): (r: seq<Tagged>)
    requires step < |original| && Mixable(original) && |buf| == |original|
    ensures |r| == |buf|
  {
    if HasTag(buf, step) then Shifted(buf, TagPosition(buf, step), original[step]) else buf
  }

  /** The buffer after the first `n` steps of mixing. */
  function Mixing(original: seq<int>, n: nat): (r: seq<Tagged>)
    requires n <= |original| && (n == 0 || Mixable(original))
    ensures |r| == |original|
  {
    if n == 0 then Enumerate(original)
    else MixStepOf(Mixing(original, n - 1), original, n - 1)
  }

  /** Mixing never loses or duplicates an element: the buffer is always a
      permutation of the enumerated file. */
  lemma {:induction false} MixingPermutes(original: seq<int>, n: nat)
    requires n <= |original| && (n == 0 || Mixable(original))
    ensures multiset(Mixing(original, n)) == multiset(Enumerate(original))
  {
    if n > 0 {
      MixingPermutes(original, n - 1);
      var before, after := Mixing(original, n - 1), Mixing(original, n);
      if HasTag(before, n - 1) {
        var p := TagPosition(before, n - 1);
        ShiftedPermutes(before, p, original[n - 1]);
        assert after == Shifted(before, p, original[n - 1]);
      } else {
        assert after == before;
      }
    }
  }

  /** Every tag is still in the buffer after any number of steps, so the
      `position` lookup of `mix_step` always finds its element. */
  lemma MixingHasTags(original: seq<int>, n: nat)
    requires n <= |original| && (n == 0 || Mixable(original))
    ensures forall tag | 0 <= tag < |original| :: HasTag(Mixing(original, n), tag)
  {
    var start, mixed := Enumerate(original), Mixing(original, n);
    MixingPermutes(original, n);
    forall tag | 0 <= tag < |original|
      ensures HasTag(mixed, tag)
    {
      assert start[tag] in multiset(mixed);
      var k := Position(mixed, start[tag]);
    }
  }

  /** Where an element that occurs in `xs` sits. */
  function Position<X(==)>(xs: seq<X>, x: X): (i: nat)
    requires x in xs
    ensures i < |xs| && xs[i] == x
  {
    if xs[0] == x then 0 else 1 + Position(xs[1..], x)
  }

  /** `Sequence::values`: the values, in buffer order. */
  function Values(buf: seq<Tagged>): (r: seq<int>)
    ensures |r| == |buf|
    ensures forall i | 0 <= i < |buf| :: r[i] == buf[i].1
  {
    if buf == [] then [] else [buf[0].1] + Values(buf[1..])
  }

  /** The first element whose value is zero. */
  function ZeroPosition(buf: seq<Tagged>): (p: nat)
    requires exists j | 0 <= j < |buf| :: buf[j].1 == 0
    ensures p < |buf| && buf[p].1 == 0
    ensures forall j | 0 <= j < p :: buf[j].1 != 0
  {
    if buf[0].1 == 0 then 0
    else
      var j :| 0 <= j < |buf| && buf[j].1 == 0;
      assert buf[1..][j - 1].1 == 0;
      1 + ZeroPosition(buf[1..])
  }

  /** `Sequence::coords`: the values 1000, 2000 and 3000 places after the
      zero, wrapping around. Without a zero the source's `unwrap` panics. */
  function Coords(buf: seq<Tagged>): (r: (int, int, int))
    requires exists j | 0 <= j < |buf| :: buf[j].1 == 0
    ensures var z := ZeroPosition(buf);
      r == (buf[(z + 1000) % |buf|].1, buf[(z + 2000) % |buf|].1, buf[(z + 3000) % |buf|].1)
  {
    var zero := ZeroPosition(buf);
    (buf[Idx(|buf|, zero + 1000)].1, buf[Idx(|buf|, zero + 2000)].1, buf[Idx(|buf|, zero + 3000)].1)
  }

  /** With a single zero in the file the coordinates only depend on the
      cyclic order: rotating the buffer does not change them. */
  lemma CoordsOfRotation(buf: seq<Tagged>, k: nat)
    requires k < |buf|
    requires exists j | 0 <= j < |buf| :: buf[j].1 == 0
    requires forall j | 0 <= j < |buf| && buf[j].1 == 0 :: j == ZeroPosition(buf)
    ensures exists j | 0 <= j < |buf| :: (buf[k..] + buf[..k])[j].1 == 0
    ensures Coords(buf[k..] + buf[..k]) == Coords(buf)
  {
    var rot, z := buf[k..] + buf[..k], ZeroPosition(buf);
    var z' := RotatedZero(buf, k);
    RotatedCoordinates(buf, k, z, z');
    SameCoords(rot, buf, z', z);
  }

  lemma RotatedCoordinates(buf: seq<Tagged>, k: nat, z: nat, z': nat)
    requires k < |buf| && z < |buf| && z' < |buf| && (z' + k) % |buf| == z
    ensures var rot, n := buf[k..] + buf[..k], |buf|;
      rot[(z' + 1000) % n] == buf[(z + 1000) % n]
      && rot[(z' + 2000) % n] == buf[(z + 2000) % n]
      && rot[(z' + 3000) % n] == buf[(z + 3000) % n]
  {
    RotatedCoordinate(buf, k, z, z', 1000);
    RotatedCoordinate(buf, k, z, z', 2000);
    RotatedCoordinate(buf, k, z, z', 3000);
  }

  /** Where the only zero ends up after rotating by `k`. */
  lemma RotatedZero(buf: seq<Tagged>, k: nat) returns (z': nat)
    requires k < |buf|
    requires exists j | 0 <= j < |buf| :: buf[j].1 == 0
    requires forall j | 0 <= j < |buf| && buf[j].1 == 0 :: j == ZeroPosition(buf)
    ensures z' < |buf| && (z' + k) % |buf| == ZeroPosition(buf)
    ensures (buf[k..] + buf[..k])[z'].1 == 0
    ensures ZeroPosition(buf[k..] + buf[..k]) == z'
  {
    var n, z := |buf|, ZeroPosition(buf);
    var rot := buf[k..] + buf[..k];
    z' := if z >= k then z - k else z - k + n;
    assert (z' + k) % n == z by {
      if z < k {
        assert z' + k == n * 1 + z;
        ModUnique(z' + k, n, 1, z);
      } else {
        ModUnique(z' + k, n, 0, z);
      }
    }
    assert rot[z'].1 == 0 by { RotatedIndex(buf, k, z'); }
    var p := ZeroPosition(rot);
    RotatedIndex(buf, k, p);
    RotationInjective(n, k, p, z');
  }

  lemma SameCoords(a: seq<Tagged>, b: seq<Tagged>, za: nat, zb: nat)
    requires |a| == |b| && za < |a| && zb < |b| && a[za].1 == 0 && b[zb].1 == 0
    requires za == ZeroPosition(a) && zb == ZeroPosition(b)
    requires a[(za + 1000) % |a|] == b[(zb + 1000) % |b|]
    requires a[(za + 2000) % |a|] == b[(zb + 2000) % |b|]
    requires a[(za + 3000) % |a|] == b[(zb + 3000) % |b|]
    ensures Coords(a) == Coords(b)
  {
    var i1, i2, i3 := (za + 1000) % |a|, (za + 2000) % |a|, (za + 3000) % |a|;
    assert Coords(a) == (a[i1].1, a[i2].1, a[i3].1);
  }

  lemma RotatedIndex(buf: seq<Tagged>, k: nat, j: nat)
    requires k < |buf| && j < |buf|
    ensures (buf[k..] + buf[..k])[j] == buf[(j + k) % |buf|]
  {
    if j + k >= |buf| {
      ModUnique(j + k, |buf|, 1, j + k - |buf|);
    } else {
      ModUnique(j + k, |buf|, 0, j + k);
    }
  }

  lemma RotationInjective(n: nat, k: nat, p: nat, q: nat)
    requires k < n && p < n && q < n && (p + k) % n == (q + k) % n
    ensures p == q
  {
    if p + k >= n {
      ModUnique(p + k, n, 1, p + k - n);
    } else {
      ModUnique(p + k, n, 0, p + k);
    }
    if q + k >= n {
      ModUnique(q + k, n, 1, q + k - n);
    } else {
      ModUnique(q + k, n, 0, q + k);
    }
  }

  lemma RotatedCoordinate(buf: seq<Tagged>, k: nat, z: nat, z': nat, d: nat)
    requires k < |buf| && z < |buf| && z' < |buf| && (z' + k) % |buf| == z
    ensures (buf[k..] + buf[..k])[(z' + d) % |buf|] == buf[(z + d) % |buf|]
  {
    RotatedOffset(|buf|, k, z, z', d);
    RotatedIndex(buf, k, (z' + d) % |buf|);
  }

  lemma RotatedOffset(n: nat, k: nat, z: nat, z': nat, d: nat)
    requires k < n && (z' + k) % n == z
    ensures ((z' + d) % n + k) % n == (z + d) % n
  {
    var sum := z' + k + d;
    ModAddMod(z' + d, k, n, (z' + d) % n, sum);
    ModAddMod(z' + k, d, n, z, sum);
  }

  // ---------------------------------------------------------------- the file

  /** `Sequence`: the original numbers, the ring buffer of (position,
      value) pairs being mixed, and the next position to move. */
  class Sequence {
    const original: seq<int>
    const sequence: RingBuffer<Tagged>
    var step: nat

    /** The buffer is always exactly `step` mixing steps in. */
    ghost predicate Valid()
      reads this, sequence
    {
      sequence.Valid() && step <= |original| && (step == 0 || Mixable(original))
      && sequence.buf == Mixing(original, step)
    }

    /** `FromIterator<i32>::from_iter`. */
    constructor FromIter(items: seq<int>)
      ensures Valid() && original == items && step == 0 && fresh(sequence)
    {
      original := items;
      sequence := new RingBuffer.FromIter(Enumerate(items));
      step := 0;
    }

    /** `Sequence::mix_step`: true, changing nothing, once every element
        has moved; otherwise the element tagged `step` moves by its value. */
    method MixStep() returns (done: bool)
      requires Valid() && Mixable(original)
      modifies this, sequence
      ensures Valid()
      ensures done <==> old(step) == |original|
      ensures step == if done then old(step) else old(step) + 1
    {
      if step >= |original| {
        return true;
      }
      MixingHasTags(original, step);
      assert HasTag(sequence.buf, step);
      var x := TagPosition(sequence.buf, step);
      sequence.Shift(x, original[step]);
      step := step + 1;
      return false;
    }

    /** `Sequence::mix`: steps until `mix_step` reports it is done. */
    method Mix()
      requires Valid() && Mixable(original)
      modifies this, sequence
      ensures Valid() && step == |original|
    {
      while true
        invariant Valid()
        decreases |original| - step
      {
        var done := MixStep();
        if done {
          return;
        }
      }
    }
  }

  /** `Sequence::from_str`: one `i32` per line; the error is the message
      of the `ParseIntError` of the first bad line. */
  function ParseNumbers(lines: seq<String>): (r: Result<seq<int>, String>)
    ensures r.Ok? <==> forall i | 0 <= i < |lines| :: ParseSigned(lines[i], I32_MIN, I32_MAX).Some?
    ensures r.Ok? ==> (|r.value| == |lines|
      && forall i | 0 <= i < |lines| :: Some(r.value[i]) == ParseSigned(lines[i], I32_MIN, I32_MAX))
    ensures r.Err? ==> exists i | 0 <= i < |lines| ::
      ParseSigned(lines[i], I32_MIN, I32_MAX).None?
      && (forall j | 0 <= j < i :: ParseSigned(lines[j], I32_MIN, I32_MAX).Some?)
      && r.error == IntErrorText(lines[i], I32_MIN, I32_MAX)
  {
    if lines == [] then Ok([])
    else
      match ParseSigned(lines[0], I32_MIN, I32_MAX)
      case None => Err(IntErrorText(lines[0], I32_MIN, I32_MAX))
      case Some(v) =>
        var rest :- ParseNumbers(lines[1..]);
        assert forall i | 1 <= i < |lines| :: lines[1..][i - 1] == lines[i];
        Ok([v] + rest)
  }

  method FromStr(s: String) returns (r: Result<Sequence, String>)
    ensures r.Ok? <==> ParseNumbers(Lines(s)).Ok?
    ensures r.Err? ==> r.error == ParseNumbers(Lines(s)).error
    ensures r.Ok? ==> (fresh(r.value) && r.value.Valid() && r.value.step == 0
      && r.value.original == ParseNumbers(Lines(s)).value)
  {
    var numbers := ParseNumbers(Lines(s));
    if numbers.Err? {
      return Err(numbers.error);
    }
    var sequence := new Sequence.FromIter(numbers.value);
    return Ok(sequence);
  }
}

/** The expectations of `20/src/rb.rs` and `20/src/lib.rs`'s tests. The
    sample file is the puzzle's published one, `1, 2, -3, 3, -2, 0, 4`. */
module Day20Examples {
  import opened Day20

  lemma IndexingOverFreqWrapsAround(s: seq<int>)
    requires s == [1, 2, 3, 4]
    ensures s[Idx(|s|, 4)] == 1 && s[Idx(|s|, 21)] == 2
  {
  }

/** `shift` through the index arithmetic, for a concrete buffer. */
  lemma ShiftCase<T>(s: seq<T>, index: nat, amount: int, k: nat, j: nat, expected: seq<T>)
    requires amount != 0 && |s| >= 2
    requires k == Idx(|s|, index) && j == IdxMod(|s|, index + amount)
    requires expected == (s[..k] + s[k + 1..])[..j] + [s[k]] + (s[..k] + s[k + 1..])[j..]
    ensures Shifted(s, index, amount) == expected
  {
  }

  lemma ShiftingOnePlaceRight()
    ensures Shifted([1, 2, 3], 0, 1) == [2, 1, 3]
  {
    ShiftCase([1, 2, 3], 0, 1, 0, 1, [2, 1, 3]);
  }

  lemma ShiftingOnePlaceLeft()
    ensures Shifted([1, 2, 3], 2, -1) == [1, 3, 2]
  {
    ShiftCase([1, 2, 3], 2, -1, 2, 1, [1, 3, 2]);
  }

  lemma ShiftingMultiplePlacesRight()
    ensures Shifted([1, 2, 3, 4, 5], 1, 3) == [2, 1, 3, 4, 5]
  {
    ShiftCase([1, 2, 3, 4, 5], 1, 3, 1, 0, [2, 1, 3, 4, 5]);
  }

  lemma ShiftingMultiplePlacesLeft()
    ensures Shifted([1, 2, 3, 4, 5], 3, -2) == [1, 4, 2, 3, 5]
  {
    ShiftCase([1, 2, 3, 4, 5], 3, -2, 3, 1, [1, 4, 2, 3, 5]);
  }

  lemma ShiftingRightWithOverflow()
    ensures Shifted([1, 2, 3, 4, 5], 2, 3) == [1, 3, 2, 4, 5]
  {
    ShiftCase([1, 2, 3, 4, 5], 2, 3, 2, 1, [1, 3, 2, 4, 5]);
  }

  lemma ShiftingRightWithUnderflow()
    ensures Shifted([1, 2, 3, 4, 5], 2, -3) == [1, 2, 4, 3, 5]
  {
    ShiftCase([1, 2, 3, 4, 5], 2, -3, 2, 3, [1, 2, 4, 3, 5]);
  }

  lemma ShiftingAtBoundary()
    ensures Shifted([1, 2, 3, 4, 5], 2, -6) == [1, 2, 4, 5, 3]
  {
    ShiftCase([1, 2, 3, 4, 5], 2, -6, 2, 4, [1, 2, 4, 5, 3]);
  }

  /** `position` on a concrete buffer. */
  lemma TagPositionCase(buf: seq<Tagged>, tag: nat, p: nat)
    requires p < |buf| && buf[p].0 == tag && forall i | 0 <= i < p :: buf[i].0 != tag
    ensures TagPosition(buf, tag) == p
  {
  }

  /** One more mixing step, for a concrete buffer: `p` is where the tag
      `n` sits. */
  lemma MixingStep(original: seq<int>, n: nat, before: seq<Tagged>, p: nat, after: seq<Tagged>)
    requires n < |original| && Mixable(original)
    requires Mixing(original, n) == before
    requires p < |before| && before[p].0 == n && TagPosition(before, n) == p
    requires Shifted(before, p, original[n]) == after
    ensures Mixing(original, n + 1) == after
  {
  }

  lemma SampleStart(original: seq<int>, before: seq<Tagged>)
    requires original == [1, 2, -3, 3, -2, 0, 4]
    requires before == [(0, 1), (1, 2), (2, -3), (3, 3), (4, -2), (5, 0), (6, 4)]
    ensures Enumerate(original) == before
  {
  }

  lemma SampleMove1(before: seq<Tagged>, after: seq<Tagged>)
    requires before == [(0, 1), (1, 2), (2, -3), (3, 3), (4, -2), (5, 0), (6, 4)]
    requires after == [(1, 2), (0, 1), (2, -3), (3, 3), (4, -2), (5, 0), (6, 4)]
    ensures before[0].0 == 0 && TagPosition(before, 0) == 0 && Shifted(before, 0, 1) == after
  {
    TagPositionCase(before, 0, 0);
    ShiftCase(before, 0, 1, 0, 1, after);
  }

  lemma SampleStep1(original: seq<int>, n: nat, before: seq<Tagged>, after: seq<Tagged>)
    requires original == [1, 2, -3, 3, -2, 0, 4] && n == 1
    requires before == [(0, 1), (1, 2), (2, -3), (3, 3), (4, -2), (5, 0), (6, 4)]
    requires after == [(1, 2), (0, 1), (2, -3), (3, 3), (4, -2), (5, 0), (6, 4)]
    ensures Mixing(original, n) == after
  {
    SampleMove1(before, after);
    SampleStart(original, before);
    MixingStep(original, n - 1, before, 0, after);
  }

  lemma SampleValues1(buf: seq<Tagged>)
    requires buf == [(1, 2), (0, 1), (2, -3), (3, 3), (4, -2), (5, 0), (6, 4)]
    ensures Values(buf) == [2, 1, -3, 3, -2, 0, 4]
  {
  }

  /** `sample_mix_step1`. */
  lemma SampleMix1(original: seq<int>, n: nat)
    requires original == [1, 2, -3, 3, -2, 0, 4] && n == 1
    ensures Values(Mixing(original, n)) == [2, 1, -3, 3, -2, 0, 4]
  {
    SampleStep1(original, n, [(0, 1), (1, 2), (2, -3), (3, 3), (4, -2), (5, 0), (6, 4)], [(1, 2), (0, 1), (2, -3), (3, 3), (4, -2), (5, 0), (6, 4)]);
    SampleValues1([(1, 2), (0, 1), (2, -3), (3, 3), (4, -2), (5, 0), (6, 4)]);
  }

  lemma SampleMove2(before: seq<Tagged>, after: seq<Tagged>)
    requires before == [(1, 2), (0, 1), (2, -3), (3, 3), (4, -2), (5, 0), (6, 4)]
    requires after == [(0, 1), (2, -3), (1, 2), (3, 3), (4, -2), (5, 0), (6, 4)]
    ensures before[0].0 == 1 && TagPosition(before, 1) == 0 && Shifted(before, 0, 2) == after
  {
    TagPositionCase(before, 1, 0);
    ShiftCase(before, 0, 2, 0, 2, after);
  }

  lemma SampleStep2(original: seq<int>, n: nat, before: seq<Tagged>, after: seq<Tagged>)
    requires original == [1, 2, -3, 3, -2, 0, 4] && n == 2
    requires before == [(1, 2), (0, 1), (2, -3), (3, 3), (4, -2), (5, 0), (6, 4)]
    requires after == [(0, 1), (2, -3), (1, 2), (3, 3), (4, -2), (5, 0), (6, 4)]
    ensures Mixing(original, n) == after
  {
    SampleMove2(before, after);
    SampleStep1(original, n - 1, [(0, 1), (1, 2), (2, -3), (3, 3), (4, -2), (5, 0), (6, 4)], before);
    MixingStep(original, n - 1, before, 0, after);
  }

  lemma SampleValues2(buf: seq<Tagged>)
    requires buf == [(0, 1), (2, -3), (1, 2), (3, 3), (4, -2), (5, 0), (6, 4)]
    ensures Values(buf) == [1, -3, 2, 3, -2, 0, 4]
  {
  }

  /** `sample_mix_step2`. */
  lemma SampleMix2(original: seq<int>, n: nat)
    requires original == [1, 2, -3, 3, -2, 0, 4] && n == 2
    ensures Values(Mixing(original, n)) == [1, -3, 2, 3, -2, 0, 4]
  {
    SampleStep2(original, n, [(1, 2), (0, 1), (2, -3), (3, 3), (4, -2), (5, 0), (6, 4)], [(0, 1), (2, -3), (1, 2), (3, 3), (4, -2), (5, 0), (6, 4)]);
    SampleValues2([(0, 1), (2, -3), (1, 2), (3, 3), (4, -2), (5, 0), (6, 4)]);
  }

  lemma SampleMove3(before: seq<Tagged>, after: seq<Tagged>)
    requires before == [(0, 1), (2, -3), (1, 2), (3, 3), (4, -2), (5, 0), (6, 4)]
    requires after == [(0, 1), (1, 2), (3, 3), (4, -2), (2, -3), (5, 0), (6, 4)]
    ensures before[1].0 == 2 && TagPosition(before, 2) == 1 && Shifted(before, 1, -3) == after
  {
    TagPositionCase(before, 2, 1);
    ShiftCase(before, 1, -3, 1, 4, after);
  }

  lemma SampleStep3(original: seq<int>, n: nat, before: seq<Tagged>, after: seq<Tagged>)
    requires original == [1, 2, -3, 3, -2, 0, 4] && n == 3
    requires before == [(0, 1), (2, -3), (1, 2), (3, 3), (4, -2), (5, 0), (6, 4)]
    requires after == [(0, 1), (1, 2), (3, 3), (4, -2), (2, -3), (5, 0), (6, 4)]
    ensures Mixing(original, n) == after
  {
    SampleMove3(before, after);
    SampleStep2(original, n - 1, [(1, 2), (0, 1), (2, -3), (3, 3), (4, -2), (5, 0), (6, 4)], before);
    MixingStep(original, n - 1, before, 1, after);
  }

  lemma SampleValues3(buf: seq<Tagged>)
    requires buf == [(0, 1), (1, 2), (3, 3), (4, -2), (2, -3), (5, 0), (6, 4)]
    ensures Values(buf) == [1, 2, 3, -2, -3, 0, 4]
  {
  }

  /** `sample_mix_step3`. */
  lemma SampleMix3(original: seq<int>, n: nat)
    requires original == [1, 2, -3, 3, -2, 0, 4] && n == 3
    ensures Values(Mixing(original, n)) == [1, 2, 3, -2, -3, 0, 4]
  {
    SampleStep3(original, n, [(0, 1), (2, -3), (1, 2), (3, 3), (4, -2), (5, 0), (6, 4)], [(0, 1), (1, 2), (3, 3), (4, -2), (2, -3), (5, 0), (6, 4)]);
    SampleValues3([(0, 1), (1, 2), (3, 3), (4, -2), (2, -3), (5, 0), (6, 4)]);
  }

  lemma SampleMove4(before: seq<Tagged>, after: seq<Tagged>)
    requires before == [(0, 1), (1, 2), (3, 3), (4, -2), (2, -3), (5, 0), (6, 4)]
    requires after == [(0, 1), (1, 2), (4, -2), (2, -3), (5, 0), (3, 3), (6, 4)]
    ensures before[2].0 == 3 && TagPosition(before, 3) == 2 && Shifted(before, 2, 3) == after
  {
    TagPositionCase(before, 3, 2);
    ShiftCase(before, 2, 3, 2, 5, after);
  }

  lemma SampleStep4(original: seq<int>, n: nat, before: seq<Tagged>, after: seq<Tagged>)
    requires original == [1, 2, -3, 3, -2, 0, 4] && n == 4
    requires before == [(0, 1), (1, 2), (3, 3), (4, -2), (2, -3), (5, 0), (6, 4)]
    requires after == [(0, 1), (1, 2), (4, -2), (2, -3), (5, 0), (3, 3), (6, 4)]
    ensures Mixing(original, n) == after
  {
    SampleMove4(before, after);
    SampleStep3(original, n - 1, [(0, 1), (2, -3), (1, 2), (3, 3), (4, -2), (5, 0), (6, 4)], before);
    MixingStep(original, n - 1, before, 2, after);
  }

  lemma SampleValues4(buf: seq<Tagged>)
    requires buf == [(0, 1), (1, 2), (4, -2), (2, -3), (5, 0), (3, 3), (6, 4)]
    ensures Values(buf) == [1, 2, -2, -3, 0, 3, 4]
  {
  }

  /** `sample_mix_step4`. */
  lemma SampleMix4(original: seq<int>, n: nat)
    requires original == [1, 2, -3, 3, -2, 0, 4] && n == 4
    ensures Values(Mixing(original, n)) == [1, 2, -2, -3, 0, 3, 4]
  {
    SampleStep4(original, n, [(0, 1), (1, 2), (3, 3), (4, -2), (2, -3), (5, 0), (6, 4)], [(0, 1), (1, 2), (4, -2), (2, -3), (5, 0), (3, 3), (6, 4)]);
    SampleValues4([(0, 1), (1, 2), (4, -2), (2, -3), (5, 0), (3, 3), (6, 4)]);
  }

  lemma SampleMove5(before: seq<Tagged>, after: seq<Tagged>)
    requires before == [(0, 1), (1, 2), (4, -2), (2, -3), (5, 0), (3, 3), (6, 4)]
    requires after == [(4, -2), (0, 1), (1, 2), (2, -3), (5, 0), (3, 3), (6, 4)]
    ensures before[2].0 == 4 && TagPosition(before, 4) == 2 && Shifted(before, 2, -2) == after
  {
    TagPositionCase(before, 4, 2);
    ShiftCase(before, 2, -2, 2, 0, after);
  }

  lemma SampleStep5(original: seq<int>, n: nat, before: seq<Tagged>, after: seq<Tagged>)
    requires original == [1, 2, -3, 3, -2, 0, 4] && n == 5
    requires before == [(0, 1), (1, 2), (4, -2), (2, -3), (5, 0), (3, 3), (6, 4)]
    requires after == [(4, -2), (0, 1), (1, 2), (2, -3), (5, 0), (3, 3), (6, 4)]
    ensures Mixing(original, n) == after
  {
    SampleMove5(before, after);
    SampleStep4(original, n - 1, [(0, 1), (1, 2), (3, 3), (4, -2), (2, -3), (5, 0), (6, 4)], before);
    MixingStep(original, n - 1, before, 2, after);
  }

  lemma SampleValues5(buf: seq<Tagged>)
    requires buf == [(4, -2), (0, 1), (1, 2), (2, -3), (5, 0), (3, 3), (6, 4)]
    ensures Values(buf) == [-2, 1, 2, -3, 0, 3, 4]
  {
  }

  /** `sample_mix_step5`. */
  lemma SampleMix5(original: seq<int>, n: nat)
    requires original == [1, 2, -3, 3, -2, 0, 4] && n == 5
    ensures Values(Mixing(original, n)) == [-2, 1, 2, -3, 0, 3, 4]
  {
    SampleStep5(original, n, [(0, 1), (1, 2), (4, -2), (2, -3), (5, 0), (3, 3), (6, 4)], [(4, -2), (0, 1), (1, 2), (2, -3), (5, 0), (3, 3), (6, 4)]);
    SampleValues5([(4, -2), (0, 1), (1, 2), (2, -3), (5, 0), (3, 3), (6, 4)]);
  }

  lemma SampleMove6(before: seq<Tagged>, after: seq<Tagged>)
    requires before == [(4, -2), (0, 1), (1, 2), (2, -3), (5, 0), (3, 3), (6, 4)]
    requires after == [(4, -2), (0, 1), (1, 2), (2, -3), (5, 0), (3, 3), (6, 4)]
    ensures before[4].0 == 5 && TagPosition(before, 5) == 4 && Shifted(before, 4, 0) == after
  {
    TagPositionCase(before, 5, 4);
  }

  lemma SampleStep6(original: seq<int>, n: nat, before: seq<Tagged>, after: seq<Tagged>)
    requires original == [1, 2, -3, 3, -2, 0, 4] && n == 6
    requires before == [(4, -2), (0, 1), (1, 2), (2, -3), (5, 0), (3, 3), (6, 4)]
    requires after == [(4, -2), (0, 1), (1, 2), (2, -3), (5, 0), (3, 3), (6, 4)]
    ensures Mixing(original, n) == after
  {
    SampleMove6(before, after);
    SampleStep5(original, n - 1, [(0, 1), (1, 2), (4, -2), (2, -3), (5, 0), (3, 3), (6, 4)], before);
    MixingStep(original, n - 1, before, 4, after);
  }

  lemma SampleValues6(buf: seq<Tagged>)
    requires buf == [(4, -2), (0, 1), (1, 2), (2, -3), (5, 0), (3, 3), (6, 4)]
    ensures Values(buf) == [-2, 1, 2, -3, 0, 3, 4]
  {
  }

  /** `sample_mix_step6`. */
  lemma SampleMix6(original: seq<int>, n: nat)
    requires original == [1, 2, -3, 3, -2, 0, 4] && n == 6
    ensures Values(Mixing(original, n)) == [-2, 1, 2, -3, 0, 3, 4]
  {
    SampleStep6(original, n, [(4, -2), (0, 1), (1, 2), (2, -3), (5, 0), (3, 3), (6, 4)], [(4, -2), (0, 1), (1, 2), (2, -3), (5, 0), (3, 3), (6, 4)]);
    SampleValues6([(4, -2), (0, 1), (1, 2), (2, -3), (5, 0), (3, 3), (6, 4)]);
  }

  lemma SampleMove7(before: seq<Tagged>, after: seq<Tagged>)
    requires before == [(4, -2), (0, 1), (1, 2), (2, -3), (5, 0), (3, 3), (6, 4)]
    requires after == [(4, -2), (0, 1), (1, 2), (2, -3), (6, 4), (5, 0), (3, 3)]
    ensures before[6].0 == 6 && TagPosition(before, 6) == 6 && Shifted(before, 6, 4) == after
  {
    TagPositionCase(before, 6, 6);
    ShiftCase(before, 6, 4, 6, 4, after);
  }

  lemma SampleStep7(original: seq<int>, n: nat, before: seq<Tagged>, after: seq<Tagged>)
    requires original == [1, 2, -3, 3, -2, 0, 4] && n == 7
    requires before == [(4, -2), (0, 1), (1, 2), (2, -3), (5, 0), (3, 3), (6, 4)]
    requires after == [(4, -2), (0, 1), (1, 2), (2, -3), (6, 4), (5, 0), (3, 3)]
    ensures Mixing(original, n) == after
  {
    SampleMove7(before, after);
    SampleStep6(original, n - 1, [(4, -2), (0, 1), (1, 2), (2, -3), (5, 0), (3, 3), (6, 4)], before);
    MixingStep(original, n - 1, before, 6, after);
  }

  lemma SampleValues7(buf: seq<Tagged>)
    requires buf == [(4, -2), (0, 1), (1, 2), (2, -3), (6, 4), (5, 0), (3, 3)]
    ensures Values(buf) == [-2, 1, 2, -3, 4, 0, 3]
  {
  }

  /** `sample_mix_step7`. */
  lemma SampleMix7(original: seq<int>, n: nat)
    requires original == [1, 2, -3, 3, -2, 0, 4] && n == 7
    ensures Values(Mixing(original, n)) == [-2, 1, 2, -3, 4, 0, 3]
  {
    SampleStep7(original, n, [(4, -2), (0, 1), (1, 2), (2, -3), (5, 0), (3, 3), (6, 4)], [(4, -2), (0, 1), (1, 2), (2, -3), (6, 4), (5, 0), (3, 3)]);
    SampleValues7([(4, -2), (0, 1), (1, 2), (2, -3), (6, 4), (5, 0), (3, 3)]);
  }

  lemma DuplicateStart(original: seq<int>, before: seq<Tagged>)
    requires original == [3, 2, 1, 0, 1, 2, 3]
    requires before == [(0, 3), (1, 2), (2, 1), (3, 0), (4, 1), (5, 2), (6, 3)]
    ensures Enumerate(original) == before
  {
  }

  lemma DuplicateMove1(before: seq<Tagged>, after: seq<Tagged>)
    requires before == [(0, 3), (1, 2), (2, 1), (3, 0), (4, 1), (5, 2), (6, 3)]
    requires after == [(1, 2), (2, 1), (3, 0), (0, 3), (4, 1), (5, 2), (6, 3)]
    ensures before[0].0 == 0 && TagPosition(before, 0) == 0 && Shifted(before, 0, 3) == after
  {
    TagPositionCase(before, 0, 0);
    ShiftCase(before, 0, 3, 0, 3, after);
  }

  lemma DuplicateStep1(original: seq<int>, n: nat, before: seq<Tagged>, after: seq<Tagged>)
    requires original == [3, 2, 1, 0, 1, 2, 3] && n == 1
    requires before == [(0, 3), (1, 2), (2, 1), (3, 0), (4, 1), (5, 2), (6, 3)]
    requires after == [(1, 2), (2, 1), (3, 0), (0, 3), (4, 1), (5, 2), (6, 3)]
    ensures Mixing(original, n) == after
  {
    DuplicateMove1(before, after);
    DuplicateStart(original, before);
    MixingStep(original, n - 1, before, 0, after);
  }

  lemma DuplicateValues1(buf: seq<Tagged>)
    requires buf == [(1, 2), (2, 1), (3, 0), (0, 3), (4, 1), (5, 2), (6, 3)]
    ensures Values(buf) == [2, 1, 0, 3, 1, 2, 3]
  {
  }

  /** `duplicate_values`, after step 1. */
  lemma DuplicateMix1(original: seq<int>, n: nat)
    requires original == [3, 2, 1, 0, 1, 2, 3] && n == 1
    ensures Values(Mixing(original, n)) == [2, 1, 0, 3, 1, 2, 3]
  {
    DuplicateStep1(original, n, [(0, 3), (1, 2), (2, 1), (3, 0), (4, 1), (5, 2), (6, 3)], [(1, 2), (2, 1), (3, 0), (0, 3), (4, 1), (5, 2), (6, 3)]);
    DuplicateValues1([(1, 2), (2, 1), (3, 0), (0, 3), (4, 1), (5, 2), (6, 3)]);
  }

  lemma DuplicateMove2(before: seq<Tagged>, after: seq<Tagged>)
    requires before == [(1, 2), (2, 1), (3, 0), (0, 3), (4, 1), (5, 2), (6, 3)]
    requires after == [(2, 1), (3, 0), (1, 2), (0, 3), (4, 1), (5, 2), (6, 3)]
    ensures before[0].0 == 1 && TagPosition(before, 1) == 0 && Shifted(before, 0, 2) == after
  {
    TagPositionCase(before, 1, 0);
    ShiftCase(before, 0, 2, 0, 2, after);
  }

  lemma DuplicateStep2(original: seq<int>, n: nat, before: seq<Tagged>, after: seq<Tagged>)
    requires original == [3, 2, 1, 0, 1, 2, 3] && n == 2
    requires before == [(1, 2), (2, 1), (3, 0), (0, 3), (4, 1), (5, 2), (6, 3)]
    requires after == [(2, 1), (3, 0), (1, 2), (0, 3), (4, 1), (5, 2), (6, 3)]
    ensures Mixing(original, n) == after
  {
    DuplicateMove2(before, after);
    DuplicateStep1(original, n - 1, [(0, 3), (1, 2), (2, 1), (3, 0), (4, 1), (5, 2), (6, 3)], before);
    MixingStep(original, n - 1, before, 0, after);
  }

  lemma DuplicateValues2(buf: seq<Tagged>)
    requires buf == [(2, 1), (3, 0), (1, 2), (0, 3), (4, 1), (5, 2), (6, 3)]
    ensures Values(buf) == [1, 0, 2, 3, 1, 2, 3]
  {
  }

  /** `duplicate_values`, after step 2. */
  lemma DuplicateMix2(original: seq<int>, n: nat)
    requires original == [3, 2, 1, 0, 1, 2, 3] && n == 2
    ensures Values(Mixing(original, n)) == [1, 0, 2, 3, 1, 2, 3]
  {
    DuplicateStep2(original, n, [(1, 2), (2, 1), (3, 0), (0, 3), (4, 1), (5, 2), (6, 3)], [(2, 1), (3, 0), (1, 2), (0, 3), (4, 1), (5, 2), (6, 3)]);
    DuplicateValues2([(2, 1), (3, 0), (1, 2), (0, 3), (4, 1), (5, 2), (6, 3)]);
  }

  lemma DuplicateMove3(before: seq<Tagged>, after: seq<Tagged>)
    requires before == [(2, 1), (3, 0), (1, 2), (0, 3), (4, 1), (5, 2), (6, 3)]
    requires after == [(3, 0), (2, 1), (1, 2), (0, 3), (4, 1), (5, 2), (6, 3)]
    ensures before[0].0 == 2 && TagPosition(before, 2) == 0 && Shifted(before, 0, 1) == after
  {
    TagPositionCase(before, 2, 0);
    ShiftCase(before, 0, 1, 0, 1, after);
  }

  lemma DuplicateStep3(original: seq<int>, n: nat, before: seq<Tagged>, after: seq<Tagged>)
    requires original == [3, 2, 1, 0, 1, 2, 3] && n == 3
    requires before == [(2, 1), (3, 0), (1, 2), (0, 3), (4, 1), (5, 2), (6, 3)]
    requires after == [(3, 0), (2, 1), (1, 2), (0, 3), (4, 1), (5, 2), (6, 3)]
    ensures Mixing(original, n) == after
  {
    DuplicateMove3(before, after);
    DuplicateStep2(original, n - 1, [(1, 2), (2, 1), (3, 0), (0, 3), (4, 1), (5, 2), (6, 3)], before);
    MixingStep(original, n - 1, before, 0, after);
  }

  lemma DuplicateValues3(buf: seq<Tagged>)
    requires buf == [(3, 0), (2, 1), (1, 2), (0, 3), (4, 1), (5, 2), (6, 3)]
    ensures Values(buf) == [0, 1, 2, 3, 1, 2, 3]
  {
  }

  /** `duplicate_values`, after step 3. */
  lemma DuplicateMix3(original: seq<int>, n: nat)
    requires original == [3, 2, 1, 0, 1, 2, 3] && n == 3
    ensures Values(Mixing(original, n)) == [0, 1, 2, 3, 1, 2, 3]
  {
    DuplicateStep3(original, n, [(2, 1), (3, 0), (1, 2), (0, 3), (4, 1), (5, 2), (6, 3)], [(3, 0), (2, 1), (1, 2), (0, 3), (4, 1), (5, 2), (6, 3)]);
    DuplicateValues3([(3, 0), (2, 1), (1, 2), (0, 3), (4, 1), (5, 2), (6, 3)]);
  }

  lemma DuplicateMove4(before: seq<Tagged>, after: seq<Tagged>)
    requires before == [(3, 0), (2, 1), (1, 2), (0, 3), (4, 1), (5, 2), (6, 3)]
    requires after == [(3, 0), (2, 1), (1, 2), (0, 3), (4, 1), (5, 2), (6, 3)]
    ensures before[0].0 == 3 && TagPosition(before, 3) == 0 && Shifted(before, 0, 0) == after
  {
    TagPositionCase(before, 3, 0);
  }

  lemma DuplicateStep4(original: seq<int>, n: nat, before: seq<Tagged>, after: seq<Tagged>)
    requires original == [3, 2, 1, 0, 1, 2, 3] && n == 4
    requires before == [(3, 0), (2, 1), (1, 2), (0, 3), (4, 1), (5, 2), (6, 3)]
    requires after == [(3, 0), (2, 1), (1, 2), (0, 3), (4, 1), (5, 2), (6, 3)]
    ensures Mixing(original, n) == after
  {
    DuplicateMove4(before, after);
    DuplicateStep3(original, n - 1, [(2, 1), (3, 0), (1, 2), (0, 3), (4, 1), (5, 2), (6, 3)], before);
    MixingStep(original, n - 1, before, 0, after);
  }

  lemma DuplicateValues4(buf: seq<Tagged>)
    requires buf == [(3, 0), (2, 1), (1, 2), (0, 3), (4, 1), (5, 2), (6, 3)]
    ensures Values(buf) == [0, 1, 2, 3, 1, 2, 3]
  {
  }

  /** `duplicate_values`, after step 4. */
  lemma DuplicateMix4(original: seq<int>, n: nat)
    requires original == [3, 2, 1, 0, 1, 2, 3] && n == 4
    ensures Values(Mixing(original, n)) == [0, 1, 2, 3, 1, 2, 3]
  {
    DuplicateStep4(original, n, [(3, 0), (2, 1), (1, 2), (0, 3), (4, 1), (5, 2), (6, 3)], [(3, 0), (2, 1), (1, 2), (0, 3), (4, 1), (5, 2), (6, 3)]);
    DuplicateValues4([(3, 0), (2, 1), (1, 2), (0, 3), (4, 1), (5, 2), (6, 3)]);
  }

  lemma DuplicateMove5(before: seq<Tagged>, after: seq<Tagged>)
    requires before == [(3, 0), (2, 1), (1, 2), (0, 3), (4, 1), (5, 2), (6, 3)]
    requires after == [(3, 0), (2, 1), (1, 2), (0, 3), (5, 2), (4, 1), (6, 3)]
    ensures before[4].0 == 4 && TagPosition(before, 4) == 4 && Shifted(before, 4, 1) == after
  {
    TagPositionCase(before, 4, 4);
    ShiftCase(before, 4, 1, 4, 5, after);
  }

  lemma DuplicateStep5(original: seq<int>, n: nat, before: seq<Tagged>, after: seq<Tagged>)
    requires original == [3, 2, 1, 0, 1, 2, 3] && n == 5
    requires before == [(3, 0), (2, 1), (1, 2), (0, 3), (4, 1), (5, 2), (6, 3)]
    requires after == [(3, 0), (2, 1), (1, 2), (0, 3), (5, 2), (4, 1), (6, 3)]
    ensures Mixing(original, n) == after
  {
    DuplicateMove5(before, after);
    DuplicateStep4(original, n - 1, [(3, 0), (2, 1), (1, 2), (0, 3), (4, 1), (5, 2), (6, 3)], before);
    MixingStep(original, n - 1, before, 4, after);
  }

  lemma DuplicateValues5(buf: seq<Tagged>)
    requires buf == [(3, 0), (2, 1), (1, 2), (0, 3), (5, 2), (4, 1), (6, 3)]
    ensures Values(buf) == [0, 1, 2, 3, 2, 1, 3]
  {
  }

  /** `duplicate_values`, after step 5. */
  lemma DuplicateMix5(original: seq<int>, n: nat)
    requires original == [3, 2, 1, 0, 1, 2, 3] && n == 5
    ensures Values(Mixing(original, n)) == [0, 1, 2, 3, 2, 1, 3]
  {
    DuplicateStep5(original, n, [(3, 0), (2, 1), (1, 2), (0, 3), (4, 1), (5, 2), (6, 3)], [(3, 0), (2, 1), (1, 2), (0, 3), (5, 2), (4, 1), (6, 3)]);
    DuplicateValues5([(3, 0), (2, 1), (1, 2), (0, 3), (5, 2), (4, 1), (6, 3)]);
  }

  lemma DuplicateMove6(before: seq<Tagged>, after: seq<Tagged>)
    requires before == [(3, 0), (2, 1), (1, 2), (0, 3), (5, 2), (4, 1), (6, 3)]
    requires after == [(5, 2), (3, 0), (2, 1), (1, 2), (0, 3), (4, 1), (6, 3)]
    ensures before[4].0 == 5 && TagPosition(before, 5) == 4 && Shifted(before, 4, 2) == after
  {
    TagPositionCase(before, 5, 4);
    ShiftCase(before, 4, 2, 4, 0, after);
  }

  lemma DuplicateStep6(original: seq<int>, n: nat, before: seq<Tagged>, after: seq<Tagged>)
    requires original == [3, 2, 1, 0, 1, 2, 3] && n == 6
    requires before == [(3, 0), (2, 1), (1, 2), (0, 3), (5, 2), (4, 1), (6, 3)]
    requires after == [(5, 2), (3, 0), (2, 1), (1, 2), (0, 3), (4, 1), (6, 3)]
    ensures Mixing(original, n) == after
  {
    DuplicateMove6(before, after);
    DuplicateStep5(original, n - 1, [(3, 0), (2, 1), (1, 2), (0, 3), (4, 1), (5, 2), (6, 3)], before);
    MixingStep(original, n - 1, before, 4, after);
  }

  lemma DuplicateValues6(buf: seq<Tagged>)
    requires buf == [(5, 2), (3, 0), (2, 1), (1, 2), (0, 3), (4, 1), (6, 3)]
    ensures Values(buf) == [2, 0, 1, 2, 3, 1, 3]
  {
  }

  /** `duplicate_values`, after step 6. */
  lemma DuplicateMix6(original: seq<int>, n: nat)
    requires original == [3, 2, 1, 0, 1, 2, 3] && n == 6
    ensures Values(Mixing(original, n)) == [2, 0, 1, 2, 3, 1, 3]
  {
    DuplicateStep6(original, n, [(3, 0), (2, 1), (1, 2), (0, 3), (5, 2), (4, 1), (6, 3)], [(5, 2), (3, 0), (2, 1), (1, 2), (0, 3), (4, 1), (6, 3)]);
    DuplicateValues6([(5, 2), (3, 0), (2, 1), (1, 2), (0, 3), (4, 1), (6, 3)]);
  }

  lemma DuplicateMove7(before: seq<Tagged>, after: seq<Tagged>)
    requires before == [(5, 2), (3, 0), (2, 1), (1, 2), (0, 3), (4, 1), (6, 3)]
    requires after == [(5, 2), (3, 0), (2, 1), (6, 3), (1, 2), (0, 3), (4, 1)]
    ensures before[6].0 == 6 && TagPosition(before, 6) == 6 && Shifted(before, 6, 3) == after
  {
    TagPositionCase(before, 6, 6);
    ShiftCase(before, 6, 3, 6, 3, after);
  }

  lemma DuplicateStep7(original: seq<int>, n: nat, before: seq<Tagged>, after: seq<Tagged>)
    requires original == [3, 2, 1, 0, 1, 2, 3] && n == 7
    requires before == [(5, 2), (3, 0), (2, 1), (1, 2), (0, 3), (4, 1), (6, 3)]
    requires after == [(5, 2), (3, 0), (2, 1), (6, 3), (1, 2), (0, 3), (4, 1)]
    ensures Mixing(original, n) == after
  {
    DuplicateMove7(before, after);
    DuplicateStep6(original, n - 1, [(3, 0), (2, 1), (1, 2), (0, 3), (5, 2), (4, 1), (6, 3)], before);
    MixingStep(original, n - 1, before, 6, after);
  }

  lemma DuplicateValues7(buf: seq<Tagged>)
    requires buf == [(5, 2), (3, 0), (2, 1), (6, 3), (1, 2), (0, 3), (4, 1)]
    ensures Values(buf) == [2, 0, 1, 3, 2, 3, 1]
  {
  }

  /** `duplicate_values`, after step 7. */
  lemma DuplicateMix7(original: seq<int>, n: nat)
    requires original == [3, 2, 1, 0, 1, 2, 3] && n == 7
    ensures Values(Mixing(original, n)) == [2, 0, 1, 3, 2, 3, 1]
  {
    DuplicateStep7(original, n, [(5, 2), (3, 0), (2, 1), (1, 2), (0, 3), (4, 1), (6, 3)], [(5, 2), (3, 0), (2, 1), (6, 3), (1, 2), (0, 3), (4, 1)]);
    DuplicateValues7([(5, 2), (3, 0), (2, 1), (6, 3), (1, 2), (0, 3), (4, 1)]);
  }

  lemma LargeValuesStart(original: seq<int>, before: seq<Tagged>)
    requires original == [1, 5, -2, 0]
    requires before == [(0, 1), (1, 5), (2, -2), (3, 0)]
    ensures Enumerate(original) == before
  {
  }

  lemma LargeValuesMove1(before: seq<Tagged>, after: seq<Tagged>)
    requires before == [(0, 1), (1, 5), (2, -2), (3, 0)]
    requires after == [(1, 5), (0, 1), (2, -2), (3, 0)]
    ensures before[0].0 == 0 && TagPosition(before, 0) == 0 && Shifted(before, 0, 1) == after
  {
    TagPositionCase(before, 0, 0);
    ShiftCase(before, 0, 1, 0, 1, after);
  }

  lemma LargeValuesStep1(original: seq<int>, n: nat, before: seq<Tagged>, after: seq<Tagged>)
    requires original == [1, 5, -2, 0] && n == 1
    requires before == [(0, 1), (1, 5), (2, -2), (3, 0)]
    requires after == [(1, 5), (0, 1), (2, -2), (3, 0)]
    ensures Mixing(original, n) == after
  {
    LargeValuesMove1(before, after);
    LargeValuesStart(original, before);
    MixingStep(original, n - 1, before, 0, after);
  }

  lemma LargeValuesMove2(before: seq<Tagged>, after: seq<Tagged>)
    requires before == [(1, 5), (0, 1), (2, -2), (3, 0)]
    requires after == [(0, 1), (2, -2), (1, 5), (3, 0)]
    ensures before[0].0 == 1 && TagPosition(before, 1) == 0 && Shifted(before, 0, 5) == after
  {
    TagPositionCase(before, 1, 0);
    ShiftCase(before, 0, 5, 0, 2, after);
  }

  lemma LargeValuesStep2(original: seq<int>, n: nat, before: seq<Tagged>, after: seq<Tagged>)
    requires original == [1, 5, -2, 0] && n == 2
    requires before == [(1, 5), (0, 1), (2, -2), (3, 0)]
    requires after == [(0, 1), (2, -2), (1, 5), (3, 0)]
    ensures Mixing(original, n) == after
  {
    LargeValuesMove2(before, after);
    LargeValuesStep1(original, n - 1, [(0, 1), (1, 5), (2, -2), (3, 0)], before);
    MixingStep(original, n - 1, before, 0, after);
  }

  lemma LargeValuesMove3(before: seq<Tagged>, after: seq<Tagged>)
    requires before == [(0, 1), (2, -2), (1, 5), (3, 0)]
    requires after == [(0, 1), (1, 5), (2, -2), (3, 0)]
    ensures before[1].0 == 2 && TagPosition(before, 2) == 1 && Shifted(before, 1, -2) == after
  {
    TagPositionCase(before, 2, 1);
    ShiftCase(before, 1, -2, 1, 2, after);
  }

  lemma LargeValuesStep3(original: seq<int>, n: nat, before: seq<Tagged>, after: seq<Tagged>)
    requires original == [1, 5, -2, 0] && n == 3
    requires before == [(0, 1), (2, -2), (1, 5), (3, 0)]
    requires after == [(0, 1), (1, 5), (2, -2), (3, 0)]
    ensures Mixing(original, n) == after
  {
    LargeValuesMove3(before, after);
    LargeValuesStep2(original, n - 1, [(1, 5), (0, 1), (2, -2), (3, 0)], before);
    MixingStep(original, n - 1, before, 1, after);
  }

  lemma LargeValuesMove4(before: seq<Tagged>, after: seq<Tagged>)
    requires before == [(0, 1), (1, 5), (2, -2), (3, 0)]
    requires after == [(0, 1), (1, 5), (2, -2), (3, 0)]
    ensures before[3].0 == 3 && TagPosition(before, 3) == 3 && Shifted(before, 3, 0) == after
  {
    TagPositionCase(before, 3, 3);
  }

  lemma LargeValuesStep4(original: seq<int>, n: nat, before: seq<Tagged>, after: seq<Tagged>)
    requires original == [1, 5, -2, 0] && n == 4
    requires before == [(0, 1), (1, 5), (2, -2), (3, 0)]
    requires after == [(0, 1), (1, 5), (2, -2), (3, 0)]
    ensures Mixing(original, n) == after
  {
    LargeValuesMove4(before, after);
    LargeValuesStep3(original, n - 1, [(0, 1), (2, -2), (1, 5), (3, 0)], before);
    MixingStep(original, n - 1, before, 3, after);
  }

  lemma LargeValuesValues4(buf: seq<Tagged>)
    requires buf == [(0, 1), (1, 5), (2, -2), (3, 0)]
    ensures Values(buf) == [1, 5, -2, 0]
  {
  }

  /** `large_values`: moving by more than the length wraps around. */
  lemma LargeValues(original: seq<int>, n: nat)
    requires original == [1, 5, -2, 0] && n == 4
    ensures Values(Mixing(original, n)) == [1, 5, -2, 0]
  {
    LargeValuesStep4(original, n, [(0, 1), (1, 5), (2, -2), (3, 0)], [(0, 1), (1, 5), (2, -2), (3, 0)]);
    LargeValuesValues4([(0, 1), (1, 5), (2, -2), (3, 0)]);
  }

  lemma LargerValuesStart(original: seq<int>, before: seq<Tagged>)
    requires original == [12, 1, 2, 3]
    requires before == [(0, 12), (1, 1), (2, 2), (3, 3)]
    ensures Enumerate(original) == before
  {
  }

  lemma LargerValuesMove1(before: seq<Tagged>, after: seq<Tagged>)
    requires before == [(0, 12), (1, 1), (2, 2), (3, 3)]
    requires after == [(0, 12), (1, 1), (2, 2), (3, 3)]
    ensures before[0].0 == 0 && TagPosition(before, 0) == 0 && Shifted(before, 0, 12) == after
  {
    TagPositionCase(before, 0, 0);
    ShiftCase(before, 0, 12, 0, 0, after);
  }

  lemma LargerValuesStep1(original: seq<int>, n: nat, before: seq<Tagged>, after: seq<Tagged>)
    requires original == [12, 1, 2, 3] && n == 1
    requires before == [(0, 12), (1, 1), (2, 2), (3, 3)]
    requires after == [(0, 12), (1, 1), (2, 2), (3, 3)]
    ensures Mixing(original, n) == after
  {
    LargerValuesMove1(before, after);
    LargerValuesStart(original, before);
    MixingStep(original, n - 1, before, 0, after);
  }

  lemma LargerValuesValues1(buf: seq<Tagged>)
    requires buf == [(0, 12), (1, 1), (2, 2), (3, 3)]
    ensures Values(buf) == [12, 1, 2, 3]
  {
  }

  /** `larger_values`: 12 on a four-number file lands back where it was. */
  lemma LargerValues(original: seq<int>, n: nat)
    requires original == [12, 1, 2, 3] && n == 1
    ensures Values(Mixing(original, n)) == [12, 1, 2, 3]
  {
    LargerValuesStep1(original, n, [(0, 12), (1, 1), (2, 2), (3, 3)], [(0, 12), (1, 1), (2, 2), (3, 3)]);
    LargerValuesValues1([(0, 12), (1, 1), (2, 2), (3, 3)]);
  }

  /** The sample file once mixed, and its coordinates. */
  lemma MixedSampleCoords(mixed: seq<Tagged>)
    requires mixed == [(4, -2), (0, 1), (1, 2), (2, -3), (6, 4), (5, 0), (3, 3)]
    ensures exists j | 0 <= j < |mixed| :: mixed[j].1 == 0
    ensures Coords(mixed) == (4, -3, 2)
  {
    assert mixed[5].1 == 0;
    assert ZeroPosition(mixed) == 5;
  }

  /** `sample_coordinates`. */
  lemma SampleCoordinates(original: seq<int>, n: nat)
    requires original == [1, 2, -3, 3, -2, 0, 4] && n == |original|
    ensures exists j | 0 <= j < |original| :: Mixing(original, n)[j].1 == 0
    ensures Coords(Mixing(original, n)) == (4, -3, 2)
  {
    var mixed := [(4, -2), (0, 1), (1, 2), (2, -3), (6, 4), (5, 0), (3, 3)];
    SampleStep7(original, n, [(4, -2), (0, 1), (1, 2), (2, -3), (5, 0), (3, 3), (6, 4)], mixed);
    MixedSampleCoords(mixed);
  }
}
