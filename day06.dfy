/** Day 6: the start-of-packet marker, the end of the first run of four
    pairwise different characters in the datastream. */
module Day06 {
  import opened Wrappers
  import opened Text

  const MarkerLength: nat := 4

  /** The window of `MarkerLength` characters starting at `i` has no repeated
      character (its `HashSet` has `MarkerLength` elements). */
  predicate Marker(s: String, i: nat)
    requires i + MarkerLength <= |s|
  {
    forall a, b | i <= a < b < i + MarkerLength :: s[a] != s[b]
  }

  /** The number of consecutive windows from `i` on that are not markers
      (`windows(4).take_while(..)` started at `i`). */
  function WindowsBeforeMarker(s: String, i: nat): (k: nat)
    requires i <= |s|
    ensures i + k + MarkerLength <= |s| || k == 0 || i + k + MarkerLength == |s| + 1
    ensures forall j | i <= j < i + k :: j + MarkerLength <= |s| && !Marker(s, j)
    ensures i + k + MarkerLength <= |s| ==> Marker(s, i + k)
    decreases |s| - i
  {
    if i + MarkerLength > |s| then 0
    else if Marker(s, i) then 0
    else 1 + WindowsBeforeMarker(s, i + 1)
  }

  /** The windows counted are exactly those before the first marker. */
  lemma {:induction false} CountStopsAtFirstMarker(s: String, i: nat, k: nat)
    requires i <= k && k + MarkerLength <= |s| && Marker(s, k)
    requires forall j | i <= j < k :: !Marker(s, j)
    ensures WindowsBeforeMarker(s, i) == k - i
    decreases k - i
  {
    if i < k {
      CountStopsAtFirstMarker(s, i + 1, k);
    }
  }

  /** The result is fixed by the position of the first marker when it is not
      the first window. */
  lemma StartMarkerAtFirstMarker(s: String, k: nat)
    requires 0 < k && k + MarkerLength <= |s| && Marker(s, k)
    requires forall j | 0 <= j < k :: !Marker(s, j)
    ensures StartMarker(s) == Some(k + MarkerLength)
  {
    CountStopsAtFirstMarker(s, 0, k);
  }

  /** `start_marker` as written: the number of leading non-marker windows
      plus the marker length, or None when that number is zero. */
  function StartMarker(s: String): (r: Option<nat>)
    ensures r.None? <==> |s| < MarkerLength || Marker(s, 0)
    ensures r.Some? ==> MarkerLength < r.value <= |s| + 1
    ensures r.Some? ==> forall j | 0 <= j < r.value - MarkerLength :: !Marker(s, j)
    ensures r.Some? && r.value <= |s| ==> Marker(s, r.value - MarkerLength)
  {
    var k := WindowsBeforeMarker(s, 0);
    if k == 0 then None else Some(k + MarkerLength)
  }

  /** The position right after the first marker, or None when the stream
      holds no marker at all. */
  function FirstMarkerEnd(s: String): (r: Option<nat>)
    ensures r.None? <==> forall j | 0 <= j && j + MarkerLength <= |s| :: !Marker(s, j)
    ensures r.Some? ==> MarkerLength <= r.value <= |s| && Marker(s, r.value - MarkerLength)
    ensures r.Some? ==> forall j | 0 <= j < r.value - MarkerLength :: !Marker(s, j)
  {
    var k := WindowsBeforeMarker(s, 0);
    if k + MarkerLength <= |s| then Some(k + MarkerLength) else None
  }

  /** The two agree whenever the stream has a marker that is not in the
      first window. */
  lemma StartMarkerAgreesAfterFirstWindow(s: String, j: nat)
    requires j + MarkerLength <= |s| && Marker(s, j)
    requires !Marker(s, 0)
    ensures StartMarker(s) == FirstMarkerEnd(s)
    ensures StartMarker(s).Some?
  {
  }

  /** A marker in the very first window is reported as None. */
  lemma MarkerInFirstWindowIsMissed()
    ensures StartMarker("abcd") == None
    ensures FirstMarkerEnd("abcd") == Some(4)
  {
    assert Marker("abcd", 0);
  }

  /** A stream without any marker is reported one past its end. */
  lemma NoMarkerIsReportedPastTheEnd()
    ensures StartMarker("aaaa") == Some(5)
    ensures FirstMarkerEnd("aaaa") == None
  {
    assert !Marker("aaaa", 0) by { assert "aaaa"[0] == "aaaa"[1]; }
  }

  lemma Sample1()
    ensures StartMarker("mjqjpqmgbljsphdztnvjfqwrcgsmlb") == Some(7)
  {
    var s := "mjqjpqmgbljsphdztnvjfqwrcgsmlb";
    forall j | 0 <= j < 3 ensures !Marker(s, j) {
      if j == 0 { assert s[1] == s[3]; }
      else if j == 1 { assert s[1] == s[3]; }
      else { assert s[2] == s[5]; }
    }
    assert Marker(s, 3);
    StartMarkerAtFirstMarker(s, 3);
  }

  lemma Sample2()
    ensures StartMarker("bvwbjplbgvbhsrlpgdmjqwftvncz") == Some(5)
  {
    var s := "bvwbjplbgvbhsrlpgdmjqwftvncz";
    forall j | 0 <= j < 1 ensures !Marker(s, j) {
      assert s[0] == s[3];
    }
    assert Marker(s, 1);
    StartMarkerAtFirstMarker(s, 1);
  }

  lemma Sample3()
    ensures StartMarker("nppdvjthqldpwncqszvftbrmjlhg") == Some(6)
  {
    var s := "nppdvjthqldpwncqszvftbrmjlhg";
    forall j | 0 <= j < 2 ensures !Marker(s, j) {
      if j == 0 { assert s[1] == s[2]; }
      else { assert s[1] == s[2]; }
    }
    assert Marker(s, 2);
    StartMarkerAtFirstMarker(s, 2);
  }

  lemma Sample4()
    ensures StartMarker("nznrnfrfntjfmvfwmzdfjlvtqnbhcprsg") == Some(10)
  {
    var s := "nznrnfrfntjfmvfwmzdfjlvtqnbhcprsg";
    forall j | 0 <= j < 6 ensures !Marker(s, j) {
      if j == 0 { assert s[0] == s[2]; }
      else if j == 1 { assert s[2] == s[4]; }
      else if j == 2 { assert s[2] == s[4]; }
      else if j == 3 { assert s[3] == s[6]; }
      else if j == 4 { assert s[5] == s[7]; }
      else { assert s[5] == s[7]; }
    }
    assert Marker(s, 6);
    StartMarkerAtFirstMarker(s, 6);
  }

  lemma Sample5()
    ensures StartMarker("zcfzfwzzqfrljwzlrfnpqdbhtmscgvjw") == Some(11)
  {
    var s := "zcfzfwzzqfrljwzlrfnpqdbhtmscgvjw";
    forall j | 0 <= j < 7 ensures !Marker(s, j) {
      if j == 0 { assert s[0] == s[3]; }
      else if j == 1 { assert s[2] == s[4]; }
      else if j == 2 { assert s[2] == s[4]; }
      else if j == 3 { assert s[3] == s[6]; }
      else if j == 4 { assert s[6] == s[7]; }
      else if j == 5 { assert s[6] == s[7]; }
      else { assert s[6] == s[7]; }
    }
    assert Marker(s, 7);
    StartMarkerAtFirstMarker(s, 7);
  }
}
