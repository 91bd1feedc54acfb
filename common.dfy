/** Small helpers shared by the models: an optional value and the sorting,
    summing and extremum functions that the engine takes from its standard
    library (`Vec::sort_by`, `Iterator::sum`, `min`, `max`). */
module Common {

  datatype Option<+T> = None | Some(value: T)

  /** `Result<T, String>` */
  datatype Result<+T> = Ok(value: T) | Err(error: string)

  /** `f32::abs` */
  function Abs(x: real): (r: real)
    ensures r >= 0.0 && (r == x || r == -x)
  {
    if x < 0.0 then -x else x
  }

  /** `f32::max` */
  function Max(a: real, b: real): (r: real)
    ensures r >= a && r >= b && (r == a || r == b)
  {
    if a >= b then a else b
  }

  /** `f32::min` */
  function Min(a: real, b: real): (r: real)
    ensures r <= a && r <= b && (r == a || r == b)
  {
    if a <= b then a else b
  }

  /** A 3-component vector of floats (`Vec3`), as reals. */
  datatype Vec3 = Vec3(x: real, y: real, z: real)

  /** A 2-component vector of floats (`Vec2`), as reals. */
  datatype Vec2 = Vec2(x: real, y: real)

  /** `a.saturating_sub(b)` on unsigned integers. */
  function SatSub(a: nat, b: nat): (r: nat)
    ensures a >= b ==> r + b == a
    ensures a < b ==> r == 0
  {
    if a >= b then a - b else 0
  }

  function Sum(s: seq<real>): real
  {
    if s == [] then 0.0 else s[0] + Sum(s[1..])
  }

  function SeqMin(s: seq<real>): (m: real)
    requires s != []
  {
    if |s| == 1 then s[0] else if s[0] <= SeqMin(s[1..]) then s[0] else SeqMin(s[1..])
  }

  function SeqMax(s: seq<real>): (m: real)
    requires s != []
  {
    if |s| == 1 then s[0] else if s[0] >= SeqMax(s[1..]) then s[0] else SeqMax(s[1..])
  }

  /** The minimum is an element and no element is smaller. */
  lemma {:induction false} SeqMinIsLeast(s: seq<real>)
    requires s != []
    ensures SeqMin(s) in s
    ensures forall i :: 0 <= i < |s| ==> SeqMin(s) <= s[i]
  {
    if |s| > 1 {
      SeqMinIsLeast(s[1..]);
      forall i | 0 <= i < |s| ensures SeqMin(s) <= s[i] {
        if i > 0 { assert s[i] == s[1..][i - 1]; }
      }
    }
  }

  /** The maximum is an element and no element is larger. */
  lemma {:induction false} SeqMaxIsGreatest(s: seq<real>)
    requires s != []
    ensures SeqMax(s) in s
    ensures forall i :: 0 <= i < |s| ==> s[i] <= SeqMax(s)
  {
    if |s| > 1 {
      SeqMaxIsGreatest(s[1..]);
      forall i | 0 <= i < |s| ensures s[i] <= SeqMax(s) {
        if i > 0 { assert s[i] == s[1..][i - 1]; }
      }
    }
  }

  /** The sum of `n` values lies between `n` times their least and `n` times
      their greatest bound. */
  lemma {:induction false} SumBounds(s: seq<real>, lo: real, hi: real)
    requires forall i :: 0 <= i < |s| ==> lo <= s[i] <= hi
    ensures (|s| as real) * lo <= Sum(s) <= (|s| as real) * hi
  {
    if s != [] {
      assert forall i :: 0 <= i < |s[1..]| ==> s[1..][i] == s[i + 1];
      SumBounds(s[1..], lo, hi);
    }
  }

  lemma {:induction false} SumAppend(s: seq<real>, x: real)
    ensures Sum(s + [x]) == Sum(s) + x
  {
    if s == [] {
      assert s + [x] == [x];
    } else {
      assert (s + [x])[1..] == s[1..] + [x];
      SumAppend(s[1..], x);
    }
  }

  // ---------------------------------------------------------------------
  // Sorting by a real-valued key (insertion sort; stable)

  ghost predicate SortedBy<T>(s: seq<T>, key: T -> real)
  {
    forall i, j :: 0 <= i < j < |s| ==> key(s[i]) <= key(s[j])
  }

  function InsertBy<T>(x: T, s: seq<T>, key: T -> real): (r: seq<T>)
    ensures multiset(r) == multiset(s) + multiset{x}
    ensures |r| == |s| + 1
    ensures SortedBy(s, key) ==> SortedBy(r, key)
  {
    if s == [] then [x]
    else if key(x) <= key(s[0]) then [x] + s
    else
      var rest := InsertBy(x, s[1..], key);
      assert s == [s[0]] + s[1..];
      InsertKeepsSorted(x, s, rest, key);
      [s[0]] + rest
  }

  lemma InsertKeepsSorted<T>(x: T, s: seq<T>, rest: seq<T>, key: T -> real)
    requires s != [] && key(s[0]) < key(x)
    requires multiset(rest) == multiset(s[1..]) + multiset{x}
    requires SortedBy(s[1..], key) ==> SortedBy(rest, key)
    ensures SortedBy(s, key) ==> SortedBy([s[0]] + rest, key)
  {
    if SortedBy(s, key) {
      forall k | 0 <= k < |rest| ensures key(s[0]) <= key(rest[k]) {
        assert rest[k] in multiset(rest);
        if rest[k] != x {
          assert rest[k] in multiset(s[1..]);
          var m :| 0 <= m < |s[1..]| && s[1..][m] == rest[k];
          assert s[m + 1] == rest[k];
        }
      }
      assert SortedBy(s[1..], key);
      var r := [s[0]] + rest;
      forall i, j | 0 <= i < j < |r| ensures key(r[i]) <= key(r[j]) {
        if i > 0 {
          assert r[i] == rest[i - 1] && r[j] == rest[j - 1];
        } else {
          assert r[j] == rest[j - 1];
        }
      }
    }
  }

  /** `sort_by` with a total order on the key: ascending and a permutation. */
  function SortBy<T>(s: seq<T>, key: T -> real): (r: seq<T>)
    ensures multiset(r) == multiset(s)
    ensures |r| == |s|
    ensures SortedBy(r, key)
  {
    if s == [] then []
    else
      assert s == [s[0]] + s[1..];
      InsertBy(s[0], SortBy(s[1..], key), key)
  }

  /** Sorting a sequence already in order returns it unchanged (the sort
      is stable, so equal keys keep their places). */
  lemma {:induction false} SortBySorted<T>(s: seq<T>, key: T -> real)
    requires SortedBy(s, key)
    ensures SortBy(s, key) == s
  {
    if s != [] {
      assert SortedBy(s[1..], key);
      SortBySorted(s[1..], key);
      assert s == [s[0]] + s[1..];
    }
  }

  function Id(x: real): real { x }

  /** `sorted(xs)` on numbers. */
  function Sorted(s: seq<real>): (r: seq<real>)
    ensures multiset(r) == multiset(s)
    ensures |r| == |s|
    ensures forall i, j :: 0 <= i < j < |r| ==> r[i] <= r[j]
  {
    var r := SortBy(s, Id);
    assert forall i, j :: 0 <= i < j < |r| ==> Id(r[i]) <= Id(r[j]);
    r
  }

  /** The first element of the sorted copy is the minimum, the last the maximum. */
  lemma SortedEnds(s: seq<real>)
    requires s != []
    ensures Sorted(s)[0] == SeqMin(s)
    ensures Sorted(s)[|s| - 1] == SeqMax(s)
  {
    SortedFirstIsMin(s);
    SortedLastIsMax(s);
  }

  /** Every element of a sample lies between the ends of its sorted copy,
      and the ends are elements of the sample. */
  lemma SortedBounds(s: seq<real>)
    requires s != []
    ensures Sorted(s)[0] in s && Sorted(s)[|s| - 1] in s
    ensures forall x :: x in s ==> Sorted(s)[0] <= x <= Sorted(s)[|s| - 1]
  {
    var r := Sorted(s);
    assert r[0] in multiset(r) && r[|s| - 1] in multiset(r);
    forall x | x in s ensures r[0] <= x <= r[|s| - 1] {
      assert x in multiset(s);
      assert x in r;
      var j :| 0 <= j < |r| && r[j] == x;
    }
  }

  lemma SortedFirstIsMin(s: seq<real>)
    requires s != []
    ensures Sorted(s)[0] == SeqMin(s)
  {
    SortedBounds(s);
    SeqMinIsLeast(s);
    var i :| 0 <= i < |s| && s[i] == Sorted(s)[0];
  }

  lemma SortedLastIsMax(s: seq<real>)
    requires s != []
    ensures Sorted(s)[|s| - 1] == SeqMax(s)
  {
    SortedBounds(s);
    SeqMaxIsGreatest(s);
    var i :| 0 <= i < |s| && s[i] == Sorted(s)[|s| - 1];
  }
}
