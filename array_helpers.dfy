/** The prototype helpers farancanvas adds to arrays and numbers
    (`reversed`, `repeat`, `remove`, `min0`) and the free function `Range`. */
module ArrayHelpers {

  import opened Wrappers

  /** `Array.prototype.reversed`: a mapped copy whose element i is `s[n-1-i]`. */
  function Reversed<T>(s: seq<T>): (r: seq<T>)
    ensures |r| == |s|
    ensures forall i :: 0 <= i < |r| ==> r[i] in s
    ensures forall j :: 0 <= j < |s| ==> s[j] in r
  {
    var r := seq(|s|, i requires 0 <= i < |s| => s[|s| - 1 - i]);
    assert forall j :: 0 <= j < |s| ==> r[|s| - 1 - j] == s[j];
    r
  }

  /** Reversal takes the last element to the front and reverses the rest. */
  lemma ReversedLast<T>(s: seq<T>)
    requires |s| > 0
    ensures Reversed(s) == [s[|s| - 1]] + Reversed(s[..|s| - 1])
  {
    assert Reversed(s)[1..] == Reversed(s[..|s| - 1]);
  }

  /** The reversed array is a permutation of the original: every element
      occurs as often as before. */
  lemma {:induction false} ReversedPermutation<T>(s: seq<T>)
    ensures multiset(Reversed(s)) == multiset(s)
  {
    if |s| > 0 {
      var n := |s| - 1;
      ReversedLast(s);
      ReversedPermutation(s[..n]);
      assert s == s[..n] + [s[n]];
    }
  }

  /** Reversing twice gives back the original array. */
  lemma {:induction false} ReversedInvolution<T>(s: seq<T>)
    ensures Reversed(Reversed(s)) == s
  {
    var r := Reversed(Reversed(s));
    assert |r| == |s|;
    forall i | 0 <= i < |s|
      ensures r[i] == s[i]
    {
      assert Reversed(s)[|s| - 1 - i] == s[i];
    }
  }

  /** `s` concatenated with itself `k` times. */
  function Copies<T>(s: seq<T>, k: nat): seq<T>
  {
    if k == 0 then [] else Copies(s, k - 1) + s
  }

  lemma {:induction false} CopiesLength<T>(s: seq<T>, k: nat)
    ensures |Copies(s, k)| == |s| * k
  {
    if k > 0 {
      CopiesLength(s, k - 1);
      assert |Copies(s, k)| == |s| * (k - 1) + |s|;
    }
  }

  /** Element `j` of copy number `q` of `k` copies of `s` is `s[j]`. */
  lemma {:induction false} CopiesAt<T>(s: seq<T>, k: nat, q: nat, j: nat)
    requires q < k && j < |s|
    ensures |Copies(s, k)| == |s| * k
    ensures q * |s| + j < |Copies(s, k)| && Copies(s, k)[q * |s| + j] == s[j]
  {
    CopiesLength(s, k);
    CopiesLength(s, k - 1);
    assert |Copies(s, k - 1)| == |s| * (k - 1);
    if q < k - 1 {
      CopiesAt(s, k - 1, q, j);
      assert q * |s| + j < |s| * (k - 1);
    } else {
      assert q * |s| == |s| * (k - 1);
    }
  }

  /** The array followed by its reversal without the first element: the
      `times <= 0` branch of `repeat`. For an empty array the slice is empty. */
  function Mirrored<T>(s: seq<T>): seq<T>
  {
    if |s| == 0 then s else s + Reversed(s)[1..]
  }

  /** A mirrored array reads the same in both directions, has `2n-1` elements
      for `n >= 1`, and starts with the original array. */
  lemma {:induction false} MirroredPalindrome<T>(s: seq<T>)
    requires |s| > 0
    ensures |Mirrored(s)| == 2 * |s| - 1
    ensures Mirrored(s)[..|s|] == s
    ensures Reversed(Mirrored(s)) == Mirrored(s)
  {
    var n := |s|;
    var m := Mirrored(s);
    assert |m| == 2 * n - 1;
    assert m[..n] == s;
    forall i | 0 <= i < |m|
      ensures Reversed(m)[i] == m[i]
    {
      var j := 2 * n - 2 - i;
      assert Reversed(m)[i] == m[j];
      if i < n {
        if j >= n {
          assert m[j] == Reversed(s)[j - n + 1] == s[i];
        }
      } else {
        assert m[i] == Reversed(s)[i - n + 1] == s[j];
      }
    }
  }

  /** What `repeat(times)` returns: `times + 1` copies for a positive count,
      the mirrored array otherwise. */
  function Repeated<T>(s: seq<T>, times: int): seq<T>
  {
    if times <= 0 then Mirrored(s) else Copies(s, times + 1)
  }

  /** `Array.prototype.repeat`: the loop that pushes `times` further copies
      onto a copy of the array. */
  method Repeat<T>(s: seq<T>, times: int) returns (r: seq<T>)
    ensures r == Repeated(s, times)
  {
    if times <= 0 {
      r := s + (if |s| == 0 then [] else Reversed(s)[1..]);
    } else {
      r := s;
      var i := 0;
      assert Copies(s, 1) == s;
      while i < times
        invariant 0 <= i <= times
        invariant r == Copies(s, i + 1)
      {
        r := r + s;
        i := i + 1;
      }
    }
  }

  /** For a positive count, `repeat` has `n * (times + 1)` elements and its
      copy number `q` holds the original array again. */
  lemma RepeatedPositive<T>(s: seq<T>, times: int, q: nat, j: nat)
    requires times > 0 && q <= times && j < |s|
    ensures |Repeated(s, times)| == |s| * (times + 1)
    ensures q * |s| + j < |Repeated(s, times)| && Repeated(s, times)[q * |s| + j] == s[j]
  {
    CopiesAt(s, times + 1, q, j);
  }

  /** `Array.prototype.remove`: the elements different from `v`, in their order. */
  function Remove<T(==)>(s: seq<T>, v: T): (r: seq<T>)
    ensures |r| <= |s|
    ensures v !in r
    ensures v !in s ==> |r| == |s|
  {
    if |s| == 0 then []
    else (if s[0] != v then [s[0]] else []) + Remove(s[1..], v)
  }

  /** `remove` keeps every element other than `v` as often as before and drops
      every copy of `v`. */
  lemma {:induction false} RemoveContents<T>(s: seq<T>, v: T)
    ensures multiset(Remove(s, v)) == multiset(s)[v := 0]
  {
    if |s| > 0 {
      var head: seq<T> := if s[0] != v then [s[0]] else [];
      RemoveContents(s[1..], v);
      assert Remove(s, v) == head + Remove(s[1..], v);
      assert s == [s[0]] + s[1..];
      DropOne(s[0], multiset(s[1..]), v);
    }
  }

  /** An element survives `remove` exactly when it was there and differs from `v`. */
  lemma RemoveMembers<T>(s: seq<T>, v: T)
    ensures forall x :: x in Remove(s, v) <==> x in s && x != v
  {
    RemoveContents(s, v);
    forall x
      ensures x in Remove(s, v) <==> x in s && x != v
    {
      assert x in Remove(s, v) <==> multiset(Remove(s, v))[x] > 0;
      assert x in s <==> multiset(s)[x] > 0;
    }
  }

  /** Zeroing the count of `v` after adding one `a`. */
  lemma DropOne<T>(a: T, m: multiset<T>, v: T)
    ensures multiset(if a != v then [a] else []) + m[v := 0] == (multiset{a} + m)[v := 0]
  {
    var l := multiset(if a != v then [a] else []) + m[v := 0];
    var r := (multiset{a} + m)[v := 0];
    forall x
      ensures l[x] == r[x]
    {
    }
  }

  /** `remove` works element by element, so the survivors keep their order. */
  lemma {:induction false} RemoveConcat<T>(a: seq<T>, b: seq<T>, v: T)
    ensures Remove(a + b, v) == Remove(a, v) + Remove(b, v)
  {
    if |a| == 0 {
      assert a + b == b;
    } else {
      var head: seq<T> := if a[0] != v then [a[0]] else [];
      var ab := a + b;
      assert ab[0] == a[0] && ab[1..] == a[1..] + b;
      RemoveConcat(a[1..], b, v);
      RemoveFirst(ab, v);
      RemoveFirst(a, v);
      Associative(head, Remove(a[1..], v), Remove(b, v));
    }
  }

  lemma Associative<T>(x: seq<T>, y: seq<T>, z: seq<T>)
    ensures x + (y + z) == (x + y) + z
  {
  }

  /** One step of the filter: the first element, if kept, then the rest filtered. */
  lemma RemoveFirst<T>(s: seq<T>, v: T)
    requires |s| > 0
    ensures Remove(s, v) == (if s[0] != v then [s[0]] else []) + Remove(s[1..], v)
  {
  }

  /** Removing a value that is not there returns an equal array. */
  lemma {:induction false} RemoveAbsent<T>(s: seq<T>, v: T)
    requires v !in s
    ensures Remove(s, v) == s
  {
    if |s| > 0 {
      RemoveAbsent(s[1..], v);
      assert s == [s[0]] + s[1..];
    }
  }

  /** The keys `0, 1, ..., n-1` in order. */
  function Indices(n: nat): (r: seq<nat>)
    ensures |r| == n
    ensures forall i :: 0 <= i < n ==> r[i] == i
  {
    if n == 0 then [] else Indices(n - 1) + [n - 1]
  }

  /** The largest length `Array(n)` accepts. */
  const MaxArrayLength: int := 0xFFFF_FFFF

  /** `Range(n)`: `[...Array(n).keys()]`. `Array(n)` throws a range error for a
      negative length or one above `MaxArrayLength`, modelled as `None`. */
  function Range(n: int): (r: Option<seq<nat>>)
    ensures r.Some? <==> 0 <= n <= MaxArrayLength
    ensures r.Some? ==> |r.value| == n && forall i :: 0 <= i < n ==> r.value[i] == i
  {
    if 0 <= n <= MaxArrayLength then Some(Indices(n)) else None
  }

  /** `Number.prototype.min0`: the number clamped below at zero. */
  function Min0(x: real): (r: real)
    ensures r >= 0.0 && r >= x
    ensures r == x || r == 0.0
  {
    if x > 0.0 then x else 0.0
  }

  /** Clamping is idempotent and monotone. */
  lemma Min0Laws(x: real, y: real)
    ensures Min0(Min0(x)) == Min0(x)
    ensures x <= y ==> Min0(x) <= Min0(y)
  {
  }
}
