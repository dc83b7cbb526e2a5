/** Helpers shared by the detector, the dashboard and the recorder: a
    left-to-right sum (the shape of `reduce((sum, x) => sum + x, 0)`),
    occurrence counts, the tail window that `slice(-n)` takes, and the
    scaled draw `Math.floor(Math.random() * n)`. */
module SeqUtil {

  /** Sum of a sequence of reals, accumulated from the left. */
  function Sum(s: seq<real>): real
  {
    if |s| == 0 then 0.0 else Sum(s[..|s| - 1]) + s[|s| - 1]
  }

  lemma SumSnoc(s: seq<real>, x: real)
    ensures Sum(s + [x]) == Sum(s) + x
  {
    assert (s + [x])[..|s|] == s;
  }

  predicate NonNegative(s: seq<real>)
  {
    forall i :: 0 <= i < |s| ==> s[i] >= 0.0
  }

  /** A longer prefix of non-negative numbers never sums to less. */
  lemma {:induction false} PrefixSumMonotone(s: seq<real>, a: nat, b: nat)
    requires NonNegative(s) && a <= b <= |s|
    ensures Sum(s[..a]) <= Sum(s[..b])
  {
    if a < b {
      PrefixSumMonotone(s, a, b - 1);
      assert s[..b][..b - 1] == s[..b - 1];
    }
  }

  /** Number of occurrences of `x` in `s`. */
  function Occurrences<T(==)>(s: seq<T>, x: T): (n: nat)
    ensures n <= |s|
  {
    if |s| == 0 then 0
    else Occurrences(s[..|s| - 1], x) + (if s[|s| - 1] == x then 1 else 0)
  }

  lemma OccurrencesSnoc<T>(s: seq<T>, y: T, x: T)
    ensures Occurrences(s + [y], x) == Occurrences(s, x) + (if y == x then 1 else 0)
  {
    assert (s + [y])[..|s|] == s;
  }

  /** The last `n` elements of `s` (all of `s` when it is shorter): what
      `s.slice(-n)` returns for n > 0. */
  function LastN<T>(s: seq<T>, n: nat): (r: seq<T>)
    ensures |r| == if |s| <= n then |s| else n
  {
    if |s| <= n then s else s[|s| - n..]
  }

  /** The window is what is left after dropping the older elements. */
  lemma LastNSuffix<T>(s: seq<T>, n: nat)
    ensures s == s[..|s| - |LastN(s, n)|] + LastN(s, n)
  {
  }

  /** Appending one element moves the window by one: it grows while it is
      shorter than `n`, and otherwise loses exactly its oldest element. */
  lemma LastNSnoc<T>(s: seq<T>, x: T, n: nat)
    requires n > 0
    ensures var w := LastN(s, n);
            LastN(s + [x], n) == if |w| < n then w + [x] else w[1..] + [x]
  {
    var w := LastN(s, n);
    if |s| + 1 > n {
      assert (s + [x])[|s| + 1 - n..] == s[|s| + 1 - n..] + [x];
      if |s| > n {
        assert w[1..] == s[|s| + 1 - n..];
      }
    }
  }

  /** A value `Math.random()` can return. */
  predicate UnitDraw(r: real)
  {
    0.0 <= r < 1.0
  }

  /** `Math.floor(r * n)` for a draw `r`: an index in 0 .. n-1. */
  function FloorScaled(r: real, n: nat): (k: int)
    requires n > 0
    ensures UnitDraw(r) ==> 0 <= k < n
  {
    var x := r * (n as real);
    assert UnitDraw(r) ==> 0.0 <= x < n as real;
    x.Floor
  }
}
