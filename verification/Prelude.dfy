/** Definitions and arithmetic facts shared by the other modules. */
module Prelude {

  datatype Option<+T> = None | Some(value: T)

  function Min(a: int, b: int): int {
    if a <= b then a else b
  }

  function Least(a: real, b: real): real {
    if a <= b then a else b
  }

  function Most(a: real, b: real): real {
    if a >= b then a else b
  }

  function Max(a: int, b: int): int {
    if a >= b then a else b
  }

  /** Products, under names of their own so that proofs can treat them as a whole. */
  function Product(a: int, b: int): int {
    a * b
  }

  lemma ProductNext(a: int, b: int)
    ensures Product(a, b + 1) == Product(a, b) + a
    ensures Product(a, 0) == 0
  {
  }

  lemma ProductGrows(a: int, b: int, c: int)
    requires a >= 0 && b <= c
    ensures Product(a, b) <= Product(a, c)
  {
    assert a * (c - b) >= 0;
  }

  function Times(a: real, b: real): real {
    a * b
  }

  ghost predicate NoDup<T>(s: seq<T>) {
    forall i, j :: 0 <= i < j < |s| ==> s[i] != s[j]
  }

  /** How many chunks of size b cover n elements: the ceiling of n / b. */
  function CeilDiv(n: int, b: int): int
    requires b > 0
  {
    (n + b - 1) / b
  }

  lemma MulAtLeast(d: int, b: int)
    requires d >= 1 && b > 0
    ensures d * b >= b
  {
    assert (d - 1) * b >= 0;
  }

  lemma MulSub(x: int, y: int, b: int)
    ensures (x - y) * b == x * b - y * b
  {
  }

  lemma DivModOf(n: int, q: int, b: int, r: int)
    requires b > 0 && 0 <= r < b && n == q * b + r
    ensures n / b == q && n % b == r
  {
    var x, y := n / b, n % b;
    assert n == x * b + y && 0 <= y < b;
    if x > q {
      MulAtLeast(x - q, b);
      MulSub(x, q, b);
    } else if x < q {
      MulAtLeast(q - x, b);
      MulSub(q, x, b);
    }
  }

  lemma CeilDivOf(n: int, q: int, b: int, r: int)
    requires b > 0 && 0 < r <= b && n == q * b + r
    ensures CeilDiv(n, b) == q + 1
    ensures n % b == if r == b then 0 else r
  {
    assert (q + 1) * b == q * b + b;
    DivModOf(n + b - 1, q + 1, b, r - 1);
    if r == b {
      DivModOf(n, q + 1, b, 0);
    } else {
      DivModOf(n, q, b, r);
    }
  }

  /** Taking one full chunk off the front uses exactly one of the chunks needed. */
  lemma CeilDivStep(n: int, b: int)
    requires b > 0 && n > 0
    ensures CeilDiv(n, b) == 1 + CeilDiv(n - Min(n, b), b)
    ensures CeilDiv(0, b) == 0
  {
    DivModOf(b - 1, 0, b, b - 1);
    if n <= b {
      CeilDivOf(n, 0, b, n);
    } else {
      var m := n - 1;
      assert (m / b) * b + m % b == m;
      CeilDivOf(n, m / b, b, m % b + 1);
      CeilDivOf(n - b, m / b - 1, b, m % b + 1);
    }
  }

  lemma DropLast<T>(s: seq<T>)
    requires NoDup(s) && |s| > 0
    ensures NoDup(s[..|s| - 1])
    ensures forall x :: x in s[..|s| - 1] <==> x in s && x != s[|s| - 1]
  {
    assert s == s[..|s| - 1] + [s[|s| - 1]];
  }

  /** CeilDiv counted one chunk at a time. */
  function Chunks(n: int, b: int): nat
    requires b > 0
    decreases n
  {
    if n <= 0 then 0 else 1 + Chunks(n - b, b)
  }

  lemma ChunksStep(n: int, b: int)
    requires b > 0 && n > 0
    ensures Chunks(n, b) == 1 + Chunks(n - Min(n, b), b)
  {
  }

  lemma {:induction false} ChunksIsCeilDiv(n: nat, b: int)
    requires b > 0
    ensures Chunks(n, b) == CeilDiv(n, b)
  {
    if n > 0 {
      CeilDivStep(n, b);
      if n > b {
        ChunksIsCeilDiv(n - b, b);
      }
    } else {
      CeilDivStep(1, b);
    }
  }

  lemma SubsetSize<T>(a: set<T>, b: set<T>)
    requires a <= b
    ensures |a| <= |b|
  {
    assert b == a + (b - a);
  }

  lemma SliceOfSlice<T>(s: seq<T>, a: nat, b: nat, i: nat, j: nat)
    requires i <= j && a + j <= b <= |s|
    ensures s[a..b][i..j] == s[a + i..a + j]
  {
    forall k | 0 <= k < j - i ensures s[a..b][i..j][k] == s[a + i..a + j][k] {
    }
  }

  lemma SliceOfPart<T>(part: seq<T>, more: seq<T>, i: nat, j: nat)
    requires i <= j <= |part|
    ensures (part + more)[i..j] == part[i..j]
  {
  }

  function Concat<T>(pieces: seq<seq<T>>): seq<T> {
    if pieces == [] then [] else pieces[0] + Concat(pieces[1..])
  }

  lemma {:induction false} ConcatParts<T>(pieces: seq<seq<T>>, n: nat)
    requires n <= |pieces|
    ensures Concat(pieces) == Concat(pieces[..n]) + Concat(pieces[n..])
  {
    if n > 0 {
      ConcatParts(pieces[1..], n - 1);
      assert pieces[..n][1..] == pieces[1..][..n - 1] && pieces[1..][n - 1..] == pieces[n..];
    } else {
      assert pieces[n..] == pieces;
    }
  }

  lemma Overwrite<K, V>(m: map<K, V>, v: map<K, V>, k: K, x: V, y: V)
    requires m == v[k := x]
    ensures m[k := y] == v[k := y]
  {
  }
}
