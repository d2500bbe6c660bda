/** Small vocabulary shared by every module: options, bounded deques, real arithmetic. */
module Foundations {

  datatype Option<+T> = None | Some(value: T)

  // ---- bounded deques -----------------------------------------------------

  /** The newest `n` elements of `s`, oldest first. */
  function Newest<T>(s: seq<T>, n: nat): (r: seq<T>)
  {
    if |s| <= n then s else s[|s| - n..]
  }

  /** Append to a deque whose maximum length is `n`: the oldest element is dropped when it is full. */
  function Push<T>(s: seq<T>, n: nat, x: T): (r: seq<T>)
  {
    if |s| < n then s + [x] else if n == 0 then [] else s[|s| - n + 1..] + [x]
  }

  /** A deque of maximum length `n` holds the newest `n` of everything ever appended to it. */
  lemma PushKeepsNewest<T>(s: seq<T>, n: nat, x: T)
    ensures Push(Newest(s, n), n, x) == Newest(s + [x], n)
  {
  }

  /** Overwriting the last element commutes with keeping the newest `n`. */
  lemma ReplaceKeepsNewest<T>(s: seq<T>, n: nat, x: T)
    requires s != []
    ensures n == 0 ==> Newest(s[..|s| - 1] + [x], n) == Newest(s, n) == []
    ensures n > 0 ==> |Newest(s, n)| > 0 && Newest(s, n)[|Newest(s, n)| - 1] == s[|s| - 1]
    ensures n > 0 ==> Newest(s[..|s| - 1] + [x], n) == Newest(s, n)[..|Newest(s, n)| - 1] + [x]
  {
  }

  lemma NewestLength<T>(s: seq<T>, n: nat)
    ensures |Newest(s, n)| == if |s| <= n then |s| else n
  {
  }

  /** The newest `n` of a deque are the newest `n` of everything, as far as the deque reaches. */
  lemma TailOfNewest<T>(s: seq<T>, n: int, cap: nat)
    ensures var kept := Newest(s, cap);
            (if n <= 0 then [] else if n >= |kept| then kept else kept[|kept| - n..])
            == Newest(s, if n <= 0 then 0 else if n < cap then n else cap)
  {
  }

  lemma NewestOfNewest<T>(s: seq<T>, n: nat, m: nat)
    requires m <= n
    ensures Newest(Newest(s, n), m) == Newest(s, m)
  {
  }

  // ---- real arithmetic ----------------------------------------------------

  function Max(x: real, y: real): (r: real) { if x >= y then x else y }

  function Min(x: real, y: real): (r: real) { if x <= y then x else y }

  function Abs(x: real): (r: real) { if x >= 0.0 then x else -x }

  function Sum(xs: seq<real>): (r: real)
  {
    if xs == [] then 0.0 else Sum(xs[..|xs| - 1]) + xs[|xs| - 1]
  }

  lemma {:induction false} SumIsAdditive(xs: seq<real>, ys: seq<real>)
    ensures Sum(xs + ys) == Sum(xs) + Sum(ys)
    ensures |xs| == 1 ==> Sum(xs) == xs[0]
  {
    if ys == [] {
      assert xs + ys == xs;
    } else {
      var rest := ys[..|ys| - 1];
      SumIsAdditive(xs, rest);
      assert (xs + ys)[..|xs + ys| - 1] == xs + rest;
    }
    if |xs| == 1 {
      assert xs[..0] == [];
    }
  }

  function MaxOf(xs: seq<real>): (r: real)
    requires xs != []
    ensures r in xs
    ensures forall i :: 0 <= i < |xs| ==> xs[i] <= r
  {
    if |xs| == 1 then xs[0] else Max(MaxOf(xs[..|xs| - 1]), xs[|xs| - 1])
  }

  function MinOf(xs: seq<real>): (r: real)
    requires xs != []
    ensures r in xs
    ensures forall i :: 0 <= i < |xs| ==> r <= xs[i]
  {
    if |xs| == 1 then xs[0] else Min(MinOf(xs[..|xs| - 1]), xs[|xs| - 1])
  }

  /** A quotient compares with `b` as its numerator does with `b` times the denominator. */
  lemma QuotientAtLeast(a: real, b: real, d: real)
    requires d > 0.0
    ensures a / d >= b <==> a >= b * d
  {
    assert a == (a / d) * d;
    if a / d >= b { assert (a / d - b) * d >= 0.0; }
    if a / d < b { assert (b - a / d) * d > 0.0; }
  }

  lemma QuotientAtMost(a: real, b: real, d: real)
    requires d > 0.0
    ensures a / d <= b <==> a <= b * d
  {
    assert a == (a / d) * d;
    if a / d <= b { assert (b - a / d) * d >= 0.0; }
    if a / d > b { assert (a / d - b) * d > 0.0; }
  }
}
