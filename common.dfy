/** Shared vocabulary: trading actions, optional values, and the two pieces of
    JavaScript number semantics the pipeline relies on (`x || d` fallbacks and
    division that can produce NaN). */
module Common {

  datatype Option<T> = None | Some(value: T)

  /** The three trading decisions used by every component. */
  datatype Action = Buy | Sell | Hold

  /** A JavaScript number that is either finite or NaN. */
  datatype Number = Finite(value: real) | NaN

  /** JavaScript `a / b`. A zero divisor gives NaN; this is exact for `0 / 0`
      (the only zero division most call sites can reach), and stands in for
      the infinities JavaScript gives to a non-zero numerator. */
  function Div(a: real, b: real): (r: Number)
    ensures r.NaN? <==> b == 0.0
    ensures r.Finite? ==> r.value == a / b
  {
    if b == 0.0 then NaN else Finite(a / b)
  }

  /** JavaScript `x || d` on a number: the default replaces 0 and NaN. */
  function Or(x: Number, d: real): (r: real)
    ensures r == d || (x.Finite? && r == x.value && r != 0.0)
    ensures x.Finite? && x.value != 0.0 ==> r == x.value
  {
    if x.Finite? && x.value != 0.0 then x.value else d
  }

  /** JavaScript `x || d` on an optional number: the default also replaces
      `undefined`. */
  function OrOpt(x: Option<real>, d: real): (r: real)
    ensures r == d || (x.Some? && r == x.value && r != 0.0)
    ensures x.Some? && x.value != 0.0 ==> r == x.value
  {
    if x.Some? && x.value != 0.0 then x.value else d
  }

  /** `Math.min(a, b)` on integers. */
  function Min(a: int, b: int): (r: int)
    ensures r <= a && r <= b && (r == a || r == b)
  {
    if a <= b then a else b
  }

  /** The last `n` entries of `s` (all of `s` when it is shorter): the
      JavaScript `s.slice(-n)` for n > 0. */
  function Last<T>(s: seq<T>, n: nat): (r: seq<T>)
    ensures |r| == Min(|s|, n)
    ensures r == s[|s| - |r|..]
  {
    if |s| > n then s[|s| - n..] else s
  }

  /** The first `n` entries of `s`: the JavaScript `s.slice(0, n)`. */
  function Take<T>(s: seq<T>, n: nat): (r: seq<T>)
    ensures |r| == Min(|s|, n)
    ensures r == s[..|r|]
  {
    if |s| > n then s[..n] else s
  }

  /** Sum of a sequence, folded from the left as `reduce((a, b) => a + b, 0)`. */
  function Sum(s: seq<real>): real
  {
    if s == [] then 0.0 else Sum(s[..|s| - 1]) + s[|s| - 1]
  }

  lemma {:induction false} SumAppend(s: seq<real>, x: real)
    ensures Sum(s + [x]) == Sum(s) + x
  {
    assert (s + [x])[..|s + [x]| - 1] == s;
  }

  /** A sum of values in [lo, hi] lies in [n * lo, n * hi]. */
  lemma {:induction false} SumBounds(s: seq<real>, lo: real, hi: real)
    requires forall i :: 0 <= i < |s| ==> lo <= s[i] <= hi
    ensures |s| as real * lo <= Sum(s) <= |s| as real * hi
  {
    if s != [] {
      var p := s[..|s| - 1];
      assert forall i :: 0 <= i < |p| ==> p[i] == s[i];
      SumBounds(p, lo, hi);
      var n := |p| as real;
      assert |s| as real * lo == n * lo + lo;
      assert |s| as real * hi == n * hi + hi;
    }
  }

  /** A non-empty sum of positive values is positive. */
  lemma {:induction false} SumPositive(s: seq<real>)
    requires |s| >= 1 && forall i :: 0 <= i < |s| ==> s[i] > 0.0
    ensures Sum(s) > 0.0
  {
    var p := s[..|s| - 1];
    if p != [] {
      assert forall i :: 0 <= i < |p| ==> p[i] == s[i];
      SumPositive(p);
    }
  }

  /** One entry of a rule list: whether its condition holds, and its outcome. */
  datatype Rule<T> = Rule(fires: bool, outcome: T)

  /** An `if ... return` chain read as a list: the outcome of the first rule
      that fires, or the default when none does. */
  function FirstMatch<T>(rules: seq<Rule<T>>, default: T): (r: T)
    ensures (forall i :: 0 <= i < |rules| ==> !rules[i].fires) ==> r == default
    ensures forall i :: 0 <= i < |rules| && rules[i].fires && (forall j :: 0 <= j < i ==> !rules[j].fires) ==>
                r == rules[i].outcome
  {
    if rules == [] then default
    else if rules[0].fires then rules[0].outcome
    else
      var rest := rules[1..];
      assert forall i :: 1 <= i < |rules| ==> rules[i] == rest[i - 1];
      FirstMatch(rest, default)
  }

  /** A sequence in reverse order. */
  function Reverse<T>(s: seq<T>): (r: seq<T>)
    ensures |r| == |s|
    ensures forall i :: 0 <= i < |s| ==> r[i] == s[|s| - 1 - i]
  {
    if s == [] then [] else [s[|s| - 1]] + Reverse(s[..|s| - 1])
  }

  /** `[x, ...prev.slice(0, cap - 1)]`: a newest-first history capped at
      `cap` entries. */
  function PushCapped<T>(prev: seq<T>, x: T, cap: nat): (r: seq<T>)
    requires cap >= 1
    ensures |r| == Min(|prev| + 1, cap)
    ensures r[0] == x && r[1..] == prev[..|r| - 1]
  {
    [x] + Take(prev, cap - 1)
  }

  /** The history after pushing `xs` in order, oldest first. */
  function PushAll<T>(prev: seq<T>, xs: seq<T>, cap: nat): seq<T>
    requires cap >= 1
  {
    if xs == [] then prev else PushCapped(PushAll(prev, xs[..|xs| - 1], cap), xs[|xs| - 1], cap)
  }

  /** The product of two non-negative reals is non-negative. */
  lemma NonNegativeProduct(a: real, b: real)
    requires a >= 0.0 && b >= 0.0
    ensures a * b >= 0.0
  {
  }

  lemma TakeOfTake<T>(s: seq<T>, m: nat, n: nat)
    requires n <= m
    ensures Take(Take(s, m), n) == Take(s, n)
  {
  }

  lemma TakeCons<T>(x: T, s: seq<T>, n: nat)
    requires n >= 1
    ensures Take([x] + s, n) == [x] + Take(s, n - 1)
  {
  }

  lemma ReverseSnoc<T>(s: seq<T>)
    requires s != []
    ensures Reverse(s) == [s[|s| - 1]] + Reverse(s[..|s| - 1])
  {
  }

  /** Pushing one entry at a time keeps the newest `cap` entries, newest
      first, followed by what remains of the earlier history. */
  lemma {:induction false} PushAllNewestFirst<T>(prev: seq<T>, xs: seq<T>, cap: nat)
    requires cap >= 1 && |prev| <= cap
    ensures PushAll(prev, xs, cap) == Take(Reverse(xs) + prev, cap)
  {
    if xs == [] {
      assert Reverse(xs) + prev == prev;
    } else {
      var init, x := xs[..|xs| - 1], xs[|xs| - 1];
      var rest := Reverse(init) + prev;
      var before := PushAll(prev, init, cap);
      PushAllNewestFirst(prev, init, cap);
      assert PushAll(prev, xs, cap) == [x] + Take(before, cap - 1);
      TakeOfTake(rest, cap, cap - 1);
      ReverseSnoc(xs);
      assert Reverse(xs) + prev == [x] + rest;
      TakeCons(x, rest, cap);
    }
  }
}
