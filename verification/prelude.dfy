/** Small shared vocabulary: optional values, and helpers on integers, sequences and maps. */
module Prelude {

  datatype Option<+T> = None | Some(value: T)

  /** A point in time, as a count of seconds since some fixed epoch. */
  type Time = nat

  function Max(a: int, b: int): int { if a < b then b else a }

  function Min(a: int, b: int): int { if a < b then a else b }

  ghost predicate NoDuplicates<T>(s: seq<T>) {
    forall i, j | 0 <= i < j < |s| :: s[i] != s[j]
  }

  function SetOf<T>(s: seq<T>): set<T> { set x | x in s }

  lemma {:induction false} DistinctSize<T>(s: seq<T>)
    requires NoDuplicates(s)
    ensures |SetOf(s)| == |s|
  {
    if s != [] {
      var init, last := s[..|s| - 1], s[|s| - 1];
      DistinctSize(init);
      assert s == init + [last];
      assert SetOf(s) == SetOf(init) + {last};
    }
  }

  /** Every binding of `m` is also a binding of `n`. */
  ghost predicate Submap<K, V>(m: map<K, V>, n: map<K, V>) {
    && m.Keys <= n.Keys
    && forall k | k in m :: n[k] == m[k]
  }

  /** The first position of `x` in `s`, or -1. */
  function IndexOf<T(==)>(s: seq<T>, x: T): (i: int)
    ensures -1 <= i < |s|
    ensures i == -1 <==> x !in s
    ensures i >= 0 ==> s[i] == x
  {
    if s == [] then -1
    else if s[0] == x then 0
    else
      var rest := IndexOf(s[1..], x);
      if rest < 0 then -1 else rest + 1
  }

  lemma {:induction false} IndexOfIsFirst<T>(s: seq<T>, x: T)
    ensures IndexOf(s, x) >= 0 ==> x !in s[..IndexOf(s, x)]
  {
    if s != [] && s[0] != x && x in s {
      IndexOfIsFirst(s[1..], x);
      assert s[..IndexOf(s[1..], x) + 1] == [s[0]] + s[1..][..IndexOf(s[1..], x)];
    }
  }

  /** The first position whose element meets a condition, or the end. */
  function FirstWhere<T>(s: seq<T>, p: T -> bool): (n: nat)
    ensures n <= |s|
    ensures n < |s| ==> p(s[n])
    ensures forall k | 0 <= k < n :: !p(s[k])
  {
    if s == [] || p(s[0]) then 0 else 1 + FirstWhere(s[1..], p)
  }

  /** What holds of nothing and survives one more element holds of every sequence. */
  lemma {:induction false} SnocInduction<T(!new)>(claim: seq<T> -> bool, s: seq<T>)
    requires claim([])
    requires forall init, last :: claim(init) ==> claim(init + [last])
    ensures claim(s)
    decreases |s|
  {
    if s != [] {
      SnocInduction(claim, s[..|s| - 1]);
      assert s == s[..|s| - 1] + [s[|s| - 1]];
    }
  }
}
