/** Python's list slicing and the list concatenation done by `extend` loops. */
module Seqs {

  function Min(a: int, b: int): int
  {
    if a <= b then a else b
  }

  /** Python's normalisation of a slice bound `i` for a sequence of length `n`:
      negative bounds count from the end, and everything is clamped to [0, n]. */
  function SliceIndex(i: int, n: nat): (k: nat)
    ensures k <= n
    ensures 0 <= i <= n ==> k == i
    ensures i < 0 && i + n >= 0 ==> k == i + n
  {
    if i < 0 then (if i + n < 0 then 0 else i + n)
    else if i > n then n
    else i
  }

  /** Python's `s[start:stop]`. */
  function PySlice<T>(s: seq<T>, start: int, stop: int): (r: seq<T>)
    ensures |r| <= |s|
  {
    var i, j := SliceIndex(start, |s|), SliceIndex(stop, |s|);
    if i < j then s[i..j] else []
  }

  /** Python's `s[:n]` for `n >= 0`: the first `n` elements, or all of them. */
  lemma TakePrefix<T>(s: seq<T>, n: nat)
    ensures |PySlice(s, 0, n)| == Min(n, |s|)
    ensures PySlice(s, 0, n) == s[..Min(n, |s|)]
  {
  }

  /** The in-order concatenation of `f(q)` over the queries `qs`: what a loop
      `for q in qs: acc.extend(f(q))` leaves in `acc`, starting from `[]`. */
  function Concat<Q, T>(qs: seq<Q>, f: Q -> seq<T>): seq<T>
  {
    if qs == [] then [] else Concat(qs[..|qs| - 1], f) + f(qs[|qs| - 1])
  }

  /** The concatenation is the sum of its parts, and splits along the queries. */
  lemma {:induction false} ConcatAppend<Q, T>(qs: seq<Q>, rs: seq<Q>, f: Q -> seq<T>)
    ensures Concat(qs + rs, f) == Concat(qs, f) + Concat(rs, f)
    decreases |rs|
  {
    if rs == [] {
      assert qs + rs == qs;
    } else {
      var n := |rs| - 1;
      assert (qs + rs)[..|qs + rs| - 1] == qs + rs[..n];
      ConcatAppend(qs, rs[..n], f);
    }
  }

  /** An element is in the concatenation exactly when one of the parts holds it. */
  lemma {:induction false} ConcatMember<Q, T>(qs: seq<Q>, f: Q -> seq<T>, x: T)
    ensures x in Concat(qs, f) <==> exists i :: 0 <= i < |qs| && x in f(qs[i])
  {
    if qs != [] {
      var n := |qs| - 1;
      ConcatMember(qs[..n], f, x);
      if x in Concat(qs, f) {
        if x !in Concat(qs[..n], f) {
          assert x in f(qs[n]);
        }
      } else {
        forall i | 0 <= i < |qs| ensures x !in f(qs[i]) {
          if i < n {
            assert qs[..n][i] == qs[i];
          }
        }
      }
    }
  }

  /** If every part has at most `k` elements, the concatenation has at most `k * |qs|`. */
  lemma {:induction false} ConcatBound<Q, T>(qs: seq<Q>, f: Q -> seq<T>, k: nat)
    requires forall i :: 0 <= i < |qs| ==> |f(qs[i])| <= k
    ensures |Concat(qs, f)| <= k * |qs|
  {
    if qs != [] {
      var n := |qs| - 1;
      forall i | 0 <= i < n ensures |f(qs[..n][i])| <= k {
        assert qs[..n][i] == qs[i];
      }
      ConcatBound(qs[..n], f, k);
    }
  }

  /** Concatenations of parts that agree query by query are equal. */
  lemma {:induction false} ConcatCongruence<Q, T>(qs: seq<Q>, f: Q -> seq<T>, g: Q -> seq<T>)
    requires forall i :: 0 <= i < |qs| ==> f(qs[i]) == g(qs[i])
    ensures Concat(qs, f) == Concat(qs, g)
  {
    if qs != [] {
      var n := |qs| - 1;
      forall i | 0 <= i < n ensures f(qs[..n][i]) == g(qs[..n][i]) {
        assert qs[..n][i] == qs[i];
      }
      ConcatCongruence(qs[..n], f, g);
    }
  }
}
