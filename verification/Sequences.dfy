/** Sequences put together, and repeated. */
module Sequences {
  import opened Arithmetic

  lemma Assoc<T>(a: seq<T>, b: seq<T>, c: seq<T>)
    ensures a + b + c == a + (b + c)
  {
  }

  lemma NoneAndNone<T>()
    ensures var none: seq<T> := []; none + none == none
  {
  }

  function Only<T>(mine: bool, es: seq<T>): seq<T> {
    if mine then es else []
  }

  /** `es`, `n` times over. */
  function Times<T>(es: seq<T>, n: nat): seq<T> {
    if n == 0 then [] else Times(es, n - 1) + es
  }

  lemma {:induction false} TimesLength<T>(hs: seq<T>, r: nat)
    ensures |Times(hs, r)| == |hs| * r
  {
    if r > 0 {
      TimesLength(hs, r - 1);
      assert |hs| * r == |hs| * (r - 1) + |hs|;
    }
  }

  /** Entry `i` of the repetition, which is in repetition `i / |hs|`. */
  lemma {:induction false} TimesAt<T>(hs: seq<T>, r: nat, q: nat, m: nat)
    requires q < r && m < |hs|
    ensures q * |hs| + m < |Times(hs, r)| && Times(hs, r)[q * |hs| + m] == hs[m]
  {
    TimesLength(hs, r - 1);
    if q < r - 1 {
      TimesAt(hs, r - 1, q, m);
    } else {
      assert q * |hs| == |hs| * (r - 1);
    }
  }

  lemma TimesNth<T>(hs: seq<T>, r: nat, i: nat)
    requires i < |Times(hs, r)| && hs != []
    ensures Times(hs, r)[i] == hs[i % |hs|]
  {
    TimesLength(hs, r);
    QuotientBelow(i, |hs|, r);
    TimesAt(hs, r, i / |hs|, i % |hs|);
  }
}
