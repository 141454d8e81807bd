/** Sums of real amounts kept per symbol. */
module Sums {
  import opened Models

  ghost function Sum(amounts: map<string, real>): real
    decreases |amounts|
  {
    if amounts == map[] then 0.0
    else
      var k :| k in amounts;
      amounts[k] + Sum(amounts - {k})
  }

  function At(amounts: map<string, real>, k: string): real {
    if k in amounts then amounts[k] else 0.0
  }

  /** Any key may be split off first. */
  lemma {:induction false} SumSplit(amounts: map<string, real>, k: string)
    requires k in amounts
    ensures Sum(amounts) == amounts[k] + Sum(amounts - {k})
    decreases |amounts|
  {
    var j :| j in amounts && Sum(amounts) == amounts[j] + Sum(amounts - {j});
    if j != k {
      SumSplit(amounts - {j}, k);
      SumSplit(amounts - {k}, j);
      assert amounts - {j} - {k} == amounts - {k} - {j};
    }
  }

  lemma SumRemove(amounts: map<string, real>, k: string)
    ensures Sum(amounts - {k}) == Sum(amounts) - At(amounts, k)
  {
    if k in amounts {
      SumSplit(amounts, k);
    } else {
      assert amounts - {k} == amounts;
    }
  }

  lemma SumUpdate(amounts: map<string, real>, k: string, v: real)
    ensures Sum(amounts[k := v]) == Sum(amounts) - At(amounts, k) + v
  {
    SumSplit(amounts[k := v], k);
    assert amounts[k := v] - {k} == amounts - {k};
    SumRemove(amounts, k);
  }

  lemma TimesNext(count: int, step: real)
    ensures Times(count + 1, step) == Times(count, step) + step
  {}

  /** A sum of amounts that are each at most `bound` is at most `bound` per key. */
  lemma {:induction false} SumBound(amounts: map<string, real>, bound: real)
    requires forall k :: k in amounts ==> amounts[k] <= bound
    ensures Sum(amounts) <= Times(|amounts|, bound)
    decreases |amounts|
  {
    if amounts != map[] {
      var k :| k in amounts;
      SumSplit(amounts, k);
      var rest := amounts - {k};
      assert rest.Keys == amounts.Keys - {k};
      SumBound(rest, bound);
      assert |amounts| == |rest| + 1;
      TimesNext(|rest|, bound);
      hide Times;
    }
  }

  lemma {:induction false} SumNonNegative(amounts: map<string, real>)
    requires forall k :: k in amounts ==> 0.0 <= amounts[k]
    ensures 0.0 <= Sum(amounts)
    decreases |amounts|
  {
    if amounts != map[] {
      var k :| k in amounts;
      SumSplit(amounts, k);
      SumNonNegative(amounts - {k});
    }
  }
}
