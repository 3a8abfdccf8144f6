/**
 * The self-service savings hook: the signed-in user's contributions as
 * fetched (an absent result defaults to the empty list) and their total.
 */
module Savings {
  import opened Wrappers
  import opened Ledger

  /** The query's state as the hook passes it through. */
  datatype Query = Query(data: Option<seq<Contribution>>, isLoading: bool, isError: bool, errorMessage: Option<string>)

  datatype SavingsState = SavingsState(
    contributions: seq<Contribution>,
    totalSavings: int,
    isLoading: bool,
    isError: bool,
    errorMessage: Option<string>)

  function UseSavings(q: Query): SavingsState {
    var contributions := q.data.GetOr([]);
    SavingsState(contributions, Total(contributions), q.isLoading, q.isError, q.errorMessage)
  }

  /**
   * The records are returned unchanged and in fetched order; with no data the
   * list is empty and the total 0; otherwise the total is the sum of the amounts,
   * additive over any split of the list and independent of its order.
   */
  lemma UseSavingsSpec(q: Query)
    ensures q.data.None? ==> UseSavings(q).contributions == [] && UseSavings(q).totalSavings == 0
    ensures q.data.Some? ==> UseSavings(q).contributions == q.data.value
    ensures forall i :: 0 <= i <= |UseSavings(q).contributions| ==>
              var cs := UseSavings(q).contributions;
              UseSavings(q).totalSavings == Total(cs[..i]) + Total(cs[i..])
  {
    var cs := UseSavings(q).contributions;
    forall i | 0 <= i <= |cs| ensures UseSavings(q).totalSavings == Total(cs[..i]) + Total(cs[i..]) {
      assert cs == cs[..i] + cs[i..];
      TotalAppend(cs[..i], cs[i..]);
    }
  }

  /** Two fetches holding the same records in any order report the same total. */
  lemma TotalSavingsOrderFree(q: Query, r: Query)
    requires q.data.Some? && r.data.Some? && multiset(q.data.value) == multiset(r.data.value)
    ensures UseSavings(q).totalSavings == UseSavings(r).totalSavings
  {
    TotalPermutation(q.data.value, r.data.value);
  }
}
