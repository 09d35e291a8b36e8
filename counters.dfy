/** The two running totals, `processed` and `failed`, read as counts over the
    history of classified replies (`true` for a success, in reply order). */
module Counters {

  /** How many replies in the history were successes. */
  function CountSuccess(h: seq<bool>): nat {
    if h == [] then 0 else CountSuccess(h[..|h| - 1]) + (if h[|h| - 1] then 1 else 0)
  }

  /** How many replies in the history were failures. */
  function CountFailure(h: seq<bool>): nat {
    if h == [] then 0 else CountFailure(h[..|h| - 1]) + (if h[|h| - 1] then 0 else 1)
  }

  /** Every classified reply counts exactly once, in one of the two totals. */
  lemma {:induction false} CountsPartition(h: seq<bool>)
    ensures CountSuccess(h) + CountFailure(h) == |h|
  {
    if h != [] {
      CountsPartition(h[..|h| - 1]);
    }
  }

  /** One more reply raises exactly one total by one: the success total on a
      success, the failure total otherwise. */
  lemma CountsAppend(h: seq<bool>, ok: bool)
    ensures CountSuccess(h + [ok]) == CountSuccess(h) + (if ok then 1 else 0)
    ensures CountFailure(h + [ok]) == CountFailure(h) + (if ok then 0 else 1)
  {
    assert (h + [ok])[..|h|] == h;
  }

  /** Neither total ever decreases as the history grows. */
  lemma {:induction false} CountsMonotone(h: seq<bool>, more: seq<bool>)
    ensures CountSuccess(h) <= CountSuccess(h + more)
    ensures CountFailure(h) <= CountFailure(h + more)
    decreases |more|
  {
    if more != [] {
      var last := more[|more| - 1];
      var init := more[..|more| - 1];
      CountsMonotone(h, init);
      assert h + more == (h + init) + [last];
      CountsAppend(h + init, last);
    } else {
      assert h + more == h;
    }
  }
}
