/** The two random draws the script makes, with the randomness supplied by the caller as a seed. */
module Randomness {
  import opened Wrappers

  /** random.randint(lo, hi): an integer of [lo, hi] chosen by the seed; an empty range raises ValueError. */
  function RandInt(lo: int, hi: int, seed: nat): (r: Result<int>)
    ensures r.Ok? <==> lo <= hi
    ensures r.Ok? ==> lo <= r.value <= hi
    ensures r.Err? ==> r.error == ValueError
  {
    if lo <= hi then Ok(lo + seed % (hi - lo + 1)) else Err(ValueError)
  }

  /** Every value of the range is drawn by some seed, so a property proved for all seeds holds for every draw. */
  lemma RandIntReaches(lo: int, hi: int, v: int)
    requires lo <= v <= hi
    ensures RandInt(lo, hi, (v - lo) as nat) == Ok(v)
  {
    assert (v - lo) % (hi - lo + 1) == v - lo;
  }

  /** random.choice(xs): an element chosen by the seed; an empty list raises IndexError. */
  function Choice<T>(xs: seq<T>, seed: nat): (r: Result<T>)
    ensures r.Ok? <==> |xs| > 0
    ensures r.Ok? ==> r.value in xs
    ensures r.Err? ==> r.error == IndexError
  {
    if |xs| > 0 then Ok(xs[seed % |xs|]) else Err(IndexError)
  }

  lemma ChoiceReaches<T>(xs: seq<T>, k: nat)
    requires k < |xs|
    ensures Choice(xs, k) == Ok(xs[k])
  {
  }
}
