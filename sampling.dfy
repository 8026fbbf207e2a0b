/** numpy's `np.random.default_rng(seed).choice(n, k, replace=False)`. The generator
    itself is foreign code and is not reproduced: it is a parameter `sample`, and
    the model relies only on what numpy promises of it (`IsSampler`). Being a
    function, it returns the same indices for the same arguments. */
module Sampling {
  import opened Results

  /** `sample(n, k, seed)`: the indices drawn from `range(n)`, in draw order. */
  type Sampler = (nat, nat, nat) -> seq<nat>

  /** `k` distinct indices below `n`. */
  predicate ValidDraw(idxs: seq<nat>, n: nat, k: nat) {
    && |idxs| == k
    && (forall j :: 0 <= j < |idxs| ==> idxs[j] < n)
    && (forall i, j :: 0 <= i < j < |idxs| ==> idxs[i] != idxs[j])
  }

  /** What numpy guarantees of a draw without replacement that it accepts. */
  ghost predicate IsSampler(sample: Sampler) {
    forall n: nat, k: nat, seed: nat {:trigger sample(n, k, seed)} ::
      k <= n ==> ValidDraw(sample(n, k, seed), n, k)
  }

  /** The call as the loaders make it: numpy raises ValueError for a negative size
      and for more samples than the population holds. */
  function Choose(sample: Sampler, n: nat, k: int, seed: nat): (r: Result<seq<nat>>)
    requires IsSampler(sample)
    ensures r.Ok? <==> 0 <= k <= n
    ensures r.Ok? ==> ValidDraw(r.value, n, k)
    ensures r.Err? ==> r.error == ValueError
  {
    if k < 0 || k > n then Err(ValueError) else Ok(sample(n, k, seed))
  }

  /** A draw that meets the contract: the first `k` indices. */
  function FirstIndices(n: nat, k: nat, seed: nat): seq<nat> {
    seq(k, i requires 0 <= i < k => i as nat)
  }

  /** So the contract can be met. */
  lemma {:induction false} FirstIndicesIsSampler()
    ensures IsSampler(FirstIndices)
  {
    forall n: nat, k: nat, seed: nat | k <= n
      ensures ValidDraw(FirstIndices(n, k, seed), n, k)
    {
    }
  }
}
