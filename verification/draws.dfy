/**
  The randomness of the samplers, made explicit.  `random.choice` uses
  Python's `random` state and `np.random.randint` uses NumPy's, two independent
  generators.  Here one arbitrary supply of numbers (an oracle) stands for both,
  consumed from the front in program order; this loses no behaviour, since
  every interleaving of the two generators' outputs is a possible supply.  A
  draw from a non-empty sequence of length n takes the supplied number modulo
  n, so every element can be drawn (ChooseReachesEvery).
*/
module Draws {
  import opened Outcome

  /** A finite supply of random numbers, consumed from the front. */
  type Oracle = seq<nat>

  /** Why a sampler call produced no sample. */
  datatype Fault =
    | EmptyChoice                   // random.choice on an empty sequence raises IndexError
    | NoSuchDirectory(path: string) // os.listdir on a path that is not a directory
    | NonPositiveBound              // np.random.randint(n) with n <= 0 raises ValueError
    | OutOfDraws                    // the supplied oracle was too short (not a behaviour of the program)
    | Diverges                      // the program enters a loop it can never leave

  /** A drawn item together with the oracle that remains. */
  datatype Drawn<+T> = Drawn(item: T, rest: Oracle)

  /** `random.choice(xs)`: the emptiness check comes before any randomness is used. */
  function Choose<T>(xs: seq<T>, o: Oracle): (r: Result<Drawn<T>, Fault>)
    ensures r.Ok? <==> |xs| > 0 && |o| > 0
    ensures |xs| == 0 ==> r == Err(EmptyChoice)
    ensures |xs| > 0 && |o| == 0 ==> r == Err(OutOfDraws)
    ensures r.Ok? ==> r.value.item in xs && r.value.rest == o[1..]
  {
    if |xs| == 0 then Err(EmptyChoice)
    else if |o| == 0 then Err(OutOfDraws)
    else Ok(Drawn(xs[o[0] % |xs|], o[1..]))
  }

  /** Every element of a non-empty sequence is the outcome of some draw. */
  lemma ChooseReachesEvery<T>(xs: seq<T>, j: nat, o: Oracle)
    requires j < |xs|
    ensures Choose(xs, [j] + o) == Ok(Drawn(xs[j], o))
  {
    assert ([j] + o)[1..] == o;
  }

  /** `np.random.randint(n)`: a number in [0, n), or an error when n <= 0. */
  function RandBelow(n: int, o: Oracle): (r: Result<Drawn<nat>, Fault>)
    ensures r.Ok? <==> n > 0 && |o| > 0
    ensures n <= 0 ==> r == Err(NonPositiveBound)
    ensures n > 0 && |o| == 0 ==> r == Err(OutOfDraws)
    ensures r.Ok? ==> r.value.item < n && r.value.rest == o[1..]
  {
    if n <= 0 then Err(NonPositiveBound)
    else if |o| == 0 then Err(OutOfDraws)
    else Ok(Drawn(o[0] % n, o[1..]))
  }

  /** Every number below a positive bound is the outcome of some draw. */
  lemma RandBelowReachesEvery(n: int, j: nat, o: Oracle)
    requires j < n
    ensures RandBelow(n, [j] + o) == Ok(Drawn(j, o))
  {
    assert ([j] + o)[1..] == o;
  }
}
