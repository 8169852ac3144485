/** The two genotype mutations of the GA that evolves ES configurations. Each position
    draws a uniform number in [0, 1) (coins[i]); the integer mutation also draws
    random_integers(num_options[i] - 1), uniform in [1, num_options[i] - 1] (picks[i]). */
module Genotype {

  /** 1/n bit-flip: position i becomes 1 - bits[i] when its coin is below p. */
  function Flipped(bits: seq<int>, coins: seq<real>, p: real): (r: seq<int>)
    requires |coins| == |bits|
    ensures |r| == |bits|
    ensures forall i :: 0 <= i < |bits| ==> (r[i] != bits[i] <==> coins[i] < p)
    ensures forall i :: 0 <= i < |bits| && coins[i] < p ==> r[i] == 1 - bits[i]
    ensures (forall i :: 0 <= i < |bits| ==> bits[i] in {0, 1}) ==> forall i :: 0 <= i < |r| ==> r[i] in {0, 1}
  {
    seq(|bits|, i requires 0 <= i < |bits| => if coins[i] < p then 1 - bits[i] else bits[i])
  }

  /** Flipping with the same coins twice restores the genotype. */
  lemma FlipTwice(bits: seq<int>, coins: seq<real>, p: real)
    requires |coins| == |bits|
    ensures Flipped(Flipped(bits, coins, p), coins, p) == bits
  {
  }

  /** mutateBitstring, in place on the genotype array. */
  method MutateBitstring(dna: array<int>, coins: seq<real>)
    requires dna.Length > 0 && |coins| == dna.Length
    modifies dna
    ensures dna[..] == Flipped(old(dna[..]), coins, 1.0 / dna.Length as real)
  {
    var n := dna.Length;
    var p := 1.0 / n as real;
    for i := 0 to n
      invariant forall k :: 0 <= k < i ==> dna[k] == (if coins[k] < p then 1 - old(dna[k]) else old(dna[k]))
      invariant forall k :: i <= k < n ==> dna[k] == old(dna[k])
    {
      if coins[i] < p {
        dna[i] := 1 - dna[i];
      }
    }
  }

  /** The replacement value of one mutated position: pick - 1, or num_options - 1 when that
      would repeat the old value. */
  function NewInt(current: int, options: int, pick: int): int {
    if pick - 1 == current then options - 1 else pick - 1
  }

  /** What the integer mutation draws must satisfy where it mutates: the option count is
      known for that position and the pick lies in [1, num_options[i] - 1]. */
  predicate Drawable(coins: seq<real>, picks: seq<int>, numOptions: seq<int>, p: real) {
    |picks| == |coins| &&
    forall i :: 0 <= i < |coins| && coins[i] < p ==> i < |numOptions| && 1 <= picks[i] <= numOptions[i] - 1
  }

  /** 1/n integer mutation: a position whose coin is below p gets a value in
      [0, num_options[i] - 1] that always differs from its old value; others are kept. */
  function MutatedInts(ints: seq<int>, numOptions: seq<int>, coins: seq<real>, picks: seq<int>, p: real): (r: seq<int>)
    requires |coins| == |ints| && Drawable(coins, picks, numOptions, p)
    ensures |r| == |ints|
    ensures forall i :: 0 <= i < |ints| && p <= coins[i] ==> r[i] == ints[i]
    ensures forall i :: 0 <= i < |ints| && coins[i] < p ==> r[i] != ints[i] && 0 <= r[i] <= numOptions[i] - 1
    ensures forall i :: 0 <= i < |ints| && coins[i] < p && picks[i] - 1 == ints[i] ==> r[i] == numOptions[i] - 1
  {
    seq(|ints|, i requires 0 <= i < |ints| => if coins[i] < p then NewInt(ints[i], numOptions[i], picks[i]) else ints[i])
  }

  /** mutateIntList, in place on the genotype array. */
  method MutateIntList(dna: array<int>, numOptions: seq<int>, coins: seq<real>, picks: seq<int>)
    requires dna.Length > 0 && |coins| == dna.Length
    requires Drawable(coins, picks, numOptions, 1.0 / dna.Length as real)
    modifies dna
    ensures dna[..] == MutatedInts(old(dna[..]), numOptions, coins, picks, 1.0 / dna.Length as real)
  {
    var n := dna.Length;
    var p := 1.0 / n as real;
    for i := 0 to n
      invariant forall k :: 0 <= k < i ==>
        dna[k] == (if coins[k] < p then NewInt(old(dna[k]), numOptions[k], picks[k]) else old(dna[k]))
      invariant forall k :: i <= k < n ==> dna[k] == old(dna[k])
    {
      if coins[i] < p {
        var newInt := picks[i] - 1;
        if dna[i] == newInt {
          newInt := numOptions[i] - 1;
        }
        dna[i] := newInt;
      }
    }
  }
}
