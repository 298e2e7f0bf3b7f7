/**
 * `[...xs].sort(() => Math.random() - 0.5)`: a random comparator gives no
 * particular (and no uniform) order, but sorting only ever rearranges the
 * copy. The model therefore picks each next element arbitrarily and promises
 * exactly one thing: the result is a permutation of the input.
 */
module Shuffling {

  method Shuffle<T>(xs: seq<T>) returns (r: seq<T>)
    ensures multiset(r) == multiset(xs)
    ensures |r| == |xs|
  {
    r := [];
    var rest := xs;
    while rest != []
      invariant multiset(r) + multiset(rest) == multiset(xs)
      decreases |rest|
    {
      var i :| 0 <= i < |rest|;
      assert rest == rest[..i] + [rest[i]] + rest[i + 1..];
      r := r + [rest[i]];
      rest := rest[..i] + rest[i + 1..];
    }
    assert |r| == |multiset(r)|;
  }
}
