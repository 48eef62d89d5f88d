/** Slices of sequences, spelled out where a proof needs them. */
module Sequences {

  lemma SliceConcat<T>(xs: seq<T>, ys: seq<T>, n: nat)
    requires n <= |xs|
    ensures (xs + ys)[..n] == xs[..n] && (xs + ys)[n..] == xs[n..] + ys
  {
  }

  /** A prefix of what follows place n is the run of that length from n on. */
  lemma SliceOfSlice<T>(xs: seq<T>, n: nat, m: nat)
    requires n + m <= |xs|
    ensures xs[n..][..m] == xs[n..n + m]
    ensures m > 0 ==> xs[n..][m - 1] == xs[n + m - 1]
  {
  }

  lemma DropOfDrop<T>(xs: seq<T>, n: nat, m: nat)
    requires n + m <= |xs|
    ensures xs[n..][m..] == xs[n + m..]
  {
  }

  lemma TakeOfTake<T>(xs: seq<T>, n: nat, m: nat)
    requires n <= m <= |xs|
    ensures xs[..m][..n] == xs[..n]
  {
  }
}
