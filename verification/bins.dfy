/** Distance bins `(min_sect, max_sect, note)` and the first-match scan over them that both
    distance-to-note mappers use (`for min_sect, max_sect, note in ranges: if min_sect <= d <= max_sect`). */
module Bins {
  import opened Wrappers

  /** A closed distance interval [lo, hi] in meters carrying a note name. */
  datatype Bin = Bin(lo: real, hi: real, note: string)

  predicate Contains(b: Bin, d: real)
  {
    b.lo <= d <= b.hi
  }

  /** Index of the first bin at or after `k` whose closed interval contains `d`. */
  function FirstContaining(bins: seq<Bin>, d: real, k: nat): (r: Option<nat>)
    requires k <= |bins|
    ensures r.Some? ==> k <= r.value < |bins| && Contains(bins[r.value], d)
    ensures r.Some? ==> forall j :: k <= j < r.value ==> !Contains(bins[j], d)
    ensures r.None? ==> forall j :: k <= j < |bins| ==> !Contains(bins[j], d)
    decreases |bins| - k
  {
    if k == |bins| then None
    else if Contains(bins[k], d) then Some(k)
    else FirstContaining(bins, d, k + 1)
  }

  /** Each bin's lower end is the next bin's upper end: the bins run from far to near without gaps. */
  predicate Contiguous(bins: seq<Bin>)
  {
    forall i :: 0 <= i < |bins| - 1 ==> bins[i].lo == bins[i + 1].hi
  }

  /** Every bin is a proper (possibly degenerate) interval. */
  predicate Ordered(bins: seq<Bin>)
  {
    forall i :: 0 <= i < |bins| ==> bins[i].lo <= bins[i].hi
  }

  /** Contiguous bins cover everything between the last bin's lower end and bin k's upper end. */
  lemma {:induction false} ContiguousCovers(bins: seq<Bin>, d: real, k: nat)
    requires Contiguous(bins) && k < |bins|
    requires bins[|bins| - 1].lo <= d <= bins[k].hi
    ensures FirstContaining(bins, d, k).Some?
    decreases |bins| - k
  {
    if !Contains(bins[k], d) {
      ContiguousCovers(bins, d, k + 1);
    }
  }

  /** In contiguous, ordered bins a later bin lies entirely at or below an earlier one. */
  lemma {:induction false} Descending(bins: seq<Bin>, i: nat, j: nat)
    requires Contiguous(bins) && Ordered(bins) && i < j < |bins|
    ensures bins[j].hi <= bins[i].lo
    decreases j - i
  {
    if i + 1 < j {
      Descending(bins, i + 1, j);
    }
  }

  /** A nearer distance never resolves to an earlier (farther) bin than a farther distance does. */
  lemma FirstContainingAntitone(bins: seq<Bin>, d1: real, d2: real)
    requires Contiguous(bins) && Ordered(bins) && d1 < d2
    requires FirstContaining(bins, d1, 0).Some? && FirstContaining(bins, d2, 0).Some?
    ensures FirstContaining(bins, d2, 0).value <= FirstContaining(bins, d1, 0).value
  {
    var i1 := FirstContaining(bins, d1, 0).value;
    var i2 := FirstContaining(bins, d2, 0).value;
    if i1 < i2 {
      Descending(bins, i1, i2);
    }
  }

  function Midpoint(b: Bin): real
  {
    (b.lo + b.hi) / 2.0
  }

  /** The midpoint of a bin of positive width resolves to that bin and to no earlier one. */
  lemma MidpointResolves(bins: seq<Bin>, i: nat)
    requires Contiguous(bins) && Ordered(bins) && i < |bins| && bins[i].lo < bins[i].hi
    ensures FirstContaining(bins, Midpoint(bins[i]), 0) == Some(i)
  {
    var d := Midpoint(bins[i]);
    forall j | 0 <= j < i
      ensures !Contains(bins[j], d)
    {
      Descending(bins, j, i);
    }
    assert Contains(bins[i], d);
  }
}
