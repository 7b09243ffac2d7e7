/** `freq_to_note` of the tuner: the C-major note nearest to a frequency, ties going to the
    earliest note as with Python's `min`. */
module Tuner {
  import opened Tables

  /** `abs(item[1] - freq)`, the key `min` compares. */
  function Distance(e: Entry, f: real): real
  {
    Abs(e.freq - f)
  }

  /** The position `min` returns when scanning the first `n` entries: a nearest entry, and no
      earlier entry is as near (a later entry replaces the candidate only when strictly nearer). */
  function NearestAmong(t: seq<Entry>, f: real, n: nat): (k: nat)
    requires 0 < n <= |t|
    ensures k < n
    ensures forall j :: 0 <= j < n ==> Distance(t[k], f) <= Distance(t[j], f)
    ensures forall j :: 0 <= j < k ==> Distance(t[j], f) > Distance(t[k], f)
  {
    if n == 1 then 0
    else
      var k := NearestAmong(t, f, n - 1);
      if Distance(t[n - 1], f) < Distance(t[k], f) then n - 1 else k
  }

  /** `freq_to_note`: "" for a frequency that is not positive, otherwise the name of the first
      C-major entry nearest to it. */
  function FreqToNote(f: real): (note: string)
    ensures f <= 0.0 ==> note == ""
    ensures f > 0.0 ==>
              exists k :: 0 <= k < |CMajor| && note == CMajor[k].name
                && (forall j :: 0 <= j < |CMajor| ==> Distance(CMajor[k], f) <= Distance(CMajor[j], f))
                && (forall j :: 0 <= j < k ==> Distance(CMajor[j], f) > Distance(CMajor[k], f))
  {
    if f <= 0.0 then ""
    else CMajor[NearestAmong(CMajor, f, |CMajor|)].name
  }

  /** Every table frequency maps back to its own note, because the table values are distinct. */
  lemma FreqToNoteExact(i: nat)
    requires i < |CMajor|
    ensures FreqToNote(CMajor[i].freq) == CMajor[i].name
  {
    CMajorSpread();
    NearestOwn(CMajor, i);
  }

  /** In a table of strictly increasing frequencies, an entry's own frequency is nearest to it alone. */
  lemma NearestOwn(t: seq<Entry>, i: nat)
    requires i < |t|
    requires forall a, b :: 0 <= a < b < |t| ==> t[a].freq < t[b].freq
    ensures NearestAmong(t, t[i].freq, |t|) == i
  {
    var f := t[i].freq;
    var k := NearestAmong(t, f, |t|);
    assert Distance(t[k], f) <= Distance(t[i], f) == 0.0;
  }
}
