/** Melody orchestration: for each requested note, the first sector whose mapper has a bin for
    that note, the bin's midpoint distance, and the frequency the mapper resolves that distance to. */
module Orchestrate {
  import opened Wrappers
  import opened Tables
  import opened Bins
  import opened Voices

  /** Index of the first bin at or after `k` carrying `note`. */
  function FirstCarrying(bins: seq<Bin>, note: string, k: nat): (r: Option<nat>)
    requires k <= |bins|
    ensures r.Some? ==> k <= r.value < |bins| && bins[r.value].note == note
    ensures r.Some? ==> forall j :: k <= j < r.value ==> bins[j].note != note
    ensures r.None? ==> forall j :: k <= j < |bins| ==> bins[j].note != note
    decreases |bins| - k
  {
    if k == |bins| then None
    else if bins[k].note == note then Some(k)
    else FirstCarrying(bins, note, k + 1)
  }

  /** `get_distance_for_note`: the midpoint of the first bin carrying the note, or None when no bin
      does; the midpoint lies inside that bin. */
  function DistanceForNote(note: string, bins: seq<Bin>): (r: Option<real>)
    ensures r.None? <==> forall j :: 0 <= j < |bins| ==> bins[j].note != note
    ensures r.Some? ==>
              && FirstCarrying(bins, note, 0).Some?
              && var i := FirstCarrying(bins, note, 0).value;
                 && r.value == Midpoint(bins[i])
                 && (bins[i].lo <= bins[i].hi ==> bins[i].lo <= r.value <= bins[i].hi)
  {
    match FirstCarrying(bins, note, 0)
    case Some(i) => Some(Midpoint(bins[i]))
    case None => None
  }

  /** A sector name and its mapper, in the insertion order of the `sectors_map` dictionary. */
  type SectorMap = seq<(string, Mapper)>

  /** One orchestration entry: sector, note, distance and frequency (None when unmapped). */
  datatype Orchestrated = Orchestrated(sector: Option<string>, note: string, distance: Option<real>, frequency: Option<real>)

  predicate AllKnown(sectors: SectorMap)
  {
    forall s :: 0 <= s < |sectors| ==> KnownNotes(sectors[s].1.ranges)
  }

  /** Index of the first sector at or after `k` whose bins carry `note`. */
  function FirstSector(sectors: SectorMap, note: string, k: nat): (r: Option<nat>)
    requires k <= |sectors|
    ensures r.Some? ==> k <= r.value < |sectors| && DistanceForNote(note, sectors[r.value].1.ranges).Some?
    ensures r.Some? ==> forall j :: k <= j < r.value ==> DistanceForNote(note, sectors[j].1.ranges).None?
    ensures r.None? ==> forall j :: k <= j < |sectors| ==> DistanceForNote(note, sectors[j].1.ranges).None?
    decreases |sectors| - k
  {
    if k == |sectors| then None
    else if DistanceForNote(note, sectors[k].1.ranges).Some? then Some(k)
    else FirstSector(sectors, note, k + 1)
  }

  /** The entry for one note of the melody. */
  function ConvertNote(note: string, sectors: SectorMap): (e: Orchestrated)
    requires AllKnown(sectors)
    ensures e.note == note
    ensures e.sector.None? <==> forall s :: 0 <= s < |sectors| ==> DistanceForNote(note, sectors[s].1.ranges).None?
    ensures e.sector.None? ==> e.distance.None? && e.frequency.None?
    ensures e.sector.Some? ==>
              && FirstSector(sectors, note, 0).Some?
              && var s := FirstSector(sectors, note, 0).value;
                 && e.sector.value == sectors[s].0
                 && e.distance == DistanceForNote(note, sectors[s].1.ranges)
                 && e.frequency == Some(FrequencyFromDistance(sectors[s].1, e.distance.value))
  {
    match FirstSector(sectors, note, 0)
    case Some(s) =>
      var (name, mapper) := sectors[s];
      var d := DistanceForNote(note, mapper.ranges).value;
      Orchestrated(Some(name), note, Some(d), Some(FrequencyFromDistance(mapper, d)))
    case None => Orchestrated(None, note, None, None)
  }

  /** `convert_melody`: one entry per melody note, in order. */
  function ConvertMelody(melody: seq<string>, sectors: SectorMap): (r: seq<Orchestrated>)
    requires AllKnown(sectors)
    ensures |r| == |melody|
    ensures forall i :: 0 <= i < |melody| ==> r[i].note == melody[i] && r[i] == ConvertNote(melody[i], sectors)
  {
    seq(|melody|, i requires 0 <= i < |melody| => ConvertNote(melody[i], sectors))
  }

  /** Every sector mapper was produced by the mapper constructor. */
  predicate AllBuilt(sectors: SectorMap)
  {
    forall s :: 0 <= s < |sectors| ==> Built(sectors[s].1)
  }

  lemma AllBuiltKnown(sectors: SectorMap)
    requires AllBuilt(sectors)
    ensures AllKnown(sectors)
  {
    forall s | 0 <= s < |sectors|
      ensures KnownNotes(sectors[s].1.ranges)
    {
      BuiltFacts(sectors[s].1);
    }
  }

  /** The note requested is the note played: when the chosen mapper's range is not empty, the
      midpoint distance resolves to the requested note's C3..C4 frequency, which reads back as
      that note. */
  lemma PlayedIsRequested(note: string, sectors: SectorMap)
    requires AllBuilt(sectors)
    ensures AllKnown(sectors)
    ensures var e := ConvertNote(note, sectors);
            e.sector.Some? && sectors[FirstSector(sectors, note, 0).value].1.config.minRange
                                < sectors[FirstSector(sectors, note, 0).value].1.config.maxRange ==>
              && e.frequency == Lookup(C3C4, note)
              && e.frequency.value > 0.0
              && NoteFromFrequency(e.frequency.value, 1.0) == note
  {
    AllBuiltKnown(sectors);
    var e := ConvertNote(note, sectors);
    if e.sector.Some? {
      var s := FirstSector(sectors, note, 0).value;
      var m := sectors[s].1;
      if m.config.minRange < m.config.maxRange {
        var i := FirstCarrying(m.ranges, note, 0).value;
        MidpointPlaysBin(m, i);
      }
    }
  }

  /** In a constructed mapper with a non-empty range, a bin's midpoint is in range, resolves to that
      bin, and sounds and names the bin's note. */
  lemma MidpointPlaysBin(m: Mapper, i: nat)
    requires Built(m) && m.config.minRange < m.config.maxRange && i < |m.ranges|
    ensures KnownNotes(m.ranges)
    ensures m.config.minRange <= Midpoint(m.ranges[i]) <= m.config.maxRange
    ensures FirstContaining(m.ranges, Midpoint(m.ranges[i]), 0) == Some(i)
    ensures Some(FrequencyFromDistance(m, Midpoint(m.ranges[i]))) == Lookup(C3C4, m.ranges[i].note)
    ensures FrequencyFromDistance(m, Midpoint(m.ranges[i])) > 0.0
    ensures NoteFromDistance(m, Midpoint(m.ranges[i])) == m.ranges[i].note
  {
    MidpointInBin(m, i);
    var d := Midpoint(m.ranges[i]);
    var k := KeyAt(m, d);
    NoteInRange(m, d);
    KeyFrequency(k);
  }

  /** The midpoint of any bin of a constructed mapper with a non-empty range lies in the range and
      resolves to that bin. */
  lemma MidpointInBin(m: Mapper, i: nat)
    requires Built(m) && m.config.minRange < m.config.maxRange && i < |m.ranges|
    ensures m.config.minRange <= Midpoint(m.ranges[i]) <= m.config.maxRange
    ensures FirstContaining(m.ranges, Midpoint(m.ranges[i]), 0) == Some(i)
  {
    BuiltGeometry(m);
    var w := Width(m.config.minRange, m.config.maxRange, |m.ranges|);
    PositiveWidth(m.config.minRange, m.config.maxRange, |m.ranges|);
    MidpointInSpan(m.ranges, i, m.config.minRange, m.config.maxRange, w);
  }

  lemma MidpointInSpan(bins: seq<Bin>, i: nat, lo: real, hi: real, w: real)
    requires Contiguous(bins) && Ordered(bins) && i < |bins| && w > 0.0
    requires bins[0].hi == hi && bins[|bins| - 1].lo == lo
    requires forall k :: 0 <= k < |bins| ==> bins[k].hi - bins[k].lo == w
    ensures lo <= Midpoint(bins[i]) <= hi
    ensures FirstContaining(bins, Midpoint(bins[i]), 0) == Some(i)
  {
    assert bins[i].lo < bins[i].hi;
    if i > 0 {
      Descending(bins, 0, i);
    }
    if i < |bins| - 1 {
      Descending(bins, i, |bins| - 1);
    }
    MidpointResolves(bins, i);
  }

  lemma PositiveWidth(minRange: real, maxRange: real, n: nat)
    requires n > 0 && minRange < maxRange
    ensures Width(minRange, maxRange, n) > 0.0
  {
  }

  /** A rest ("") or any name outside C3..C4 is carried by no constructed mapper, so its entry is
      unmapped. */
  lemma UnknownNoteUnmapped(note: string, sectors: SectorMap)
    requires AllBuilt(sectors)
    requires note !in C3C4Names
    ensures AllKnown(sectors)
    ensures ConvertNote(note, sectors) == Orchestrated(None, note, None, None)
  {
    AllBuiltKnown(sectors);
    forall s | 0 <= s < |sectors|
      ensures DistanceForNote(note, sectors[s].1.ranges).None?
    {
      BuiltFacts(sectors[s].1);
    }
  }
}
