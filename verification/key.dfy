/** The fixed pentatonic distance mapper of the key module: five equal bins over [0.5, 3.5]
    carrying C3, D3, E3, G3, A3 from far to near, and the `Key` gate on the number of valid points. */
module Key {
  import opened Wrappers
  import opened Tables
  import opened Bins

  /** Module-level `min_range`, `max_range` and `section_size` (range split in five). */
  const MinRange: real := 0.5
  const MaxRange: real := 3.5
  const SectionSize: real := (MaxRange - MinRange) / 5.0

  /** Module-level `ranges`, far to near. */
  const Ranges: seq<Bin> := [
    Bin(MaxRange - SectionSize, MaxRange, "C3"),
    Bin(MaxRange - 2.0 * SectionSize, MaxRange - SectionSize, "D3"),
    Bin(MaxRange - 3.0 * SectionSize, MaxRange - 2.0 * SectionSize, "E3"),
    Bin(MaxRange - 4.0 * SectionSize, MaxRange - 3.0 * SectionSize, "G3"),
    Bin(MinRange, MaxRange - 4.0 * SectionSize, "A3")
  ]

  /** Position in the C-major table of each bin's note. */
  const BinKeys: seq<nat> := [7, 8, 9, 11, 12]

  /** The five bins are contiguous width-0.6 intervals partitioning [0.5, 3.5], and each bin's
      note is a pentatonic key whose frequency is that of the C-major entry it names. */
  lemma RangesFacts()
    ensures |Ranges| == 5 && Contiguous(Ranges) && Ordered(Ranges)
    ensures Ranges[0].hi == MaxRange && Ranges[4].lo == MinRange
    ensures forall i :: 0 <= i < 5 ==> Ranges[i].hi - Ranges[i].lo == 0.6
    ensures forall i :: 0 <= i < 5 ==> BinKeys[i] < |CMajor| && Ranges[i].note == CMajor[BinKeys[i]].name
    ensures forall i :: 0 <= i < 5 ==> Lookup(Pentatonic, Ranges[i].note) == Some(CMajor[BinKeys[i]].freq)
  {
    RangesGeometry();
    RangesLookup();
  }

  lemma RangesGeometry()
    ensures |Ranges| == 5 && Contiguous(Ranges) && Ordered(Ranges)
    ensures Ranges[0].hi == MaxRange && Ranges[4].lo == MinRange
    ensures forall i :: 0 <= i < 5 ==> Ranges[i].hi - Ranges[i].lo == 0.6
  {
  }

  lemma RangesLookup()
    ensures |Ranges| == 5
    ensures forall i :: 0 <= i < 5 ==> BinKeys[i] < |CMajor| && Ranges[i].note == CMajor[BinKeys[i]].name
    ensures forall i :: 0 <= i < 5 ==> Lookup(Pentatonic, Ranges[i].note) == Some(CMajor[BinKeys[i]].freq)
  {
    var p := PentatonicLiteral();
    forall i | 0 <= i < 5
      ensures BinKeys[i] < |CMajor| && Ranges[i].note == CMajor[BinKeys[i]].name
      ensures Lookup(Pentatonic, Ranges[i].note) == Some(CMajor[BinKeys[i]].freq)
    {
      RangeLookupAt(p, i);
    }
  }

  /** The pentatonic table spelled out. */
  lemma PentatonicLiteral() returns (p: seq<Entry>)
    ensures p == Pentatonic
    ensures p == [Entry("C3", 130.81), Entry("D3", 146.83), Entry("E3", 164.81), Entry("G3", 196.00),
                  Entry("A3", 220.00), Entry("C4", 261.63)]
  {
    p := [Entry("C3", 130.81), Entry("D3", 146.83), Entry("E3", 164.81), Entry("G3", 196.00),
          Entry("A3", 220.00), Entry("C4", 261.63)];
  }

  lemma RangeLookupAt(p: seq<Entry>, i: nat)
    requires i < 5
    requires p == [Entry("C3", 130.81), Entry("D3", 146.83), Entry("E3", 164.81), Entry("G3", 196.00),
                   Entry("A3", 220.00), Entry("C4", 261.63)]
    ensures BinKeys[i] < |CMajor| && Ranges[i].note == p[i].name && CMajor[BinKeys[i]] == p[i]
    ensures Ranges[i].note == CMajor[BinKeys[i]].name
    ensures Lookup(p, Ranges[i].note) == Some(CMajor[BinKeys[i]].freq)
  {
    assert Ranges[i].note == p[i].name && CMajor[BinKeys[i]] == p[i];
    assert forall j :: 0 <= j < i ==> p[j].name != p[i].name;
    LookupPrefix(p, i);
  }

  /** Module-level `get_frequency_from_distance`: 0 outside [minRange, maxRange]; otherwise the
      pentatonic frequency of the first module bin holding the distance, or 0 if none does.
      The bins themselves are fixed and do not follow the two range arguments. */
  function FrequencyFromDistance(d: real, minRange: real, maxRange: real): (f: real)
    ensures f != 0.0 ==> minRange <= d <= maxRange
    ensures f != 0.0 ==> exists i :: 0 <= i < 5 && Contains(Ranges[i], d) && f == CMajor[BinKeys[i]].freq
  {
    RangesFacts();
    if d < minRange || d > maxRange then 0.0
    else match FirstContaining(Ranges, d, 0)
      case Some(i) => Lookup(Pentatonic, Ranges[i].note).value
      case None => 0.0
  }

  /** Module-level `get_note_from_distance` (default range arguments). */
  function NoteFromDistance(d: real): (r: string)
    ensures r != "" ==> MinRange <= d <= MaxRange
    ensures r != "" ==> exists i :: 0 <= i < |CMajor| && r == CMajor[i].name
  {
    NoteFromZero(1.0);
    NoteFromFrequency(FrequencyFromDistance(d, MinRange, MaxRange), 1.0)
  }

  /** With the default arguments every distance in [0.5, 3.5] sounds the positive frequency of the
      first bin holding it, and every other distance is silent. */
  lemma FrequencyFromDistanceSpec(d: real)
    ensures d < MinRange || d > MaxRange ==> FrequencyFromDistance(d, MinRange, MaxRange) == 0.0
    ensures MinRange <= d <= MaxRange ==>
              && FirstContaining(Ranges, d, 0).Some?
              && var i := FirstContaining(Ranges, d, 0).value;
                 FrequencyFromDistance(d, MinRange, MaxRange) == CMajor[BinKeys[i]].freq > 0.0
  {
    RangesFacts();
    CMajorFacts();
    if MinRange <= d <= MaxRange {
      ContiguousCovers(Ranges, d, 0);
    }
  }

  /** The module-level note lookup names the bin note of every distance in [0.5, 3.5] and is ""
      elsewhere. */
  lemma NoteFromDistanceSpec(d: real)
    ensures d < MinRange || d > MaxRange ==> NoteFromDistance(d) == ""
    ensures MinRange <= d <= MaxRange ==>
              && FirstContaining(Ranges, d, 0).Some?
              && NoteFromDistance(d) == Ranges[FirstContaining(Ranges, d, 0).value].note
  {
    RangesFacts();
    FrequencyFromDistanceSpec(d);
    if MinRange <= d <= MaxRange {
      var i := FirstContaining(Ranges, d, 0).value;
      NoteFromFrequencyExact(BinKeys[i], 1.0);
    } else {
      NoteFromZero(1.0);
    }
  }

  /** The range arguments only move the outer guard: where both guards pass the result is the
      default one, and a distance that passes the guard below 0.5 or above 3.5 hits no bin and is 0. */
  lemma RangeArgumentsOnlyGuard(d: real, minRange: real, maxRange: real)
    ensures minRange <= d <= maxRange && MinRange <= d <= MaxRange ==>
              FrequencyFromDistance(d, minRange, maxRange) == FrequencyFromDistance(d, MinRange, MaxRange)
    ensures d < MinRange || d > MaxRange ==> FrequencyFromDistance(d, minRange, maxRange) == 0.0
  {
    RangesFacts();
    if d < MinRange || d > MaxRange {
      forall j | 0 < j < |Ranges|
        ensures !Contains(Ranges[j], d)
      {
        Descending(Ranges, 0, j);
        Descending(Ranges, j - 1, 4);
      }
    }
  }

  /** C4 is never returned: every result is 0 or the frequency of C3, D3, E3, G3 or A3. */
  lemma NeverC4(d: real, minRange: real, maxRange: real)
    ensures var f := FrequencyFromDistance(d, minRange, maxRange);
            f == 0.0 || exists i :: 0 <= i < 5 && f == CMajor[BinKeys[i]].freq
    ensures FrequencyFromDistance(d, minRange, maxRange) != CMajor[14].freq
  {
    RangesFacts();
    var f := FrequencyFromDistance(d, minRange, maxRange);
    assert CMajor[14].freq == 261.63;
    if !(d < minRange || d > maxRange) && FirstContaining(Ranges, d, 0).Some? {
      var i := FirstContaining(Ranges, d, 0).value;
      assert f == CMajor[BinKeys[i]].freq;
      PentatonicKeysBelowC4(i);
    }
  }

  lemma PentatonicKeysBelowC4(i: nat)
    requires i < 5
    ensures CMajor[BinKeys[i]].freq < CMajor[14].freq
  {
    CMajorSpread();
  }

  /** The distance 2.9 m, shared by the C3 and D3 bins, resolves to the earlier, farther, lower C3. */
  lemma SharedEdgeGoesFar()
    ensures Ranges[0].lo == Ranges[1].hi == 2.9
    ensures FrequencyFromDistance(2.9, MinRange, MaxRange) == CMajor[7].freq
  {
    RangesFacts();
  }

  /** 2.0 m lies in the third bin, [1.7, 2.3], and sounds E3. */
  lemma MiddleDistanceIsE3()
    ensures FrequencyFromDistance(2.0, MinRange, MaxRange) == CMajor[9].freq
    ensures NoteFromDistance(2.0) == "E3"
  {
    RangesFacts();
    assert Ranges[2].lo == 1.7 && Ranges[2].hi == 2.3;
    assert FirstContaining(Ranges, 2.0, 0) == Some(2);
    NoteFromFrequencyExact(9, 1.0);
  }

  /** A virtual key: its name and box bounds ((min x, y, z), (max x, y, z)); the overlay colour is omitted. */
  datatype Key = Key(name: string, bounds: ((real, real, real), (real, real, real)))

  /** `Key.get_frequency`: the default-range frequency, but only with more than 10 valid points. */
  function GetFrequency(k: Key, distance: real, validPoints: int): (f: real)
    ensures f != 0.0 ==> validPoints > 10 && MinRange <= distance <= MaxRange
  {
    if validPoints > 10 then FrequencyFromDistance(distance, MinRange, MaxRange) else 0.0
  }

  /** `Key.get_note`: the note name of that frequency, or "" when it is 0. */
  function GetNote(k: Key, distance: real, validPoints: int): (r: string)
    ensures r != "" ==> GetFrequency(k, distance, validPoints) > 0.0
    ensures r != "" ==> exists i :: 0 <= i < |CMajor| && r == CMajor[i].name
  {
    var f := GetFrequency(k, distance, validPoints);
    if f > 0.0 then NoteFromFrequency(f, 1.0) else ""
  }

  /** A key sounds, and names, the bin note of the distance exactly when it has more than 10 valid
      points and the distance lies in [0.5, 3.5]; otherwise it is silent and nameless. */
  lemma KeySpec(k: Key, distance: real, validPoints: int)
    ensures GetFrequency(k, distance, validPoints) > 0.0 <==>
              validPoints > 10 && MinRange <= distance <= MaxRange
    ensures GetNote(k, distance, validPoints) == "" <==> GetFrequency(k, distance, validPoints) == 0.0
    ensures validPoints > 10 && MinRange <= distance <= MaxRange ==>
              && FirstContaining(Ranges, distance, 0).Some?
              && GetNote(k, distance, validPoints) == Ranges[FirstContaining(Ranges, distance, 0).value].note
  {
    RangesFacts();
    FrequencyFromDistanceSpec(distance);
    if validPoints > 10 && MinRange <= distance <= MaxRange {
      var i := FirstContaining(Ranges, distance, 0).value;
      NoteFromFrequencyExact(BinKeys[i], 1.0);
    }
  }
}
