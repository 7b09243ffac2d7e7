/** `DistanceToNoteMapper`: splits a distance range into equal-width bins, one per note of a
    sub-range of C3..C4, nearest bin carrying the highest note, and resolves a distance to a
    frequency and a note name. */
module Voices {
  import opened Wrappers
  import opened Tables
  import opened Bins

  /** The mapper's four settings: `min_range`, `max_range`, `lowest_note`, `highest_note`. */
  datatype MapperConfig = MapperConfig(minRange: real, maxRange: real, lowestNote: string, highestNote: string)

  /** The constructor's default arguments. */
  const DefaultConfig: MapperConfig := MapperConfig(0.5, 3.5, "A3", "C3")

  /** Construction errors: `list.index` raising `ValueError` for a name outside C3..C4, and
      `ZeroDivisionError` when the selected note list is empty. */
  datatype MapperError = UnknownNote(name: string) | EmptySelection

  /** A constructed mapper: its settings and its `ranges` table. */
  datatype Mapper = Mapper(config: MapperConfig, ranges: seq<Bin>)

  /** Python `names.index(x)` searching from position `k`: the first position holding `x`. */
  function IndexOf(names: seq<string>, x: string, k: nat): (r: Option<nat>)
    requires k <= |names|
    ensures r.Some? ==> k <= r.value < |names| && names[r.value] == x
    ensures r.Some? ==> forall j :: k <= j < r.value ==> names[j] != x
    ensures r.None? ==> forall j :: k <= j < |names| ==> names[j] != x
    decreases |names| - k
  {
    if k == |names| then None
    else if names[k] == x then Some(k)
    else IndexOf(names, x, k + 1)
  }

  /** Position of a note name in the C3..C4 key list. */
  function Position(x: string): Option<nat>
  {
    IndexOf(C3C4Names, x, 0)
  }

  /** `_calculate_ranges`: locates both names in the C3..C4 key list, selects the notes between
      them and splits the distance range into one equal-width bin per selected note. */
  function CalculateRanges(cfg: MapperConfig): (r: Result<seq<Bin>, MapperError>)
    ensures Position(cfg.lowestNote).None? ==> r == Failure(UnknownNote(cfg.lowestNote))
    ensures Position(cfg.lowestNote).Some? && Position(cfg.highestNote).None? ==>
              r == Failure(UnknownNote(cfg.highestNote))
    ensures Position(cfg.lowestNote).Some? && Position(cfg.highestNote).Some? ==>
              (r.Failure? <==> Position(cfg.highestNote).value < Position(cfg.lowestNote).value)
    ensures r.Failure? && Position(cfg.lowestNote).Some? && Position(cfg.highestNote).Some? ==>
              r.error == EmptySelection
    ensures r.Success? ==> Position(cfg.lowestNote).Some? && Position(cfg.highestNote).Some?
    ensures r.Success? ==>
              var start := Position(cfg.lowestNote).value;
              var last := Position(cfg.highestNote).value;
              |r.value| == last - start + 1 && r.value == Partition(cfg.minRange, cfg.maxRange, C3C4Names[start..last + 1])
  {
    match Position(cfg.lowestNote)
    case None => Failure(UnknownNote(cfg.lowestNote))
    case Some(start) =>
      match Position(cfg.highestNote)
      case None => Failure(UnknownNote(cfg.highestNote))
      case Some(last) =>
        var end := last + 1;
        var selected := if start <= end then C3C4Names[start..end] else [];
        if |selected| == 0 then Failure(EmptySelection)
        else Success(Partition(cfg.minRange, cfg.maxRange, selected))
  }

  /** The width of each of `n` equal bins over [minRange, maxRange]. */
  function Width(minRange: real, maxRange: real, n: nat): real
    requires n > 0
  {
    (maxRange - minRange) / n as real
  }

  /** The range table for a non-empty note list: bin i spans [max - (i+1)*w, max - i*w] with
      w = (max - min)/n and carries note i, so the first (lowest) note gets the farthest bin. */
  function Partition(minRange: real, maxRange: real, notes: seq<string>): (bins: seq<Bin>)
    requires |notes| > 0
    ensures |bins| == |notes|
    ensures forall i :: 0 <= i < |bins| ==> bins[i].note == notes[i]
    ensures forall i :: 0 <= i < |bins| ==> bins[i].hi - bins[i].lo == Width(minRange, maxRange, |bins|)
    ensures bins[0].hi == maxRange && bins[|bins| - 1].lo == minRange
    ensures Contiguous(bins)
    ensures minRange <= maxRange ==> Ordered(bins)
  {
    var n := |notes|;
    var w := Width(minRange, maxRange, n);
    var bins := seq(n, i requires 0 <= i < n => Bin(maxRange - (i + 1) as real * w, maxRange - i as real * w, notes[i]));
    WholeWidth(maxRange - minRange, n);
    PartitionFacts(minRange, maxRange, n, w, bins);
    bins
  }

  lemma PartitionFacts(minRange: real, maxRange: real, n: nat, w: real, bins: seq<Bin>)
    requires n > 0 && |bins| == n && n as real * w == maxRange - minRange
    requires forall i :: 0 <= i < n ==> bins[i].lo == maxRange - (i + 1) as real * w
    requires forall i :: 0 <= i < n ==> bins[i].hi == maxRange - i as real * w
    ensures forall i :: 0 <= i < n ==> bins[i].hi - bins[i].lo == w
    ensures bins[0].hi == maxRange && bins[n - 1].lo == minRange
    ensures Contiguous(bins)
    ensures minRange <= maxRange ==> Ordered(bins)
  {
    PartitionWidths(maxRange, n, w, bins);
    PartitionEnds(minRange, maxRange, n, w, bins[0].hi, bins[n - 1].lo);
    forall i | 0 <= i < n - 1
      ensures bins[i].lo == bins[i + 1].hi
    {
      assert bins[i + 1].hi == maxRange - (i + 1) as real * w;
    }
    if minRange <= maxRange {
      NonNegativeWidth(maxRange - minRange, n, w);
      PartitionOrdered(w, bins);
    }
  }

  lemma PartitionOrdered(w: real, bins: seq<Bin>)
    requires w >= 0.0
    requires forall i :: 0 <= i < |bins| ==> bins[i].hi - bins[i].lo == w
    ensures Ordered(bins)
  {
  }

  lemma PartitionWidths(maxRange: real, n: nat, w: real, bins: seq<Bin>)
    requires |bins| == n
    requires forall i :: 0 <= i < n ==> bins[i].lo == maxRange - (i + 1) as real * w
    requires forall i :: 0 <= i < n ==> bins[i].hi == maxRange - i as real * w
    ensures forall i :: 0 <= i < n ==> bins[i].hi - bins[i].lo == w
  {
    forall i | 0 <= i < n
      ensures bins[i].hi - bins[i].lo == w
    {
      StepWidth(maxRange, w, i);
    }
  }

  lemma PartitionEnds(minRange: real, maxRange: real, n: nat, w: real, top: real, bottom: real)
    requires n > 0 && n as real * w == maxRange - minRange
    requires top == maxRange - (0 as nat) as real * w && bottom == maxRange - ((n - 1) + 1) as real * w
    ensures top == maxRange && bottom == minRange
  {
  }

  lemma StepWidth(top: real, w: real, i: nat)
    ensures (top - i as real * w) - (top - (i + 1) as real * w) == w
  {
    assert (i + 1) as real * w == i as real * w + w;
  }

  lemma WholeWidth(span: real, n: nat)
    requires n > 0
    ensures n as real * (span / n as real) == span
  {
  }

  lemma NonNegativeWidth(span: real, n: nat, w: real)
    requires n > 0 && span >= 0.0 && n as real * w == span
    ensures w >= 0.0
  {
  }

  /** The constructor: settings plus the table `_calculate_ranges` builds from them. */
  function NewMapper(cfg: MapperConfig): (r: Result<Mapper, MapperError>)
    ensures r.Success? <==> CalculateRanges(cfg).Success?
    ensures r.Success? ==> Built(r.value) && r.value.config == cfg
  {
    match CalculateRanges(cfg)
    case Success(bins) => Success(Mapper(cfg, bins))
    case Failure(e) => Failure(e)
  }

  /** A mapper whose table is the one `_calculate_ranges` builds from its settings. */
  predicate Built(m: Mapper)
  {
    CalculateRanges(m.config) == Success(m.ranges)
  }

  /** What every constructed mapper's table satisfies: the bins carry the keys from the lowest to
      the highest configured note in key order, run contiguously from `max_range` down to
      `min_range`, and every bin note is a key of `C3_C4_FREQUENCIES`. */
  lemma BuiltFacts(m: Mapper)
    requires Built(m)
    ensures Position(m.config.lowestNote).Some? && Position(m.config.highestNote).Some?
    ensures var start := Position(m.config.lowestNote).value;
            var last := Position(m.config.highestNote).value;
            && start <= last < |C3C4|
            && |m.ranges| == last - start + 1
            && forall i :: 0 <= i < |m.ranges| ==> m.ranges[i].note == C3C4Names[start + i]
    ensures |m.ranges| > 0
    ensures m.ranges[0].hi == m.config.maxRange && m.ranges[|m.ranges| - 1].lo == m.config.minRange
    ensures forall i :: 0 <= i < |m.ranges| ==>
              m.ranges[i].hi - m.ranges[i].lo == Width(m.config.minRange, m.config.maxRange, |m.ranges|)
    ensures Contiguous(m.ranges)
    ensures m.config.minRange <= m.config.maxRange ==> Ordered(m.ranges)
    ensures KnownNotes(m.ranges)
  {
    BuiltNotes(m);
    BuiltGeometry(m);
  }

  /** The notes part of `BuiltFacts`. */
  lemma BuiltNotes(m: Mapper)
    requires Built(m)
    ensures Position(m.config.lowestNote).Some? && Position(m.config.highestNote).Some?
    ensures var start := Position(m.config.lowestNote).value;
            var last := Position(m.config.highestNote).value;
            && start <= last < |C3C4|
            && |m.ranges| == last - start + 1
            && forall i :: 0 <= i < |m.ranges| ==> m.ranges[i].note == C3C4Names[start + i]
    ensures |m.ranges| > 0
    ensures KnownNotes(m.ranges)
  {
    var start := Position(m.config.lowestNote).value;
    var last := Position(m.config.highestNote).value;
    var selected := C3C4Names[start..last + 1];
    assert m.ranges == Partition(m.config.minRange, m.config.maxRange, selected);
    SelectedNotes(m.ranges, start, last);
  }

  /** The geometry part of `BuiltFacts`. */
  lemma BuiltGeometry(m: Mapper)
    requires Built(m)
    ensures |m.ranges| > 0
    ensures m.ranges[0].hi == m.config.maxRange && m.ranges[|m.ranges| - 1].lo == m.config.minRange
    ensures forall i :: 0 <= i < |m.ranges| ==>
              m.ranges[i].hi - m.ranges[i].lo == Width(m.config.minRange, m.config.maxRange, |m.ranges|)
    ensures Contiguous(m.ranges)
    ensures m.config.minRange <= m.config.maxRange ==> Ordered(m.ranges)
  {
    var start := Position(m.config.lowestNote).value;
    var last := Position(m.config.highestNote).value;
    var selected := C3C4Names[start..last + 1];
    var bins := Partition(m.config.minRange, m.config.maxRange, selected);
    assert m.ranges == bins;
  }

  lemma SelectedNotes(bins: seq<Bin>, start: nat, last: nat)
    requires start <= last < |C3C4Names| && |bins| == last - start + 1
    requires forall i :: 0 <= i < |bins| ==> bins[i].note == C3C4Names[start..last + 1][i]
    ensures forall i :: 0 <= i < |bins| ==> bins[i].note == C3C4Names[start + i]
    ensures KnownNotes(bins)
  {
    C3C4Lookup();
    forall i | 0 <= i < |bins|
      ensures bins[i].note == C3C4Names[start + i] && Lookup(C3C4, bins[i].note).Some?
    {
      SliceAt(C3C4Names, start, last + 1, i);
    }
  }

  lemma SliceAt(s: seq<string>, a: nat, b: nat, i: nat)
    requires a <= b <= |s| && i < b - a
    ensures s[a..b][i] == s[a + i]
  {
  }

  /** Every bin note has an entry in `C3_C4_FREQUENCIES`. */
  predicate KnownNotes(bins: seq<Bin>)
  {
    forall i :: 0 <= i < |bins| ==> Lookup(C3C4, bins[i].note).Some?
  }

  /** `get_frequency_from_distance`: 0 outside [min_range, max_range], otherwise the table
      frequency of the first bin whose closed interval holds the distance (0 if none does). */
  function FrequencyFromDistance(m: Mapper, d: real): (f: real)
    requires KnownNotes(m.ranges)
    ensures f != 0.0 ==> m.config.minRange <= d <= m.config.maxRange
    ensures f != 0.0 ==> exists i :: 0 <= i < |m.ranges| && Contains(m.ranges[i], d) && Lookup(C3C4, m.ranges[i].note) == Some(f)
  {
    if d < m.config.minRange || d > m.config.maxRange then 0.0
    else match FirstContaining(m.ranges, d, 0)
      case Some(i) => Lookup(C3C4, m.ranges[i].note).value
      case None => 0.0
  }

  /** `get_note_from_distance`: the note whose frequency the distance resolves to. */
  function NoteFromDistance(m: Mapper, d: real): (r: string)
    requires KnownNotes(m.ranges)
    ensures r != "" ==> m.config.minRange <= d <= m.config.maxRange
    ensures r != "" ==> exists i :: 0 <= i < |CMajor| && r == CMajor[i].name && CMajor[i].freq > 0.0 && Within(CMajor[i], FrequencyFromDistance(m, d), 1.0)
  {
    NoteFromZero(1.0);
    NoteFromFrequency(FrequencyFromDistance(m, d), 1.0)
  }

  /** A constructed mapper is silent outside its range and, inside it, sounds the note of the
      first bin holding the distance: a key of C3..C4 with a positive frequency. */
  lemma FrequencyFromDistanceSpec(m: Mapper, d: real)
    requires Built(m)
    ensures KnownNotes(m.ranges)
    ensures d < m.config.minRange || d > m.config.maxRange ==> FrequencyFromDistance(m, d) == 0.0
    ensures m.config.minRange <= d <= m.config.maxRange ==>
              && FirstContaining(m.ranges, d, 0).Some?
              && var i := FirstContaining(m.ranges, d, 0).value;
                 var k := Position(m.config.lowestNote).value + i;
                 && k < |C3C4| && m.ranges[i].note == C3C4[k].name
                 && FrequencyFromDistance(m, d) == C3C4[k].freq > 0.0
  {
    BuiltNotes(m);
    if m.config.minRange <= d <= m.config.maxRange {
      var k := KeyAt(m, d);
      KeyFrequency(k);
    }
  }

  /** The k-th key of C3..C4 names the k-th entry, which its lookup finds with a positive frequency. */
  lemma KeyFrequency(k: nat)
    requires k < |C3C4Names|
    ensures k < |C3C4| && C3C4Names[k] == C3C4[k].name
    ensures Lookup(C3C4, C3C4Names[k]) == Some(C3C4[k].freq) && C3C4[k].freq > 0.0
  {
    SubTableNames();
    C3C4Lookup();
    C3C4Increasing();
  }

  /** Nearer never sounds lower: within range, a smaller distance yields a frequency at least as high. */
  lemma FrequencyMonotone(m: Mapper, d1: real, d2: real)
    requires Built(m)
    requires m.config.minRange <= d1 < d2 <= m.config.maxRange
    ensures KnownNotes(m.ranges)
    ensures FrequencyFromDistance(m, d1) >= FrequencyFromDistance(m, d2)
  {
    var k1 := KeyAt(m, d1);
    var k2 := KeyAt(m, d2);
    BuiltShape(m);
    FirstContainingAntitone(m.ranges, d1, d2);
    KeysIncreasing(k2, k1);
  }

  /** The C3..C4 index an in-range distance resolves to. */
  lemma KeyAt(m: Mapper, d: real) returns (k: nat)
    requires Built(m) && m.config.minRange <= d <= m.config.maxRange
    ensures KnownNotes(m.ranges) && Position(m.config.lowestNote).Some?
    ensures FirstContaining(m.ranges, d, 0).Some?
    ensures k == Position(m.config.lowestNote).value + FirstContaining(m.ranges, d, 0).value
    ensures k < |C3C4| && FrequencyFromDistance(m, d) == C3C4[k].freq
    ensures m.ranges[FirstContaining(m.ranges, d, 0).value].note == C3C4[k].name
  {
    BuiltNotes(m);
    BuiltCovers(m, d);
    var i := FirstContaining(m.ranges, d, 0).value;
    BuiltNoteAt(m, i);
    k := Position(m.config.lowestNote).value + i;
    KeyFrequency(k);
  }

  /** Bin `i` of a constructed mapper carries the key `i` places after the lowest note. */
  lemma BuiltNoteAt(m: Mapper, i: nat)
    requires Built(m) && i < |m.ranges|
    ensures Position(m.config.lowestNote).Some?
    ensures Position(m.config.lowestNote).value + i < |C3C4Names|
    ensures m.ranges[i].note == C3C4Names[Position(m.config.lowestNote).value + i]
  {
    BuiltNotes(m);
  }

  /** Every in-range distance falls in some bin of a constructed mapper. */
  lemma BuiltCovers(m: Mapper, d: real)
    requires Built(m) && m.config.minRange <= d <= m.config.maxRange
    ensures FirstContaining(m.ranges, d, 0).Some?
  {
    BuiltGeometry(m);
    ContiguousCovers(m.ranges, d, 0);
  }

  lemma BuiltShape(m: Mapper)
    requires Built(m) && m.config.minRange <= m.config.maxRange
    ensures Contiguous(m.ranges) && Ordered(m.ranges)
  {
    BuiltFacts(m);
  }

  lemma KeysIncreasing(a: nat, b: nat)
    requires a <= b < |C3C4|
    ensures C3C4[a].freq <= C3C4[b].freq
  {
    C3C4Increasing();
  }

  /** The note name read back from the resolved frequency is the note of the bin holding the
      distance; outside the range it is "". */
  lemma NoteFromDistanceSpec(m: Mapper, d: real)
    requires Built(m)
    ensures KnownNotes(m.ranges)
    ensures d < m.config.minRange || d > m.config.maxRange ==> NoteFromDistance(m, d) == ""
    ensures m.config.minRange <= d <= m.config.maxRange ==>
              && FirstContaining(m.ranges, d, 0).Some?
              && NoteFromDistance(m, d) == m.ranges[FirstContaining(m.ranges, d, 0).value].note
  {
    BuiltFacts(m);
    if m.config.minRange <= d <= m.config.maxRange {
      NoteInRange(m, d);
    } else {
      FrequencyFromDistanceSpec(m, d);
      NamesFrequency(FrequencyFromDistance(m, d), -1);
    }
  }

  lemma NoteInRange(m: Mapper, d: real)
    requires Built(m) && m.config.minRange <= d <= m.config.maxRange
    ensures KnownNotes(m.ranges)
    ensures FirstContaining(m.ranges, d, 0).Some?
    ensures NoteFromDistance(m, d) == m.ranges[FirstContaining(m.ranges, d, 0).value].note
  {
    var k := KeyAt(m, d);
    NamesFrequency(FrequencyFromDistance(m, d), k);
  }

  /** The name read back from a C3..C4 frequency (k indexes C3..C4) or from 0 (k < 0). */
  lemma NamesFrequency(f: real, k: int)
    requires k < |C3C4|
    requires 0 <= k ==> f == C3C4[k].freq
    requires k < 0 ==> f == 0.0
    ensures 0 <= k ==> NoteFromFrequency(f, 1.0) == C3C4[k].name
    ensures k < 0 ==> NoteFromFrequency(f, 1.0) == ""
  {
    if 0 <= k {
      NoteFromFrequencyRoundTrip(k);
    } else {
      NoteFromZero(1.0);
    }
  }

  /** Every C3..C4 frequency reads back as its own note name, and 0 reads back as "". */
  lemma NoteFromFrequencyRoundTrip(k: nat)
    requires k < |C3C4|
    ensures NoteFromFrequency(C3C4[k].freq, 1.0) == C3C4[k].name == C3C4Names[k]
    ensures NoteFromFrequency(0.0, 1.0) == ""
  {
    C3C4Slice();
    SubTableNames();
    NoteFromFrequencyExact(7 + k, 1.0);
    NoteFromZero(1.0);
  }

  /** The constructor's own defaults (lowest A3, highest C3) select no notes and fail. */
  lemma DefaultConfigFails()
    ensures NewMapper(DefaultConfig) == Failure(EmptySelection)
  {
    assert Position("A3") == Some(5);
    assert Position("C3") == Some(0);
  }

  /** Eight notes C3..C4 over [0.5, 3.5]: 0.6 m sounds C4 (the nearest bin) and 3.4 m sounds C3. */
  lemma FullOctaveExample()
    ensures NewMapper(MapperConfig(0.5, 3.5, "C3", "C4")).Success?
    ensures KnownNotes(NewMapper(MapperConfig(0.5, 3.5, "C3", "C4")).value.ranges)
    ensures var m := NewMapper(MapperConfig(0.5, 3.5, "C3", "C4")).value;
            NoteFromDistance(m, 0.6) == "C4" && NoteFromDistance(m, 3.4) == "C3"
  {
    var cfg := MapperConfig(0.5, 3.5, "C3", "C4");
    assert Position("C3") == Some(0);
    assert Position("C4") == Some(7);
    var m := NewMapper(cfg).value;
    BuiltNotes(m);
    BuiltGeometry(m);
    assert |m.ranges| == 8 && m.ranges[0].note == "C3" && m.ranges[7].note == "C4";
    assert m.ranges[7].lo == 0.5 && m.ranges[7].hi == 0.875;
    forall j | 0 <= j < 7
      ensures !Contains(m.ranges[j], 0.6)
    {
      Descending(m.ranges, j, 7);
    }
    assert FirstContaining(m.ranges, 0.6, 0) == Some(7);
    assert m.ranges[0].lo == 3.125;
    assert FirstContaining(m.ranges, 3.4, 0) == Some(0);
    NoteInRange(m, 0.6);
    NoteInRange(m, 3.4);
  }
}
