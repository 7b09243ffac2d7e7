/** The note/frequency tables shared by the piano and tuner code
    (`C_MAJOR_FREQUENCIES` and the sub-tables built from it), together with
    the tolerance-based reverse lookup from a frequency to a note name. */
module Tables {
  import opened Wrappers

  /** One entry of an ordered note table: a note name such as "C3" and its frequency in Hz. */
  datatype Entry = Entry(name: string, freq: real)

  /** `C_MAJOR_FREQUENCIES`, in dictionary insertion order: C2..B5, C6, C7..B7, C8. */
  const CMajor: seq<Entry> := [
    Entry("C2", 65.41), Entry("D2", 73.42), Entry("E2", 82.41), Entry("F2", 87.31),
    Entry("G2", 98.00), Entry("A2", 110.00), Entry("B2", 123.47),
    Entry("C3", 130.81), Entry("D3", 146.83), Entry("E3", 164.81), Entry("F3", 174.61),
    Entry("G3", 196.00), Entry("A3", 220.00), Entry("B3", 246.94),
    Entry("C4", 261.63), Entry("D4", 293.66), Entry("E4", 329.63), Entry("F4", 349.23),
    Entry("G4", 392.00), Entry("A4", 440.00), Entry("B4", 493.88),
    Entry("C5", 523.25), Entry("D5", 587.33), Entry("E5", 659.26), Entry("F5", 698.46),
    Entry("G5", 783.99), Entry("A5", 880.00), Entry("B5", 987.77),
    Entry("C6", 1046.50),
    Entry("C7", 2093.00), Entry("D7", 2349.32), Entry("E7", 2637.02), Entry("F7", 2793.83),
    Entry("G7", 3135.96), Entry("A7", 3520.00), Entry("B7", 3951.07),
    Entry("C8", 4186.01)
  ]

  /** Names of `C3_C4_FREQUENCIES`, in the order of the comprehension that builds it. */
  const C3C4Names: seq<string> := ["C3", "D3", "E3", "F3", "G3", "A3", "B3", "C4"]

  /** Names of `C_PENTATONIC_FREQUENCIES`, in the order of the comprehension that builds it. */
  const PentatonicNames: seq<string> := ["C3", "D3", "E3", "G3", "A3", "C4"]

  /** Python `table[name]` on an ordered dictionary: the frequency stored under `name`, if any. */
  function Lookup(t: seq<Entry>, name: string): (r: Option<real>)
    ensures r.None? <==> forall i :: 0 <= i < |t| ==> t[i].name != name
    ensures r.Some? ==> exists i :: 0 <= i < |t| && t[i].name == name && t[i].freq == r.value
  {
    if |t| == 0 then None
    else if t[0].name == name then Some(t[0].freq)
    else
      var r := Lookup(t[1..], name);
      assert forall i :: 1 <= i < |t| ==> t[1..][i - 1] == t[i];
      r
  }

  /** `C3_C4_FREQUENCIES`: the C-major entries named C3, D3, E3, F3, G3, A3, B3, C4. */
  const C3C4: seq<Entry> := CMajor[7..15]

  /** `C_PENTATONIC_FREQUENCIES`: the C-major entries named C3, D3, E3, G3, A3, C4. */
  const Pentatonic: seq<Entry> := [CMajor[7], CMajor[8], CMajor[9], CMajor[11], CMajor[12], CMajor[14]]

  predicate DistinctNames(t: seq<Entry>)
  {
    forall i, j :: 0 <= i < j < |t| ==> t[i].name != t[j].name
  }

  predicate PositiveFreqs(t: seq<Entry>)
  {
    forall i :: 0 <= i < |t| ==> t[i].freq > 0.0
  }

  /** Each frequency lies more than 1% above its predecessor. */
  predicate StepSpread(t: seq<Entry>)
  {
    forall i :: 0 <= i < |t| - 1 ==> t[i].freq * 101.0 < t[i + 1].freq * 100.0
  }

  /** Every later frequency lies more than 1% above every earlier one. */
  predicate Spread(t: seq<Entry>)
  {
    forall i, j :: 0 <= i < j < |t| ==> t[i].freq * 101.0 < t[j].freq * 100.0
  }

  lemma CMajorFacts()
    ensures PositiveFreqs(CMajor) && StepSpread(CMajor)
  {
    CMajorPositive();
    CMajorSteps();
  }

  lemma CMajorPositive()
    ensures PositiveFreqs(CMajor)
  {
  }

  /** No C-major entry has the empty name, so "" never names a note. */
  lemma CMajorNamed()
    ensures forall i :: 0 <= i < |CMajor| ==> CMajor[i].name != ""
  {
  }

  lemma CMajorSteps()
    ensures StepSpread(CMajor)
  {
    CMajorStepsLow();
    CMajorStepsMiddle();
    CMajorStepsHigh();
    CMajorStepsTop();
    StepsJoin(CMajor);
  }

  /** Joins the four chunk facts below into `StepSpread`. The 37 literal entries are checked in
      chunks of nine only to keep each proof obligation small. */
  lemma StepsJoin(t: seq<Entry>)
    requires |t| == 37
    requires forall i :: 0 <= i < 9 ==> StepAt(t, i)
    requires forall i :: 9 <= i < 18 ==> StepAt(t, i)
    requires forall i :: 18 <= i < 27 ==> StepAt(t, i)
    requires forall i :: 27 <= i < 36 ==> StepAt(t, i)
    ensures StepSpread(t)
  {
    forall i | 0 <= i < |t| - 1
      ensures t[i].freq * 101.0 < t[i + 1].freq * 100.0
    {
      assert StepAt(t, i);
    }
  }

  /** Entry `i + 1` lies more than 1% above entry `i`. */
  predicate StepAt(t: seq<Entry>, i: nat)
    requires i + 1 < |t|
  {
    t[i].freq * 101.0 < t[i + 1].freq * 100.0
  }

  lemma CMajorStepsLow()
    ensures forall i :: 0 <= i < 9 ==> StepAt(CMajor, i)
  {
  }

  lemma CMajorStepsMiddle()
    ensures forall i :: 9 <= i < 18 ==> StepAt(CMajor, i)
  {
  }

  lemma CMajorStepsHigh()
    ensures forall i :: 18 <= i < 27 ==> StepAt(CMajor, i)
  {
  }

  lemma CMajorStepsTop()
    ensures forall i :: 27 <= i < 36 ==> StepAt(CMajor, i)
  {
  }

  lemma {:induction false} StepSpreadIsSpread(t: seq<Entry>)
    requires PositiveFreqs(t) && StepSpread(t)
    ensures Spread(t)
  {
    if |t| >= 2 {
      StepSpreadIsSpread(t[1..]);
      forall j | 1 < j < |t|
        ensures t[0].freq * 101.0 < t[j].freq * 100.0
      {
        assert t[1..][0] == t[1] && t[1..][j - 1] == t[j];
        assert t[1].freq * 101.0 < t[j].freq * 100.0;
      }
      forall i, j | 0 <= i < j < |t|
        ensures t[i].freq * 101.0 < t[j].freq * 100.0
      {
        if i > 0 {
          assert t[1..][i - 1] == t[i] && t[1..][j - 1] == t[j];
        }
      }
    }
  }

  /** The C-major table is strictly increasing with more than 1% between any two entries. */
  lemma CMajorSpread()
    ensures PositiveFreqs(CMajor) && Spread(CMajor)
    ensures forall i, j :: 0 <= i < j < |CMajor| ==> CMajor[i].freq < CMajor[j].freq
  {
    CMajorFacts();
    StepSpreadIsSpread(CMajor);
  }

  /** The sub-tables carry exactly the names their comprehensions list, in that order. */
  lemma SubTableNames()
    ensures |C3C4| == |C3C4Names| && forall i :: 0 <= i < |C3C4| ==> C3C4[i].name == C3C4Names[i]
    ensures |Pentatonic| == |PentatonicNames| && forall i :: 0 <= i < |Pentatonic| ==> Pentatonic[i].name == PentatonicNames[i]
  {
    C3C4NamesMatch();
    PentatonicNamesMatch();
  }

  lemma C3C4NamesMatch()
    ensures |C3C4| == |C3C4Names| && forall i :: 0 <= i < |C3C4| ==> C3C4[i].name == C3C4Names[i]
  {
    assert forall i :: 0 <= i < |C3C4| ==> C3C4[i] == CMajor[7 + i];
  }

  lemma PentatonicNamesMatch()
    ensures |Pentatonic| == |PentatonicNames| && forall i :: 0 <= i < |Pentatonic| ==> Pentatonic[i].name == PentatonicNames[i]
  {
  }

  /** Tables whose names follow a list of distinct names have distinct names. */
  lemma DistinctFromNames(t: seq<Entry>, names: seq<string>)
    requires |t| == |names| && forall i :: 0 <= i < |t| ==> t[i].name == names[i]
    requires forall i, j :: 0 <= i < j < |names| ==> names[i] != names[j]
    ensures DistinctNames(t)
  {
  }

  function Abs(x: real): real
  {
    if x < 0.0 then -x else x
  }

  /** The tolerance test of `get_note_from_frequency`: `f` lies within `tol` percent of the entry's frequency. */
  predicate Within(e: Entry, f: real, tol: real)
    requires e.freq > 0.0
  {
    Abs(f - e.freq) / e.freq * 100.0 <= tol
  }

  /** Index of the first entry at or after `k` whose frequency is within `tol` percent of `f`. */
  function FirstWithin(t: seq<Entry>, f: real, tol: real, k: nat): (r: Option<nat>)
    requires PositiveFreqs(t) && k <= |t|
    ensures r.Some? ==> k <= r.value < |t| && Within(t[r.value], f, tol)
    ensures r.Some? ==> forall j :: k <= j < r.value ==> !Within(t[j], f, tol)
    ensures r.None? ==> forall j :: k <= j < |t| ==> !Within(t[j], f, tol)
    decreases |t| - k
  {
    if k == |t| then None
    else if Within(t[k], f, tol) then Some(k)
    else FirstWithin(t, f, tol, k + 1)
  }

  /** `get_note_from_frequency` (the same code in the voices and key modules): the first C-major
      note, in table order, whose frequency is within `tol` percent of `f`, or "" when none is. */
  function NoteFromFrequency(f: real, tol: real): (r: string)
    ensures r != "" ==>
              exists i ::
                && 0 <= i < |CMajor| && r == CMajor[i].name && CMajor[i].freq > 0.0 && Within(CMajor[i], f, tol)
                && forall j :: 0 <= j < i && CMajor[j].freq > 0.0 ==> !Within(CMajor[j], f, tol)
    ensures r == "" ==> forall i :: 0 <= i < |CMajor| && CMajor[i].freq > 0.0 ==> !Within(CMajor[i], f, tol)
  {
    CMajorPositive();
    CMajorNamed();
    match FirstWithin(CMajor, f, tol, 0)
    case Some(i) => CMajor[i].name
    case None => ""
  }

  lemma SpreadNotWithin(g: real, f: real, tol: real)
    requires 0.0 < g && g * 101.0 < f * 100.0 && tol <= 1.0
    ensures Abs(f - g) / g * 100.0 > tol
  {
    var q := (f - g) / g;
    assert q * g == f - g;
    assert q * g * 100.0 > g;
  }

  /** A table frequency maps back to its own note for any tolerance up to the default 1%,
      because no earlier entry lies within 1% of it. */
  lemma NoteFromFrequencyExact(i: nat, tol: real)
    requires i < |CMajor| && 0.0 <= tol <= 1.0
    ensures NoteFromFrequency(CMajor[i].freq, tol) == CMajor[i].name
  {
    CMajorSpread();
    FirstWithinOwn(CMajor, i, tol);
  }

  /** In a table spread more than 1% apart, the first entry within `tol` <= 1% of an entry's own
      frequency is that entry. */
  lemma FirstWithinOwn(t: seq<Entry>, i: nat, tol: real)
    requires PositiveFreqs(t) && Spread(t) && i < |t| && 0.0 <= tol <= 1.0
    ensures FirstWithin(t, t[i].freq, tol, 0) == Some(i)
  {
    forall j | 0 <= j < i
      ensures !Within(t[j], t[i].freq, tol)
    {
      SpreadNotWithin(t[j].freq, t[i].freq, tol);
    }
    assert Within(t[i], t[i].freq, tol);
  }

  /** Frequency 0 (the "no tone" value) has no note for any tolerance below 100%. */
  lemma NoteFromZero(tol: real)
    requires tol < 100.0
    ensures NoteFromFrequency(0.0, tol) == ""
  {
    CMajorFacts();
    forall j | 0 <= j < |CMajor|
      ensures !Within(CMajor[j], 0.0, tol)
    {
      ZeroNotWithin(CMajor[j], tol);
    }
  }

  lemma ZeroNotWithin(e: Entry, tol: real)
    requires e.freq > 0.0 && tol < 100.0
    ensures !Within(e, 0.0, tol)
  {
    assert Abs(0.0 - e.freq) == e.freq;
    assert e.freq / e.freq == 1.0;
  }

  /** In a table with distinct names, looking up an entry's own name yields that entry's frequency. */
  lemma LookupOwnName(t: seq<Entry>, k: nat)
    requires DistinctNames(t) && k < |t|
    ensures Lookup(t, t[k].name) == Some(t[k].freq)
  {
  }

  /** Looking up a name that no earlier entry carries yields the entry's frequency. */
  lemma {:induction false} LookupPrefix(t: seq<Entry>, k: nat)
    requires k < |t| && forall j :: 0 <= j < k ==> t[j].name != t[k].name
    ensures Lookup(t, t[k].name) == Some(t[k].freq)
  {
    if k > 0 {
      assert t[1..][k - 1] == t[k];
      LookupPrefix(t[1..], k - 1);
    }
  }

  lemma C3C4Distinct()
    ensures DistinctNames(C3C4) && DistinctNames(Pentatonic)
  {
    C3C4NamesMatch();
    PentatonicNamesMatch();
    NameListsDistinct();
    DistinctFromNames(C3C4, C3C4Names);
    DistinctFromNames(Pentatonic, PentatonicNames);
  }

  lemma NameListsDistinct()
    ensures forall i, j :: 0 <= i < j < |C3C4Names| ==> C3C4Names[i] != C3C4Names[j]
    ensures forall i, j :: 0 <= i < j < |PentatonicNames| ==> PentatonicNames[i] != PentatonicNames[j]
  {
  }

  /** `C3_C4_FREQUENCIES` is the slice C3..C4 of the C-major table. */
  lemma C3C4Slice()
    ensures |C3C4| == |C3C4Names| == 8
    ensures forall k :: 0 <= k < |C3C4| ==> C3C4[k] == CMajor[7 + k]
  {
  }

  /** `C3_C4_FREQUENCIES[name]` for each of its own keys. */
  lemma C3C4Lookup()
    ensures |C3C4| == |C3C4Names|
    ensures forall k :: 0 <= k < |C3C4| ==> Lookup(C3C4, C3C4Names[k]) == Some(C3C4[k].freq)
  {
    SubTableNames();
    C3C4Distinct();
    forall k | 0 <= k < |C3C4|
      ensures Lookup(C3C4, C3C4Names[k]) == Some(C3C4[k].freq)
    {
      LookupOwnName(C3C4, k);
    }
  }

  /** The C3..C4 frequencies are positive and rise in key order. */
  lemma C3C4Increasing()
    ensures forall k :: 0 <= k < |C3C4| ==> C3C4[k].freq > 0.0
    ensures forall i, j :: 0 <= i < j < |C3C4| ==> C3C4[i].freq < C3C4[j].freq
  {
    CMajorSpread();
    C3C4Slice();
  }
}
