/** The `Note` enumeration and its equal-temperament frequency, with `2 ** x` left abstract. */
module Notes {

  datatype Note =
    | C2 | D2 | E2 | F2 | G2 | A2 | B2
    | C3 | D3 | E3 | F3 | G3 | A3 | B3
    | C4 | D4 | E4 | F4 | G4 | A4 | B4
    | C5

  /** The members in declaration order. */
  const AllNotes: seq<Note> := [
    C2, D2, E2, F2, G2, A2, B2,
    C3, D3, E3, F3, G3, A3, B3,
    C4, D4, E4, F4, G4, A4, B4,
    C5
  ]

  /** `BASE_A4_FREQ`. */
  const BaseA4Freq: real := 440.0

  /** The member's string value, a letter followed by one octave digit. */
  function Value(n: Note): (s: string)
    ensures |s| == 2 && s[0] in "CDEFGAB" && '2' <= s[1] <= '5'
  {
    match n
    case C2 => "C2" case D2 => "D2" case E2 => "E2" case F2 => "F2"
    case G2 => "G2" case A2 => "A2" case B2 => "B2"
    case C3 => "C3" case D3 => "D3" case E3 => "E3" case F3 => "F3"
    case G3 => "G3" case A3 => "A3" case B3 => "B3"
    case C4 => "C4" case D4 => "D4" case E4 => "E4" case F4 => "F4"
    case G4 => "G4" case A4 => "A4" case B4 => "B4"
    case C5 => "C5"
  }

  /** `SEMITONES[letter]`: the letter's offset from A within an octave. */
  function LetterSemitones(letter: char): int
    requires letter in "CDEFGAB"
  {
    match letter
    case 'C' => -9
    case 'D' => -7
    case 'E' => -5
    case 'F' => -4
    case 'G' => -2
    case 'A' => 0
    case 'B' => 2
  }

  /** `int(c)` for a single decimal digit. */
  function DigitValue(c: char): int
    requires '0' <= c <= '9'
  {
    c as int - '0' as int
  }

  /** `SEMITONES[letter] + (octave - 4) * 12`. */
  function Semitones(letter: char, octave: int): int
    requires letter in "CDEFGAB"
  {
    LetterSemitones(letter) + (octave - 4) * 12
  }

  /** The semitone offset of a member from A4, read off its string value. */
  function SemitonesFromA4(n: Note): (r: int)
    ensures -33 <= r <= 3
    ensures r == 0 <==> n == A4
  {
    Semitones(Value(n)[0], DigitValue(Value(n)[1]))
  }

  /** `get_frequency`: 440 Hz times `pow2(semitones / 12)`, where `pow2` stands for `2 ** x`. */
  function Frequency(n: Note, pow2: real -> real): (r: real)
    ensures (forall x :: pow2(x) > 0.0) ==> r > 0.0
  {
    BaseA4Freq * pow2(SemitonesFromA4(n) as real / 12.0)
  }

  ghost predicate StrictlyIncreasing(f: real -> real)
  {
    forall x, y :: x < y ==> f(x) < f(y)
  }

  /** Raising the octave by one adds exactly 12 semitones. */
  lemma OctaveAddsTwelve(letter: char, octave: int)
    requires letter in "CDEFGAB"
    ensures Semitones(letter, octave + 1) == Semitones(letter, octave) + 12
  {
  }

  /** A4 is offset 0 and sounds exactly 440 Hz whenever `pow2(0) == 1`. */
  lemma A4IsBase(pow2: real -> real)
    requires pow2(0.0) == 1.0
    ensures SemitonesFromA4(A4) == 0
    ensures Frequency(A4, pow2) == 440.0
  {
  }

  /** The member at `i + 1` lies above the member at `i`. */
  predicate StepUp(notes: seq<Note>, i: nat)
    requires i + 1 < |notes|
  {
    SemitonesFromA4(notes[i]) < SemitonesFromA4(notes[i + 1])
  }

  lemma StepsOctave2()
    ensures forall i :: 0 <= i < 7 ==> StepUp(AllNotes, i)
  {
  }

  lemma StepsOctave3()
    ensures forall i :: 7 <= i < 14 ==> StepUp(AllNotes, i)
  {
  }

  lemma StepsOctave4()
    ensures forall i :: 14 <= i < 21 ==> StepUp(AllNotes, i)
  {
  }

  /** Joins the three octave facts above; the 22 members are checked one octave at a time only
      to keep each proof obligation small. */
  lemma StepsJoin(notes: seq<Note>)
    requires |notes| == 22
    requires forall i :: 0 <= i < 7 ==> StepUp(notes, i)
    requires forall i :: 7 <= i < 14 ==> StepUp(notes, i)
    requires forall i :: 14 <= i < 21 ==> StepUp(notes, i)
    ensures forall i :: 0 <= i < |notes| - 1 ==> SemitonesFromA4(notes[i]) < SemitonesFromA4(notes[i + 1])
  {
    forall i | 0 <= i < |notes| - 1
      ensures SemitonesFromA4(notes[i]) < SemitonesFromA4(notes[i + 1])
    {
      assert StepUp(notes, i);
    }
  }

  /** Each member lies above its predecessor in declaration order. */
  lemma StepsIncrease()
    ensures forall i :: 0 <= i < |AllNotes| - 1 ==>
              SemitonesFromA4(AllNotes[i]) < SemitonesFromA4(AllNotes[i + 1])
  {
    StepsOctave2();
    StepsOctave3();
    StepsOctave4();
    StepsJoin(AllNotes);
  }


  /** Semitone offsets strictly increase along the declaration order. */
  lemma {:induction false} OffsetsIncrease(i: nat, j: nat)
    requires i < j < |AllNotes|
    ensures SemitonesFromA4(AllNotes[i]) < SemitonesFromA4(AllNotes[j])
    decreases j - i
  {
    StepsIncrease();
    if i + 1 < j {
      OffsetsIncrease(i + 1, j);
    }
  }

  /** With any strictly increasing model of `2 ** x`, frequency strictly increases along the
      declaration order. */
  lemma FrequencyIncreases(pow2: real -> real, i: nat, j: nat)
    requires StrictlyIncreasing(pow2)
    requires i < j < |AllNotes|
    ensures Frequency(AllNotes[i], pow2) < Frequency(AllNotes[j], pow2)
  {
    OffsetsIncrease(i, j);
    var a := SemitonesFromA4(AllNotes[i]) as real / 12.0;
    var b := SemitonesFromA4(AllNotes[j]) as real / 12.0;
    assert pow2(a) < pow2(b);
  }
}
