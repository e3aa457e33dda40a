/** The pitch codec of the tab transcriber.

    A pitch code is a note index (0 = C, 1 = C#, ..., 11 = B) plus twelve
    times the octave; E4 is 4 + 12 * 4 = 52. The six open strings of a guitar
    in standard tuning are six such codes.
 */
module Pitch {

  /** Number of chromatic note names in an octave. */
  const NumNotes: nat := 12

  /** Number of guitar strings, and so of entries in the tuning table. */
  const NumStrings: nat := 6

  /** The chromatic note names, indexed by note index (the `notes` table of `main.c`). */
  function NoteName(k: nat): (name: string)
    requires k < NumNotes
    ensures 1 <= |name| <= 2 && 'A' <= name[0] <= 'G'
    ensures |name| == 2 ==> name[1] == '#'
  {
    match k
    case 0 => "C"  case 1 => "C#"  case 2 => "D"  case 3 => "D#"
    case 4 => "E"  case 5 => "F"   case 6 => "F#" case 7 => "G"
    case 8 => "G#" case 9 => "A"   case 10 => "A#" case _ => "B"
  }

  /** `note` is one of the twelve names. */
  predicate KnownName(note: string) {
    exists k :: 0 <= k < NumNotes && NoteName(k) == note
  }

  /** The octave of a pitch code: C's `num / 12`, which truncates toward zero. */
  function Num2Octave(num: int): (octave: int)
    ensures num >= 0 ==> 0 <= octave && NumNotes * octave <= num < NumNotes * octave + NumNotes
    ensures num < 0 ==> octave <= 0 && NumNotes * octave - NumNotes < num <= NumNotes * octave
  {
    if num >= 0 then num / NumNotes else -((-num) / NumNotes)
  }

  /** The note name of a pitch code. `main.c` indexes its name table with
      `num % 12`, which is only in range for a non-negative code. */
  function Num2Note(num: int): (name: string)
    requires num >= 0
    ensures name == NoteName(num - NumNotes * Num2Octave(num))
  {
    NoteName(num % NumNotes)
  }

  /** The linear search of `note2num`, started at index `code`: the first index
      whose name equals `note`, or NumNotes when the search runs off the table. */
  function FindName(note: string, code: nat): (r: nat)
    requires code <= NumNotes
    ensures code <= r <= NumNotes
    ensures r < NumNotes ==> NoteName(r) == note
    ensures forall k :: code <= k < r ==> NoteName(k) != note
    decreases NumNotes - code
  {
    if code == NumNotes || NoteName(code) == note then code else FindName(note, code + 1)
  }

  /** The pitch code of a note name in an octave. A name that is not in the
      table leaves the search index at NumNotes, so the code is that of C one
      octave higher. */
  function Note2Num(note: string, octave: int): (num: int)
    ensures 0 <= num - NumNotes * octave <= NumNotes
    ensures (num - NumNotes * octave < NumNotes) <==> KnownName(note)
    ensures KnownName(note) ==> NoteName(num - NumNotes * octave) == note
  {
    FindName(note, 0) + NumNotes * octave
  }

  /** The open-string pitches, string 0 (high E) first: the values of the
      table `main` builds with six Note2Num calls (see TuningValues). */
  const Tuning: seq<int> := [52, 47, 43, 38, 33, 28]

  /** No two entries of the name table are equal, so a name has one index. */
  lemma NamesDistinct(i: nat, j: nat)
    requires i < NumNotes && j < NumNotes && NoteName(i) == NoteName(j)
    ensures i == j
  {
  }

  /** Looking a name up finds its own index. */
  lemma FindOwnName(k: nat)
    requires k < NumNotes
    ensures FindName(NoteName(k), 0) == k
  {
    var r := FindName(NoteName(k), 0);
    if r < k {
      NamesDistinct(r, k);
    }
  }

  /** Two octaves whose ranges both hold the same code are equal. */
  lemma OctaveUnique(num: int, a: int, b: int)
    requires NumNotes * a <= num < NumNotes * a + NumNotes
    requires NumNotes * b <= num < NumNotes * b + NumNotes
    ensures a == b
  {
    assert 12 * (a - b) == 12 * a - 12 * b;
  }

  /** Encoding a name and a non-negative octave and decoding the code gives
      back the name and the octave. */
  lemma NoteRoundTrip(k: nat, octave: int)
    requires k < NumNotes && octave >= 0
    ensures Num2Note(Note2Num(NoteName(k), octave)) == NoteName(k)
    ensures Num2Octave(Note2Num(NoteName(k), octave)) == octave
  {
    FindOwnName(k);
    var num := Note2Num(NoteName(k), octave);
    assert num == k + NumNotes * octave;
    OctaveUnique(num, octave, Num2Octave(num));
  }

  /** Decoding a non-negative code into a name and an octave and encoding them
      again gives back the code. */
  lemma PitchRoundTrip(num: int)
    requires num >= 0
    ensures Note2Num(Num2Note(num), Num2Octave(num)) == num
  {
    var k := num - NumNotes * Num2Octave(num);
    FindOwnName(k);
  }

  /** A name missing from the table gives the code of C one octave up. */
  lemma UnknownName(note: string, octave: int)
    requires !KnownName(note)
    ensures Note2Num(note, octave) == NumNotes + NumNotes * octave
    ensures Note2Num(note, octave) == Note2Num("C", octave + 1)
  {
    FindOwnName(0);
  }

  /** The code of the k-th name in an octave. */
  lemma NamedCode(name: string, k: nat, octave: int)
    requires k < NumNotes && NoteName(k) == name
    ensures Note2Num(name, octave) == k + NumNotes * octave
  {
    FindOwnName(k);
  }

  /** The open strings, from string 0 (high E) to string 5 (low E), are
      strictly descending in pitch. */
  lemma TuningDescends()
    ensures |Tuning| == NumStrings
    ensures forall a, b :: 0 <= a < b < NumStrings ==> Tuning[a] > Tuning[b]
  {
  }

  /** The tuning of the three high strings, as `main` computes it. */
  lemma TuningHigh()
    ensures Tuning[0] == Note2Num("E", 4) && Tuning[1] == Note2Num("B", 3) && Tuning[2] == Note2Num("G", 3)
  {
    assert Note2Num("E", 4) == 52 by { NamedCode("E", 4, 4); }
    assert Note2Num("B", 3) == 47 by { NamedCode("B", 11, 3); }
    assert Note2Num("G", 3) == 43 by { NamedCode("G", 7, 3); }
  }

  /** The tuning of the three low strings, as `main` computes it. */
  lemma TuningLow()
    ensures Tuning[3] == Note2Num("D", 3) && Tuning[4] == Note2Num("A", 2) && Tuning[5] == Note2Num("E", 2)
  {
    assert Note2Num("D", 3) == 38 by { NamedCode("D", 2, 3); }
    assert Note2Num("A", 2) == 33 by { NamedCode("A", 9, 2); }
    assert Note2Num("E", 2) == 28 by { NamedCode("E", 4, 2); }
  }

  /** The table is the six `note2num` results `main` initialises it with:
      E4, B3, G3, D3, A2, E2. */
  lemma TuningValues()
    ensures Tuning[0] == Note2Num("E", 4) && Tuning[1] == Note2Num("B", 3) && Tuning[2] == Note2Num("G", 3)
    ensures Tuning[3] == Note2Num("D", 3) && Tuning[4] == Note2Num("A", 2) && Tuning[5] == Note2Num("E", 2)
  {
    TuningHigh();
    TuningLow();
  }


}
