/** The body of `main` without its file handling: scan the tab into a growable
    stave array, then print the stave.

    The stave is an array of cells that starts with a given capacity (2048 in
    the program), every cell Unset. When the column reaches the end of the
    array, the array doubles and the new half is filled with Unset. The
    pending fret number lives in a three-character buffer: up to two digits
    followed by a NUL.
 */
module Transcriber {
  import opened Pitch
  import opened Numerals
  import opened Scanner
  import opened Render

  /** Capacity of the stave when the program starts. */
  const DefaultStaveLen: nat := 2048

  /** Factor by which the stave grows when full. */
  const StaveGrowthRate: nat := 2

  /** Size of the fret number buffer, terminator included. */
  const BufferSize: nat := 3

  /** What the program prints for a tab file holding `text`. It does not
      depend on the stave's capacity: every stored column is below |text| + 1. */
  function Output(text: string): (out: string)
    requires WellDefined(text)
    ensures |out| >= 1 && out[|out| - 1] == '\n'
    ensures ReadOutput(out[..|out| - 1]) == Some(Occupied(Stave(Final(text).notes, |text| + 1)))
  {
    var cells := Stave(Final(text).notes, |text| + 1);
    ReadBackRendered(cells);
    assert (Rendered(cells) + "\n")[..|Rendered(cells)|] == Rendered(cells);
    Rendered(cells) + "\n"
  }

  /** `realloc` to twice the size followed by `memset` of the new half to -1:
      the old cells keep their values and every new cell is Unset. */
  method Grow(stave: array<int>) returns (bigger: array<int>)
    ensures fresh(bigger)
    ensures bigger.Length == StaveGrowthRate * stave.Length
    ensures bigger[..] == stave[..] + Blank(stave.Length)
  {
    var n := stave.Length;
    bigger := new int[StaveGrowthRate * n];
    var k := 0;
    while k < n
      invariant 0 <= k <= n
      invariant forall c :: 0 <= c < k ==> bigger[c] == stave[c]
    {
      bigger[k] := stave[k];
      k := k + 1;
    }
    while k < 2 * n
      invariant n <= k <= 2 * n
      invariant forall c :: 0 <= c < n ==> bigger[c] == stave[c]
      invariant forall c :: n <= c < k ==> bigger[c] == Unset
    {
      bigger[k] := Unset;
      k := k + 1;
    }
    assert bigger[..] == stave[..] + Blank(n);
  }

  /** The loop variables of `main` hold scanner state `st`: `string` and `i`
      are its line and column, `fret_num[..j]` its pending digits followed by
      a NUL, and the stave array its stored pitches, every other cell Unset. */
  ghost predicate Mirrors(st: State, stave: array<int>, fretNum: array<char>, line: int, i: int, j: int)
    reads stave, fretNum
  {
    line == st.line && i == st.col &&
    0 <= j <= MaxPending && fretNum.Length == BufferSize &&
    fretNum[..j] == st.pending && fretNum[j] == '\0' &&
    i < stave.Length &&
    (forall k :: k in st.notes ==> k < stave.Length) &&
    stave[..] == Stave(st.notes, stave.Length)
  }

  /** `i++` followed by the growth test: the stave doubles when the column
      reaches its end, so the column stays inside it. */
  method Advance(stave: array<int>, i: int, ghost notes: map<nat, int>) returns (stave': array<int>, i': int)
    requires 0 <= i < stave.Length
    requires forall k :: k in notes ==> k < stave.Length
    requires stave[..] == Stave(notes, stave.Length)
    ensures i' == i + 1 && i' < stave'.Length
    ensures i + 1 < stave.Length ==> stave' == stave
    ensures i + 1 == stave.Length ==> fresh(stave') && stave'.Length == StaveGrowthRate * stave.Length
    ensures forall k :: k in notes ==> k < stave'.Length
    ensures stave'[..] == Stave(notes, stave'.Length)
  {
    stave', i' := stave, i + 1;
    if i' >= stave'.Length {
      StaveGrow(notes, stave'.Length, stave'.Length);
      stave' := Grow(stave');
    }
  }

  /** The store branch: the pending fret number, read with `atoi`, plus the
      open-string pitch goes into the stave at the current column, and the
      buffer is emptied. */
  method StoreFret(tuning: seq<int>, stave: array<int>, fretNum: array<char>, line: int, i: int, j: int,
                   ghost st: State) returns (j': int)
    requires tuning == Tuning
    requires Wf(st) && st.pending != [] && st.line < NumStrings
    requires Mirrors(st, stave, fretNum, line, i, j)
    modifies stave, fretNum
    ensures j' == 0 && fretNum[0] == '\0'
    ensures stave[..] == Stave(st.notes[st.col := FretPitch(st)], stave.Length)
  {
    ghost var cells := stave[..];
    StaveStore(st.notes, stave.Length, i, FretPitch(st));
    stave[i] := Atoi(fretNum[..j]) + tuning[line];
    assert stave[..] == cells[i := FretPitch(st)];
    j' := 0;
    fretNum[0] := '\0';
  }

  /** One pass of the scan loop's body, for the symbol `note`. */
  method ScanSymbol(note: Symbol, tuning: seq<int>, stave: array<int>, fretNum: array<char>,
                    line: int, i: int, j: int, ghost st: State)
      returns (stave': array<int>, line': int, i': int, j': int)
    requires tuning == Tuning
    requires Wf(st) && Allowed(st, note)
    requires Mirrors(st, stave, fretNum, line, i, j)
    modifies stave, fretNum
    ensures stave' == stave || (fresh(stave') && stave'.Length == StaveGrowthRate * stave.Length)
    ensures stave' != stave ==> note != Newline && i + 1 == stave.Length
    ensures Mirrors(Step(st, note), stave', fretNum, line', i', j')
  {
    stave', line', i', j' := stave, line, i, j;
    ghost var next := Step(st, note);
    if note == Newline {
      line' := line + 1;
      i' := 0;
    } else {
      if note.Char? && IsDigit(note.c) {
        fretNum[j'] := note.c;
        j' := j' + 1;
        fretNum[j'] := '\0';
        assert fretNum[..j'] == st.pending + [note.c];
      } else {
        assert j > 0 ==> fretNum[0] == st.pending[0] && IsDigit(st.pending[0]);
        if fretNum[0] != '\0' {
          j' := StoreFret(tuning, stave, fretNum, line, i, j, st);
        }
      }
      stave', i' := Advance(stave, i, next.notes);
    }
  }

  /** The symbol the loop reads at step n extends the scan so far by one Step. */
  lemma ScanNext(text: string, n: nat)
    requires WellDefined(text) && n <= |text|
    ensures Defined(Input(text)[..n]) && Defined(Input(text)[..n + 1])
    ensures Allowed(Run(Input(text)[..n]), Input(text)[n])
    ensures Input(text)[n] == if n < |text| then Char(text[n]) else Eof
    ensures Run(Input(text)[..n + 1]) == Step(Run(Input(text)[..n]), Input(text)[n])
  {
    var syms := Input(text);
    assert syms[..n + 1] == syms[..n] + [syms[n]];
    DefinedPrefix(syms, n + 1);
    RunSnoc(syms[..n], syms[n]);
  }

  /** The scan loop of `main`, over the characters of the file and then the
      end-of-file value. The returned stave holds, at every column, the pitch
      the scanner last stored there, and Unset elsewhere; every stored column
      lies inside it. */
  method ScanTab(text: string, tuning: seq<int>, capacity: nat) returns (stave: array<int>)
    requires tuning == Tuning
    requires capacity > 0
    requires WellDefined(text)
    ensures fresh(stave)
    ensures capacity <= stave.Length
    ensures forall k :: k in Final(text).notes ==> k < stave.Length
    ensures stave[..] == Stave(Final(text).notes, stave.Length)
  {
    ghost var syms := Input(text);
    stave := new int[capacity](_ => Unset);
    var fretNum := new char[BufferSize](_ => '\0');
    var line, i, j := 0, 0, 0;
    var n := 0;
    ghost var st := Start;
    while n <= |text|
      invariant 0 <= n <= |text| + 1
      invariant Defined(syms[..n]) && st == Run(syms[..n])
      invariant fresh(stave) && fresh(fretNum) && capacity <= stave.Length
      invariant Mirrors(st, stave, fretNum, line, i, j)
    {
      var note := if n < |text| then Char(text[n]) else Eof;
      ScanNext(text, n);
      stave, line, i, j := ScanSymbol(note, tuning, stave, fretNum, line, i, j, st);
      st := Step(st, note);
      n := n + 1;
    }
    assert syms[..n] == syms;
  }

  /** The render loop of `main`: one token per cell that holds a pitch, in
      column order, then a newline. */
  method RenderStave(stave: array<int>) returns (out: string)
    ensures out == Rendered(stave[..]) + "\n"
  {
    out := "";
    var i := 0;
    while i < stave.Length
      invariant 0 <= i <= stave.Length
      invariant out == Rendered(stave[..i])
    {
      assert stave[..i + 1] == stave[..i] + [stave[i]];
      if stave[i] > Unset {
        out := out + Token(stave[i]);
      }
      i := i + 1;
    }
    assert stave[..i] == stave[..];
    out := out + "\n";
  }

  /** `main` after the file is open: scan, then print. The output is the same
      for every initial capacity. */
  method Transcribe(text: string, capacity: nat) returns (out: string)
    requires capacity > 0
    requires WellDefined(text)
    ensures out == Output(text)
  {
    var tuning := [Note2Num("E", 4), Note2Num("B", 3), Note2Num("G", 3),
                   Note2Num("D", 3), Note2Num("A", 2), Note2Num("E", 2)];
    TuningValues();
    var stave := ScanTab(text, tuning, capacity);
    out := RenderStave(stave);
    StoredColumnsBound(Input(text));
    var notes := Final(text).notes;
    if stave.Length <= |text| + 1 {
      RenderedStaveWidth(notes, stave.Length, |text| + 1);
    } else {
      RenderedStaveWidth(notes, |text| + 1, stave.Length);
    }
  }

  /** `main` with the stave it allocates at start, DefaultStaveLen cells. */
  method TranscribeFile(text: string) returns (out: string)
    requires WellDefined(text)
    ensures out == Output(text)
  {
    out := Transcribe(text, DefaultStaveLen);
  }
}
