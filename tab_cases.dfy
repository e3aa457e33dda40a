/** Worked inputs that pin down the scanner's column, buffer and end-of-file
    rules, and what the program prints for them. */
module TabCases {
  import opened Pitch
  import opened Numerals
  import opened Scanner
  import opened Render
  import opened Transcriber

  /** The states the scan of "0-2-3" passes through. */
  const FillerStates: seq<State> := [Start, State(0, 1, "0", map[]), State(0, 2, "", map[1 := 52]),
    State(0, 3, "2", map[1 := 52]), State(0, 4, "", map[1 := 52, 3 := 54]),
    State(0, 5, "3", map[1 := 52, 3 := 54]), State(0, 6, "", map[1 := 52, 3 := 54, 5 := 55])]

  lemma FillerInput()
    ensures Input("0-2-3") == [Char('0'), Char('-'), Char('2'), Char('-'), Char('3'), Eof]
  {
  }

  lemma FillerSteps(syms: seq<Symbol>)
    requires syms == [Char('0'), Char('-'), Char('2'), Char('-'), Char('3'), Eof]
    ensures forall k :: 0 <= k < |syms| ==>
      Wf(FillerStates[k]) && Allowed(FillerStates[k], syms[k]) && Step(FillerStates[k], syms[k]) == FillerStates[k + 1]
  {
    assert Atoi("0") == 0 && Atoi("2") == 2 && Atoi("3") == 3;
    forall k | 0 <= k < |syms|
      ensures Wf(FillerStates[k]) && Allowed(FillerStates[k], syms[k]) && Step(FillerStates[k], syms[k]) == FillerStates[k + 1]
    {
      if k == 0 {} else if k == 1 {} else if k == 2 {} else if k == 3 {} else if k == 4 {} else {}
    }
  }

  /** Frets are stored at the column of the symbol that ends them: in "0-2-3"
      at columns 1, 3 and 5, the last one by the end-of-file symbol. */
  lemma FillerColumns()
    ensures WellDefined("0-2-3")
    ensures Final("0-2-3").notes == map[1 := 52, 3 := 54, 5 := 55]
  {
    FillerInput();
    FillerSteps(Input("0-2-3"));
    RunChain(Input("0-2-3"), FillerStates);
  }

  /** The states the scan of "1\n2-" passes through. */
  const CarryStates: seq<State> := [Start, State(0, 1, "1", map[]), State(1, 0, "1", map[]),
    State(1, 1, "12", map[]), State(1, 2, "", map[1 := 59]), State(1, 3, "", map[1 := 59])]

  lemma CarryInput()
    ensures Input("1\n2-") == [Char('1'), Newline, Char('2'), Char('-'), Eof]
  {
  }

  lemma CarrySteps(syms: seq<Symbol>)
    requires syms == [Char('1'), Newline, Char('2'), Char('-'), Eof]
    ensures forall k :: 0 <= k < |syms| ==>
      Wf(CarryStates[k]) && Allowed(CarryStates[k], syms[k]) && Step(CarryStates[k], syms[k]) == CarryStates[k + 1]
  {
    assert Atoi("12") == 12;
    forall k | 0 <= k < |syms|
      ensures Wf(CarryStates[k]) && Allowed(CarryStates[k], syms[k]) && Step(CarryStates[k], syms[k]) == CarryStates[k + 1]
    {
      if k == 0 {} else if k == 1 {} else if k == 2 {} else if k == 3 {} else {}
    }
  }

  /** A fret that ends its line is not stored by the newline: its digits wait
      in the buffer, and the next line's digits extend them. "1" then "2-" is
      fret 12 on the second string, stored at column 1. */
  lemma PendingCarriesOverNewline()
    ensures WellDefined("1\n2-")
    ensures Final("1\n2-").notes == map[1 := 59]
  {
    CarryInput();
    CarrySteps(Input("1\n2-"));
    RunChain(Input("1\n2-"), CarryStates);
  }

  /** The states the scan of "3-\n0-" passes through. */
  const OverwriteStates: seq<State> := [Start, State(0, 1, "3", map[]), State(0, 2, "", map[1 := 55]),
    State(1, 0, "", map[1 := 55]), State(1, 1, "0", map[1 := 55]), State(1, 2, "", map[1 := 47]),
    State(1, 3, "", map[1 := 47])]

  lemma OverwriteInput()
    ensures Input("3-\n0-") == [Char('3'), Char('-'), Newline, Char('0'), Char('-'), Eof]
  {
  }

  lemma OverwriteSteps(syms: seq<Symbol>)
    requires syms == [Char('3'), Char('-'), Newline, Char('0'), Char('-'), Eof]
    ensures forall k :: 0 <= k < |syms| ==>
      Wf(OverwriteStates[k]) && Allowed(OverwriteStates[k], syms[k]) && Step(OverwriteStates[k], syms[k]) == OverwriteStates[k + 1]
  {
    assert Atoi("3") == 3 && Atoi("0") == 0;
    forall k | 0 <= k < |syms|
      ensures Wf(OverwriteStates[k]) && Allowed(OverwriteStates[k], syms[k]) && Step(OverwriteStates[k], syms[k]) == OverwriteStates[k + 1]
    {
      if k == 0 {} else if k == 1 {} else if k == 2 {} else if k == 3 {} else if k == 4 {} else {}
    }
  }

  /** All lines share one row of columns: a later string's fret at the same
      column replaces the earlier one. */
  lemma LaterStringOverwrites()
    ensures WellDefined("3-\n0-")
    ensures Final("3-\n0-").notes == map[1 := 47]
  {
    OverwriteInput();
    OverwriteSteps(Input("3-\n0-"));
    RunChain(Input("3-\n0-"), OverwriteStates);
  }

  /** The states the scan of "0-2\n" passes through. */
  const TrailingStates: seq<State> := [Start, State(0, 1, "0", map[]), State(0, 2, "", map[1 := 52]),
    State(0, 3, "2", map[1 := 52]), State(1, 0, "2", map[1 := 52]), State(1, 1, "", map[0 := 49, 1 := 52])]

  lemma TrailingInput()
    ensures Input("0-2\n") == [Char('0'), Char('-'), Char('2'), Newline, Eof]
  {
  }

  lemma TrailingSteps(syms: seq<Symbol>)
    requires syms == [Char('0'), Char('-'), Char('2'), Newline, Eof]
    ensures forall k :: 0 <= k < |syms| ==>
      Wf(TrailingStates[k]) && Allowed(TrailingStates[k], syms[k]) && Step(TrailingStates[k], syms[k]) == TrailingStates[k + 1]
  {
    assert Atoi("0") == 0 && Atoi("2") == 2;
    forall k | 0 <= k < |syms|
      ensures Wf(TrailingStates[k]) && Allowed(TrailingStates[k], syms[k]) && Step(TrailingStates[k], syms[k]) == TrailingStates[k + 1]
    {
      if k == 0 {} else if k == 1 {} else if k == 2 {} else if k == 3 {} else {}
    }
  }

  /** In a file that ends with a newline, a fret that ends its line is stored
      by the end-of-file value: at column 0, with the tuning of the string
      after the last line. "0-2\n" stores 2 + 47 = 49 in front of the 52 at
      column 1. */
  lemma TrailingFretWraps()
    ensures WellDefined("0-2\n")
    ensures Final("0-2\n").notes == map[0 := 49, 1 := 52]
  {
    TrailingInput();
    TrailingSteps(Input("0-2\n"));
    RunChain(Input("0-2\n"), TrailingStates);
  }

  /** The two cells "0-2\n" leaves, the wrapped fret first, print as C#4 and E4. */
  lemma TrailingText()
    ensures Rendered(Stave(map[0 := 49, 1 := 52], 2)) == "C#4 " + "E4 "
  {
    var cells := Stave(map[0 := 49, 1 := 52], 2);
    assert cells == [49, 52];
    assert cells[..1] == [49] && [49][..0] == [];
    assert Num2Octave(49) == 4 && Num2Note(49) == NoteName(1) && Format(4) == "4";
    TokenOctave4(4);
    assert Token(49) == "C#4 " && Token(52) == "E4 ";
  }

  lemma SpellOutTrailing(printed: string)
    requires printed == "C#4 " + "E4 "
    ensures printed + "\n" == "C#4 E4 \n"
  {
  }

  /** "0-2\n" prints the fret of its last line first: C#4, then E4. */
  lemma TrailingOutput()
    ensures WellDefined("0-2\n")
    ensures Output("0-2\n") == "C#4 E4 \n"
  {
    var notes := map[0 := 49, 1 := 52];
    TrailingFretWraps();
    var printed := Rendered(Stave(notes, 5));
    assert Output("0-2\n") == printed + "\n";
    RenderedStaveWidth(notes, 2, 5);
    TrailingText();
    SpellOutTrailing(printed);
  }

  /** The states the scan of "0\n0\n" passes through. */
  const OverflowStates: seq<State> := [Start, State(0, 1, "0", map[]), State(1, 0, "0", map[]),
    State(1, 1, "00", map[]), State(2, 0, "00", map[])]

  lemma OverflowInput(text: string)
    requires text == "0\n0\n0\n0\n0\n0\n"
    ensures Input(text)[..5] == [Char('0'), Newline, Char('0'), Newline, Char('0')]
  {
    var syms := Input(text);
    assert syms[..5] == [Char(text[0]), Char(text[1]), Char(text[2]), Char(text[3]), Char(text[4])];
  }

  lemma OverflowSteps(syms: seq<Symbol>)
    requires syms == [Char('0'), Newline, Char('0'), Newline]
    ensures forall k :: 0 <= k < |syms| ==>
      Wf(OverflowStates[k]) && Allowed(OverflowStates[k], syms[k]) && Step(OverflowStates[k], syms[k]) == OverflowStates[k + 1]
  {
    forall k | 0 <= k < |syms|
      ensures Wf(OverflowStates[k]) && Allowed(OverflowStates[k], syms[k]) && Step(OverflowStates[k], syms[k]) == OverflowStates[k + 1]
    {
      if k == 0 {} else if k == 1 {} else if k == 2 {} else {}
    }
  }

  /** The third "0" of six open-string lines finds two digits pending. */
  lemma OverflowPrefix(syms: seq<Symbol>)
    requires syms == [Char('0'), Newline, Char('0'), Newline, Char('0')]
    ensures !Defined(syms)
  {
    var s4 := syms[..4];
    OverflowSteps(s4);
    RunChain(s4, OverflowStates);
    assert !Allowed(Run(s4), syms[4]);
  }

  /** Six lines of a lone "0" each overflow the fret buffer: the digits carry
      over the newlines, and the third one has no room. */
  lemma SixOpenStringsOverflow()
    ensures !WellDefined("0\n0\n0\n0\n0\n0\n")
  {
    var text := "0\n0\n0\n0\n0\n0\n";
    OverflowInput(text);
    OverflowPrefix(Input(text)[..5]);
    if WellDefined(text) {
      DefinedPrefix(Input(text), 5);
      assert false;
    }
  }

  /** A blank cell followed by a stored pitch prints that pitch's token. */
  lemma RenderedGapThenPitch(v: int)
    requires v > Unset
    ensures Rendered([Unset, v]) == Token(v)
  {
    assert [Unset, v][..1] == [Unset];
    assert [Unset][..0] == [];
    assert Joined(Printed, [Unset]) == Joined(Printed, []) + Printed(Unset);
    assert Joined(Printed, [Unset, v]) == Joined(Printed, [Unset]) + Printed(v);
  }

  /** The token of a pitch in octave 4, spelled out. */
  lemma TokenOctave4(k: nat)
    requires k < NumNotes
    ensures Token(48 + k) == NoteName(k) + "4 "
  {
    assert Num2Octave(48 + k) == 4;
    assert Num2Note(48 + k) == NoteName(k);
    assert Format(4) == "4";
  }

  lemma HighStringTokens()
    ensures Token(52) == "E4 " && Token(54) == "F#4 " && Token(55) == "G4 "
  {
    TokenOctave4(4);
    TokenOctave4(6);
    TokenOctave4(7);
    assert NoteName(4) == "E" && NoteName(6) == "F#" && NoteName(7) == "G";
  }

  /** The six stave cells "0-2-3" leaves, as three gap-then-pitch pairs. */
  lemma FillerCells()
    ensures Stave(map[1 := 52, 3 := 54, 5 := 55], 6) == [Unset, 52] + ([Unset, 54] + [Unset, 55])
  {
    var cells := Stave(map[1 := 52, 3 := 54, 5 := 55], 6);
    assert forall k :: 0 <= k < 6 ==> cells[k] == ([Unset, 52] + ([Unset, 54] + [Unset, 55]))[k];
  }

  lemma FillerText()
    ensures Rendered(Stave(map[1 := 52, 3 := 54, 5 := 55], 6)) == "E4 " + ("F#4 " + "G4 ")
  {
    var a, b, c := [Unset, 52], [Unset, 54], [Unset, 55];
    FillerCells();
    RenderedAppend(a, b + c);
    RenderedAppend(b, c);
    RenderedGapThenPitch(52);
    RenderedGapThenPitch(54);
    RenderedGapThenPitch(55);
    HighStringTokens();
  }

  lemma SpellOut(printed: string)
    requires printed == "E4 " + ("F#4 " + "G4 ")
    ensures printed + "\n" == "E4 F#4 G4 \n"
  {
  }

  /** "0-2-3" on the high E string prints E4, F#4 and G4. */
  lemma FillerOutput()
    ensures WellDefined("0-2-3")
    ensures Output("0-2-3") == "E4 F#4 G4 \n"
  {
    FillerColumns();
    FillerText();
    var printed := Rendered(Stave(map[1 := 52, 3 := 54, 5 := 55], 6));
    assert Output("0-2-3") == printed + "\n";
    SpellOut(printed);
  }
}
