/** The render loop: every stave cell holding a pitch is printed as its note
    name, its octave and a space, in column order; a newline ends the output.
    Reading the printed text back gives the stored pitches in the same order. */
module Render {
  import opened Pitch
  import opened Numerals
  import opened Scanner

  datatype Option<T> = None | Some(value: T)

  /** The word `printf("%s%i", ...)` writes for a stored pitch: its note name,
      then its octave in decimal. */
  function Word(p: int): (w: string)
    requires p >= 0
    ensures |w| >= 2
  {
    Num2Note(p) + Format(Num2Octave(p))
  }

  /** What `printf("%s%i ", ...)` writes for one stored pitch. */
  function Token(p: int): (t: string)
    requires p >= 0
    ensures |t| >= 3 && t[|t| - 1] == ' '
  {
    Word(p) + " "
  }

  /** What one iteration of the render loop writes for a cell. */
  function Printed(cell: int): (t: string)
    ensures t == [] || t[|t| - 1] == ' '
  {
    if cell > Unset then Token(cell) else []
  }

  /** The texts `text` gives the cells, one after another in column order. */
  function Joined(text: int -> string, cells: seq<int>): string {
    if cells == [] then [] else Joined(text, cells[..|cells| - 1]) + text(cells[|cells| - 1])
  }

  /** What the render loop writes for `cells`, before the final newline. */
  function Rendered(cells: seq<int>): string {
    Joined(Printed, cells)
  }

  /** The cells that hold a pitch, in column order. */
  function Occupied(cells: seq<int>): (ps: seq<int>)
    ensures |ps| <= |cells|
    ensures forall p :: p in ps <==> p in cells && p > Unset
  {
    if cells == [] then []
    else
      var last := cells[|cells| - 1];
      Occupied(cells[..|cells| - 1]) + (if last > Unset then [last] else [])
  }

  /** Index of the first digit of `w`, or |w| if it has none. */
  function DigitStart(w: string): (i: nat)
    ensures i <= |w|
    ensures forall k :: 0 <= k < i ==> !IsDigit(w[k])
    ensures i < |w| ==> IsDigit(w[i])
  {
    if w == [] || IsDigit(w[0]) then 0 else 1 + DigitStart(w[1..])
  }

  /** Reads one printed token, without its space, back as a pitch code: a note
      name followed by the decimal octave. */
  function ReadWord(w: string): Option<int> {
    var i := DigitStart(w);
    if i == |w| || !AllDigits(w[i..]) || !KnownName(w[..i]) then None
    else Some(Note2Num(w[..i], Atoi(w[i..])))
  }

  /** Where the last word of `u` starts: just after its last space, or at 0. */
  function WordStart(u: string): (i: nat)
    ensures i <= |u|
    ensures i == 0 || u[i - 1] == ' '
    ensures forall k :: i <= k < |u| ==> u[k] != ' '
  {
    if u == [] then 0 else if u[|u| - 1] == ' ' then |u| else WordStart(u[..|u| - 1])
  }

  /** Reads text made of space-terminated tokens back as the pitch codes they
      name; None if some token is not of that form. */
  function ReadOutput(out: string): Option<seq<int>>
    decreases |out|
  {
    if out == [] then Some([])
    else if out[|out| - 1] != ' ' then None
    else
      var i := WordStart(out[..|out| - 1]);
      match ReadOutput(out[..i])
      case None => None
      case Some(ps) =>
        match ReadWord(out[i..|out| - 1])
        case None => None
        case Some(p) => Some(ps + [p])
  }

  /** No note name holds a digit or a space. */
  lemma NamesPlain(p: int)
    requires p >= 0
    ensures forall k :: 0 <= k < |Num2Note(p)| ==> !IsDigit(Num2Note(p)[k]) && Num2Note(p)[k] != ' '
  {
  }

  /** A printed word reads back as the pitch it was printed for. */
  lemma ReadToken(p: int)
    requires p >= 0
    ensures ReadWord(Word(p)) == Some(p)
  {
    var name, digits := Num2Note(p), Format(Num2Octave(p));
    var w := Word(p);
    NamesPlain(p);
    assert DigitStart(w) == |name|;
    assert w[..|name|] == name && w[|name|..] == digits;
    AtoiFormat(Num2Octave(p));
    PitchRoundTrip(p);
  }

  /** A word that follows a space (or starts the text) is the last word. */
  lemma WordStartAfter(a: string, w: string)
    requires a == [] || a[|a| - 1] == ' '
    requires forall k :: 0 <= k < |w| ==> w[k] != ' '
    ensures WordStart(a + w) == |a|
  {
    var i := WordStart(a + w);
    assert a != [] ==> (a + w)[|a| - 1] == ' ';
    assert i >= |a|;
    assert i <= |a|;
  }

  /** Reading a text that ends with one more space-terminated word reads the
      text before it and then that word. */
  lemma ReadOutputSnoc(a: string, w: string)
    requires a == [] || a[|a| - 1] == ' '
    requires forall k :: 0 <= k < |w| ==> w[k] != ' '
    ensures ReadOutput(a + w + " ") ==
      if ReadOutput(a).Some? && ReadWord(w).Some? then Some(ReadOutput(a).value + [ReadWord(w).value]) else None
  {
    var out := a + w + " ";
    assert out[..|out| - 1] == a + w;
    WordStartAfter(a, w);
    assert out[..|a|] == a;
    assert out[|a|..|out| - 1] == w;
  }

  /** A printed word has no space in it. */
  lemma WordPlain(p: int)
    requires p >= 0
    ensures forall k :: 0 <= k < |Word(p)| ==> Word(p)[k] != ' '
  {
    NamesPlain(p);
  }

  /** The printed text is empty or ends with the space of its last token. */
  lemma RenderedShape(cells: seq<int>)
    ensures Rendered(cells) == [] || Rendered(cells)[|Rendered(cells)| - 1] == ' '
  {
    if cells != [] {
      var last := cells[|cells| - 1];
      var before := Rendered(cells[..|cells| - 1]);
      if Printed(last) == [] {
        RenderedShape(cells[..|cells| - 1]);
        assert Rendered(cells) == before;
      }
    }
  }

  /** A printed pitch is its word and a space; the word has no space in it and
      reads back as the pitch. */
  lemma PrintedWord(p: int)
    requires p > Unset
    ensures Printed(p) == Word(p) + " "
    ensures forall k :: 0 <= k < |Word(p)| ==> Word(p)[k] != ' '
    ensures ReadWord(Word(p)) == Some(p)
  {
    WordPlain(p);
    ReadToken(p);
  }

  /** A text that reads back as `ps`, followed by a word that reads as `p` and
      a space, reads back as `ps` then `p`. */
  lemma ReadBackWord(a: string, ps: seq<int>, w: string, p: int)
    requires a == [] || a[|a| - 1] == ' '
    requires forall k :: 0 <= k < |w| ==> w[k] != ' '
    requires ReadOutput(a) == Some(ps) && ReadWord(w) == Some(p)
    ensures ReadOutput(a + (w + " ")) == Some(ps + [p])
  {
    Regroup(a, w);
    ReadOutputSnoc(a, w);
  }

  lemma Regroup(a: string, w: string)
    ensures a + (w + " ") == a + w + " "
  {
  }

  /** A cell holding a pitch adds that pitch to what the printed text reads back as. */
  lemma ReadBackPitch(cells: seq<int>)
    requires cells != [] && cells[|cells| - 1] > Unset
    requires ReadOutput(Rendered(cells[..|cells| - 1])) == Some(Occupied(cells[..|cells| - 1]))
    ensures ReadOutput(Rendered(cells)) == Some(Occupied(cells))
  {
    var init, last := cells[..|cells| - 1], cells[|cells| - 1];
    PrintedWord(last);
    RenderedShape(init);
    ReadBackWord(Rendered(init), Occupied(init), Word(last), last);
  }

  /** A cell holding no pitch changes neither the printed text nor the pitches. */
  lemma ReadBackGap(cells: seq<int>)
    requires cells != [] && cells[|cells| - 1] <= Unset
    ensures Rendered(cells) == Rendered(cells[..|cells| - 1])
    ensures Occupied(cells) == Occupied(cells[..|cells| - 1])
  {
  }

  /** The printed output reads back as exactly the stored pitches, one per
      occupied cell, in column order. */
  lemma {:induction false} ReadBackRendered(cells: seq<int>)
    ensures ReadOutput(Rendered(cells)) == Some(Occupied(cells))
    decreases |cells|
  {
    if cells == [] {
      assert Rendered(cells) == [] && Occupied(cells) == [];
    } else {
      ReadBackRendered(cells[..|cells| - 1]);
      if cells[|cells| - 1] > Unset {
        ReadBackPitch(cells);
      } else {
        ReadBackGap(cells);
      }
    }
  }

  /** Joining a concatenation joins each part in turn. */
  lemma {:induction false} JoinedAppend(text: int -> string, a: seq<int>, b: seq<int>)
    ensures Joined(text, a + b) == Joined(text, a) + Joined(text, b)
    decreases |b|
  {
    if b == [] {
      assert a + b == a;
    } else {
      var b' := b[..|b| - 1];
      assert (a + b)[..|a + b| - 1] == a + b';
      assert (a + b)[|a + b| - 1] == b[|b| - 1];
      JoinedAppend(text, a, b');
    }
  }

  /** Rendering a concatenation renders each part in turn. */
  lemma RenderedAppend(a: seq<int>, b: seq<int>)
    ensures Rendered(a + b) == Rendered(a) + Rendered(b)
  {
    JoinedAppend(Printed, a, b);
  }

  /** Unset cells print nothing. */
  lemma {:induction false} RenderedBlank(n: nat)
    ensures Rendered(Blank(n)) == []
  {
    if n > 0 {
      assert Blank(n)[..n - 1] == Blank(n - 1);
      RenderedBlank(n - 1);
    }
  }

  /** Once every stored column is inside the stave, its length no longer
      changes what is printed: growing the buffer never changes the output. */
  lemma RenderedStaveWidth(notes: map<nat, int>, n: nat, m: nat)
    requires forall k :: k in notes ==> k < n
    requires n <= m
    ensures Rendered(Stave(notes, m)) == Rendered(Stave(notes, n))
  {
    var narrow, blank := Stave(notes, n), Blank(m - n);
    StaveGrow(notes, n, m - n);
    assert Stave(notes, m) == narrow + blank;
    RenderedAppend(narrow, blank);
    RenderedBlank(m - n);
    assert Rendered(narrow + blank) == Rendered(narrow) + [];
  }
}
