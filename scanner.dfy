/** The tab scanner as a pure state machine.

    The scanner reads the tab one symbol at a time. A newline moves to the
    next guitar string and back to column 0. A digit is appended to the
    pending fret number. Any other symbol first stores a pending fret number,
    if there is one, at the current column. Every symbol other than a newline,
    digits included, then advances the column by one. After the last
    character of the file comes exactly one end-of-file symbol, which takes
    the "any other symbol" path.

    The stored pitches are kept here as a map from column to pitch code: the
    stave buffer without its capacity, where a column that was never written
    reads as Unset.
 */
module Scanner {
  import opened Pitch
  import opened Numerals

  /** A symbol read by `getc`: a character of the file, or end of file. */
  datatype Symbol = Char(c: char) | Eof

  const Newline: Symbol := Char('\n')

  /** The value an unwritten stave cell holds (the buffer is filled with -1 bytes). */
  const Unset: int := -1

  /** The largest value a stave cell can hold: the cells are signed chars. */
  const MaxCell: int := 127

  /** Room in `fret_num` for digits: three chars, one of them the terminator. */
  const MaxPending: nat := 2

  /** The scanner registers: `string`, `i`, the digits in `fret_num[..j]`, and
      the stave contents by column. */
  datatype State = State(line: nat, col: nat, pending: string, notes: map<nat, int>)

  const Start: State := State(0, 0, [], map[])

  /** The characters of a file, as symbols. */
  function Chars(text: string): (syms: seq<Symbol>)
    ensures |syms| == |text|
    ensures forall k :: 0 <= k < |text| ==> syms[k] == Char(text[k])
  {
    if text == [] then [] else [Char(text[0])] + Chars(text[1..])
  }

  /** The symbols `main` processes for a file holding `text`: `feof` is tested
      before `getc`, so the end-of-file value is processed once after the last
      character. */
  function Input(text: string): (syms: seq<Symbol>)
    ensures |syms| == |text| + 1
    ensures forall k :: 0 <= k < |text| ==> syms[k] == Char(text[k])
    ensures syms[|text|] == Eof
  {
    Chars(text) + [Eof]
  }

  predicate IsDigitSymbol(sym: Symbol) {
    sym.Char? && IsDigit(sym.c)
  }

  /** What every reachable state satisfies: the pending buffer holds at most
      two digits and every stored pitch lies between the lowest open string
      and the largest cell value. */
  predicate Wf(st: State) {
    AllDigits(st.pending) && |st.pending| <= MaxPending &&
    forall k :: k in st.notes ==> Tuning[NumStrings - 1] <= st.notes[k] <= MaxCell
  }

  /** The pitch a pending fret number stands for on the current string. */
  function FretPitch(st: State): (p: int)
    requires AllDigits(st.pending) && st.line < NumStrings
    ensures Tuning[st.line] <= p < Tuning[st.line] + Pow10(|st.pending|)
  {
    Atoi(st.pending) + Tuning[st.line]
  }

  /** The symbol has a defined effect in C: a digit finds room in `fret_num`,
      and a store reads an existing tuning entry and fits a signed char. */
  predicate Allowed(st: State, sym: Symbol)
    requires Wf(st)
  {
    if sym == Newline then true
    else if IsDigitSymbol(sym) then |st.pending| < MaxPending
    else st.pending == [] || (st.line < NumStrings && FretPitch(st) <= MaxCell)
  }

  /** One iteration of the scan loop. */
  function Step(st: State, sym: Symbol): (next: State)
    requires Wf(st) && Allowed(st, sym)
    ensures Wf(next)
  {
    if sym == Newline then
      st.(line := st.line + 1, col := 0)
    else if IsDigitSymbol(sym) then
      st.(pending := st.pending + [sym.c], col := st.col + 1)
    else if st.pending != [] then
      State(st.line, st.col + 1, [], st.notes[st.col := FretPitch(st)])
    else
      st.(col := st.col + 1)
  }

  /** Every prefix of `syms` leaves the scanner in a state where the next
      symbol is Allowed. */
  predicate Defined(syms: seq<Symbol>)
    decreases |syms|, 0
  {
    syms == [] ||
    (Defined(syms[..|syms| - 1]) && Allowed(Run(syms[..|syms| - 1]), syms[|syms| - 1]))
  }

  /** The state after scanning `syms` from the start state. */
  function Run(syms: seq<Symbol>): (st: State)
    requires Defined(syms)
    ensures Wf(st)
    decreases |syms|, 1
  {
    if syms == [] then Start else Step(Run(syms[..|syms| - 1]), syms[|syms| - 1])
  }

  /** The input drives the C program into no undefined behaviour. */
  predicate WellDefined(text: string) {
    Defined(Input(text))
  }

  /** The state after the whole file, end-of-file symbol included. */
  function Final(text: string): (st: State)
    requires WellDefined(text)
    ensures Wf(st) && st.pending == []
    ensures forall k :: k in st.notes ==> k <= |text|
  {
    var syms := Input(text);
    assert syms == Chars(text) + [Eof];
    RunSnoc(Chars(text), Eof);
    StoredColumnsBound(syms);
    Run(syms)
  }

  /** The first n stave cells holding the pitches in `notes`. */
  function Stave(notes: map<nat, int>, n: nat): (cells: seq<int>)
    ensures |cells| == n
  {
    seq(n, k requires 0 <= k < n => if k in notes then notes[k] else Unset)
  }

  /** n cells as the allocator's fill leaves them. */
  function Blank(n: nat): (cells: seq<int>)
    ensures |cells| == n
  {
    seq(n, k => Unset)
  }

  /** Scanning one more symbol is one more Step. */
  lemma RunSnoc(syms: seq<Symbol>, sym: Symbol)
    requires Defined(syms + [sym])
    ensures Defined(syms) && Allowed(Run(syms), sym)
    ensures Run(syms + [sym]) == Step(Run(syms), sym)
  {
    assert (syms + [sym])[..|syms|] == syms;
  }

  /** A symbol the scanner allows extends a defined scan by one Step. */
  lemma RunExtend(syms: seq<Symbol>, sym: Symbol)
    requires Defined(syms) && Allowed(Run(syms), sym)
    ensures Defined(syms + [sym])
    ensures Run(syms + [sym]) == Step(Run(syms), sym)
  {
    assert (syms + [sym])[..|syms|] == syms;
  }

  /** A scan is the chain of its steps: if each symbol is allowed in the state
      before it and steps to the state after it, the scan is defined and ends in
      the last state of the chain. */
  lemma {:induction false} RunChain(syms: seq<Symbol>, states: seq<State>)
    requires |states| == |syms| + 1 && states[0] == Start
    requires forall k :: 0 <= k < |syms| ==>
      Wf(states[k]) && Allowed(states[k], syms[k]) && Step(states[k], syms[k]) == states[k + 1]
    ensures Defined(syms) && Run(syms) == states[|syms|]
    decreases |syms|
  {
    if syms != [] {
      var n := |syms| - 1;
      RunChain(syms[..n], states[..n + 1]);
      RunExtend(syms[..n], syms[n]);
      assert syms[..n] + [syms[n]] == syms;
    }
  }

  /** A scan without undefined behaviour has no undefined behaviour up to any point. */
  lemma {:induction false} DefinedPrefix(syms: seq<Symbol>, n: nat)
    requires Defined(syms) && n <= |syms|
    ensures Defined(syms[..n])
    decreases |syms|
  {
    if n < |syms| {
      var init := syms[..|syms| - 1];
      assert init[..n] == syms[..n];
      DefinedPrefix(init, n);
    } else {
      assert syms[..n] == syms;
    }
  }

  /** The string index is the number of newlines read so far. */
  lemma {:induction false} LineCountsNewlines(syms: seq<Symbol>)
    requires Defined(syms)
    ensures Run(syms).line == multiset(syms)[Newline]
    decreases |syms|
  {
    if syms != [] {
      var init := syms[..|syms| - 1];
      LineCountsNewlines(init);
      assert syms == init + [syms[|syms| - 1]];
      assert multiset(syms) == multiset(init) + multiset{syms[|syms| - 1]};
    }
  }

  /** The column is the number of symbols read since the last newline (or
      since the start): every non-newline symbol, digit or not, advances it by
      exactly one, and a newline resets it. */
  lemma {:induction false} ColumnCountsLineSymbols(syms: seq<Symbol>, n: nat)
    requires Defined(syms) && n <= |syms|
    requires n == 0 || syms[n - 1] == Newline
    requires forall k :: n <= k < |syms| ==> syms[k] != Newline
    ensures Run(syms).col == |syms| - n
    decreases |syms|
  {
    if |syms| > n {
      var init := syms[..|syms| - 1];
      ColumnCountsLineSymbols(init, n);
    }
    else if n > 0 {
      assert syms == syms[..|syms| - 1] + [Newline];
    }
  }

  /** Every stored column is smaller than the number of symbols read: no
      column lies beyond the longest line. */
  lemma {:induction false} StoredColumnsBound(syms: seq<Symbol>)
    requires Defined(syms)
    ensures Run(syms).col <= |syms|
    ensures forall k :: k in Run(syms).notes ==> k < |syms|
    decreases |syms|
  {
    if syms != [] {
      StoredColumnsBound(syms[..|syms| - 1]);
    }
  }

  /** A stored column is never cleared: later symbols can only add columns or
      overwrite their pitch. */
  lemma {:induction false} NotesOnlyGrow(a: seq<Symbol>, b: seq<Symbol>)
    requires Defined(a + b)
    ensures Defined(a)
    ensures Run(a).notes.Keys <= Run(a + b).notes.Keys
    decreases |b|
  {
    if b == [] {
      assert a + b == a;
    } else {
      var b' := b[..|b| - 1];
      assert (a + b)[..|a + b| - 1] == a + b';
      NotesOnlyGrow(a, b');
    }
  }

  /** A newline moves to the next string and to column 0 and keeps the pending
      digits, which the next line completes. */
  lemma NewlineKeepsPending(syms: seq<Symbol>)
    requires Defined(syms + [Newline])
    ensures Run(syms + [Newline]).line == Run(syms).line + 1
    ensures Run(syms + [Newline]).col == 0
    ensures Run(syms + [Newline]).pending == Run(syms).pending
    ensures Run(syms + [Newline]).notes == Run(syms).notes
  {
    RunSnoc(syms, Newline);
  }

  /** A digit is appended to the pending fret number, advances the column and
      stores nothing. */
  lemma DigitAccumulates(syms: seq<Symbol>, c: char)
    requires IsDigit(c) && Defined(syms + [Char(c)])
    ensures |Run(syms).pending| < MaxPending
    ensures Run(syms + [Char(c)]).pending == Run(syms).pending + [c]
    ensures Run(syms + [Char(c)]).col == Run(syms).col + 1
    ensures Run(syms + [Char(c)]).notes == Run(syms).notes
  {
    RunSnoc(syms, Char(c));
  }

  /** Any other symbol, end of file included, advances the column. If digits
      are pending it stores their value plus the current string's open pitch at
      the column of this symbol and empties the buffer; otherwise it changes
      no cell. */
  lemma TerminatorStores(syms: seq<Symbol>, sym: Symbol)
    requires sym != Newline && !IsDigitSymbol(sym) && Defined(syms + [sym])
    ensures Run(syms + [sym]).col == Run(syms).col + 1
    ensures Run(syms + [sym]).pending == []
    ensures Run(syms).pending == [] ==> Run(syms + [sym]).notes == Run(syms).notes
    ensures Run(syms).pending != [] ==>
      Run(syms).line < NumStrings &&
      Run(syms + [sym]).notes == Run(syms).notes[Run(syms).col := FretPitch(Run(syms))]
  {
    RunSnoc(syms, sym);
  }

  /** The end-of-file symbol is read exactly once, after the last character,
      and flushes a fret number the file ends with: it is stored at the column
      following the last character of the last line. */
  lemma EofFlushes(text: string)
    requires WellDefined(text)
    ensures Defined(Chars(text))
    ensures Final(text).pending == []
    ensures var st := Run(Chars(text));
      if st.pending == [] then Final(text).notes == st.notes
      else st.line < NumStrings && Final(text).notes == st.notes[st.col := FretPitch(st)]
  {
    TerminatorStores(Chars(text), Eof);
  }

  /** Growing a stave whose stored columns all lie below n appends unset cells. */
  lemma StaveGrow(notes: map<nat, int>, n: nat, m: nat)
    requires forall k :: k in notes ==> k < n
    ensures Stave(notes, n + m) == Stave(notes, n) + Blank(m)
  {
  }

  /** Storing a pitch in a column below n writes that one cell. */
  lemma StaveStore(notes: map<nat, int>, n: nat, k: nat, v: int)
    requires k < n
    ensures Stave(notes[k := v], n) == Stave(notes, n)[k := v]
  {
  }
}
