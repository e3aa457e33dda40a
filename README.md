# Guitar tab to note names, modelled in Dafny

This project models the guitar tablature converter in `guitar/src/main.c`.
The program reads a tab file: one line per guitar string, digit runs for fret
numbers, and any other characters as spacing. It turns every fret into an
absolute pitch code by adding the open-string pitch of the current line. It
stores the code in a growable "stave" array at the current column, and finally
prints the note name and octave of every stored cell, in column order.

The model has five modules:

- `Pitch` (pitch.dfy): the pitch codec `num2note`, `num2octave` and
  `note2num`, and the standard tuning table (E4 B3 G3 D3 A2 E2 = 52 47 43 38 33 28).
- `Numerals` (numerals.dfy): `isdigit`, `atoi` on digit runs, and the `%i`
  conversion used when printing octaves.
- `Scanner` (scanner.dfy): the scan loop as a pure state machine. Its state is
  the string index, the column, the pending digits and the stored pitches by
  column. The input is the file's characters followed by exactly one
  end-of-file symbol: `feof` is tested before `getc`, so the `EOF` value is
  processed once as an ordinary non-digit character. `Defined` is the absence
  of C undefined behaviour along the scan.
- `Render` (render.dfy): the render loop as a function of the cells, and a
  reader that parses the printed text back into pitch codes.
- `Transcriber` (transcriber.dfy): `main` without its file handling, in
  imperative form. `ScanTab` runs the loop over an `array<int>` stave that
  starts with a given capacity (2048 in the program) filled with -1, and over a
  three-character `fret_num` buffer with its index `j`. `Grow` doubles the array
  and fills the new half with -1. `RenderStave` is the print loop.
  `Transcribe` builds the tuning table with `Note2Num`, scans, and renders.
  Each method is proved against the pure functions of `Scanner` and `Render`.
- `TabCases` (tab_cases.dfy): worked inputs that fix the column, buffer and
  end-of-file rules.

Some behaviours of the code are easy to mistake:

- `note2num` on a name missing from the table leaves the search index at 12,
  so it returns `12 + 12*octave`, the code of C one octave up (`Pitch.UnknownName`).
- A newline keeps pending fret digits. They stay in the buffer, and the next
  line's digits extend them; the first non-digit on the next line stores the
  fret with that line's tuning (`TabCases.PendingCarriesOverNewline`).
- `feof` is tested before `getc`, so the end-of-file value goes once through
  the loop body as a non-digit: a fret at the very end of the file is stored
  (`Scanner.EofFlushes`).
- In a file that ends with a newline, the usual case, a fret that ends the
  last line carries over that newline and is stored by the end-of-file value
  at column 0, with the tuning of the string after the last line. `"0-2\n"`
  stores 52 at column 1 and then 2 + 47 = 49 at column 0, so it prints
  `C#4 E4 `: the last fret comes first (`TabCases.TrailingFretWraps`,
  `TabCases.TrailingOutput`).
- A fret is stored at the column of the character that ends it, after its
  digits have advanced the column: in `"0-2-3"` the frets land at columns 1, 3
  and 5 (`TabCases.FillerColumns`).
- Digits carry over newlines even on lines that hold a lone `0`: with six such
  lines the third digit overflows the three-byte `fret_num` buffer, which is
  undefined behaviour that the model excludes (`TabCases.SixOpenStringsOverflow`).

All lines share one row of columns. A fret on a later string replaces a fret
stored at the same column by an earlier string (`TabCases.LaterStringOverwrites`).
The model keeps this behaviour.

## Model

| member | source | states |
|---|---|---|
| `Pitch.NoteName` | guitar/src/main.c:15-18 | the `notes` table: every name is one letter from A to G, optionally followed by `#` |
| `Pitch.Num2Octave` | guitar/src/main.c:24-26 | the octave is C's truncating quotient by 12: for a non-negative code, `12*o <= num < 12*o + 12` and `o >= 0`; for a negative code, the bounds for rounding toward zero |
| `Pitch.Num2Note` | guitar/src/main.c:14-21 | for a non-negative code, the name is the table entry at the code minus 12 times its octave |
| `Pitch.FindName` | guitar/src/main.c:36-41 | the linear search returns the first index whose name matches, or 12 when no name matches |
| `Pitch.Note2Num` | guitar/src/main.c:29-45 | the code minus `12*octave` lies in 0..12; it is below 12 exactly when the name is known, and then it is that name's index |
| `Pitch.NamesDistinct` | guitar/src/main.c:31-34 | no two entries of the name table are equal |
| `Pitch.FindOwnName` | guitar/src/main.c:37-41 | the search for the k-th name stops at k |
| `Pitch.NoteRoundTrip` | guitar/src/main.c:14-45 | for each of the 12 names and every octave >= 0, decoding `note2num(name, octave)` gives back the name and the octave |
| `Pitch.PitchRoundTrip` | guitar/src/main.c:14-45 | for every code >= 0, `note2num(num2note(p), num2octave(p)) == p` |
| `Pitch.UnknownName` | guitar/src/main.c:37-44 | a name not in the table gives `12 + 12*octave`, the same code as C one octave higher |
| `Pitch.NamedCode` | guitar/src/main.c:36-44 | the k-th name of the table in a given octave has code `k + 12*octave` |
| `Pitch.TuningValues` | guitar/src/main.c:56-63 | entry by entry, the tuning table `Pitch.Tuning` is the six `note2num` results for E4, B3, G3, D3, A2, E2, i.e. 52, 47, 43, 38, 33, 28 |
| `Pitch.TuningDescends` | guitar/src/main.c:56-63 | the table has six entries, strictly decreasing from string 0 (high E) to string 5 (low E) |
| `Numerals.IsDigit` | guitar/src/main.c:99 | defined as: the character lies in the ASCII range '0'..'9' |
| `Numerals.DigitOfValue` | guitar/src/main.c:99 | `isdigit` accepts only the ten digit characters: each is the digit character of its own value |
| `Numerals.Atoi` | guitar/src/main.c:106 | `atoi` of an n-digit run is below 10^n |
| `Numerals.Format` | guitar/src/main.c:130 | `%i` of a non-negative value is a non-empty digit string with no leading zero |
| `Numerals.AtoiFormat` | guitar/src/main.c:130 | reading a printed octave back with `atoi` gives the octave |
| `Scanner.Chars` | guitar/src/main.c:89-92 | the symbols `getc` yields are the file's characters in order |
| `Scanner.Input` | guitar/src/main.c:89-92 | the loop reads one symbol more than the file has characters: the k-th character for k below the length, then the end-of-file value last |
| `Scanner.FretPitch` | guitar/src/main.c:106 | `atoi(fret_num) + tuning[string]` lies between the string's open pitch and that pitch plus 10^n for n pending digits |
| `Scanner.Allowed` | guitar/src/main.c:101-106 | defined as: a newline is always allowed; a digit only while fewer than two digits are pending, so that it and the NUL after it fit `fret_num`; a store only on one of the six strings and of a value of at most 127, so that it fits a signed-char cell |
| `Scanner.Defined` | guitar/src/main.c:89-122 | defined as: at every step of the scan, the next symbol is `Allowed` in the state reached so far |
| `Scanner.WellDefined` | guitar/src/main.c:89-122 | defined as: the scan of the whole file, end-of-file value included, has no undefined behaviour |
| `Scanner.Step` | guitar/src/main.c:94-120 | one iteration keeps the reachable-state invariant: at most two pending digits, and every stored pitch between 28 and 127 |
| `Scanner.Run` | guitar/src/main.c:89-122 | every state the scan reaches satisfies that invariant |
| `Scanner.RunChain` | guitar/src/main.c:89-122 | a sequence of states that starts at the initial state and follows one allowed step per symbol is the scan of those symbols, free of undefined behaviour |
| `Scanner.Final` | guitar/src/main.c:89-122 | after the whole file and its end-of-file value, the fret buffer is empty, the reachable-state invariant holds, and every stored column is at most the file's length |
| `Scanner.DefinedPrefix` | guitar/src/main.c:89-122 | an input free of undefined behaviour is free of it up to any point |
| `Scanner.LineCountsNewlines` | guitar/src/main.c:94-97 | the string index equals the number of newlines read |
| `Scanner.ColumnCountsLineSymbols` | guitar/src/main.c:94-113 | the column equals the number of symbols read since the last newline: every non-newline symbol, digits included, advances it by one |
| `Scanner.StoredColumnsBound` | guitar/src/main.c:106-113 | the column is at most, and every stored column is below, the number of symbols read |
| `Scanner.NotesOnlyGrow` | guitar/src/main.c:103-111 | a stored column is never cleared by later input |
| `Scanner.NewlineKeepsPending` | guitar/src/main.c:94-97 | a newline increments the string index, resets the column to 0, and leaves the pending digits and the stored pitches unchanged |
| `Scanner.DigitAccumulates` | guitar/src/main.c:99-102 | a digit is appended to the pending digits, advances the column by one and stores nothing |
| `Scanner.TerminatorStores` | guitar/src/main.c:103-113 | any other symbol advances the column by one and empties the buffer; with digits pending it stores `atoi(digits) + tuning[string]` at the column of this symbol, otherwise it changes no cell |
| `Scanner.EofFlushes` | guitar/src/main.c:89-92 | after the last character, the one end-of-file symbol flushes any pending fret to the current column, with the current string's tuning; the buffer ends empty |
| `Scanner.Stave` | guitar/src/main.c:72-73 | defined as: the first n stave cells, each holding the pitch last stored at its column (line 106) or -1; it has exactly n cells |
| `Scanner.Blank` | guitar/src/main.c:73 | defined as: n cells of -1, as `memset(stave, -1, ...)` leaves them (also line 118); it has exactly n cells |
| `Scanner.StaveGrow` | guitar/src/main.c:116-120 | when every stored column is inside the old length, the grown stave is the old one followed by unset cells |
| `Scanner.StaveStore` | guitar/src/main.c:106 | storing at a column inside the stave changes exactly that cell |
| `Render.Word` | guitar/src/main.c:130 | the word `%s%i` prints, a note name then the octave, is at least two characters long |
| `Render.Token` | guitar/src/main.c:130 | a printed token is that word followed by a space |
| `Render.Printed` | guitar/src/main.c:129-131 | a cell prints either nothing or a space-terminated token |
| `Render.Rendered` | guitar/src/main.c:128-132 | defined as: the tokens of the cells above -1, joined in column order; the text the print loop writes before its newline |
| `Render.RenderedShape` | guitar/src/main.c:128-132 | the printed text before the newline is empty or ends with a space |
| `Render.Occupied` | guitar/src/main.c:128-132 | the cells that print are exactly the cell values above -1, in column order |
| `Render.ReadToken` | guitar/src/main.c:130 | a printed word `<name><octave>` reads back as the pitch it was printed for |
| `Render.PrintedWord` | guitar/src/main.c:129-131 | a stored pitch prints as a word with no space in it, then a space, and the word reads back as that pitch |
| `Render.ReadBackRendered` | guitar/src/main.c:128-132 | the printed text reads back as exactly one pitch per cell above -1, in increasing column order |
| `Render.RenderedAppend` | guitar/src/main.c:128-132 | printing two runs of cells prints the first run, then the second |
| `Render.RenderedBlank` | guitar/src/main.c:116-120 | cells filled with -1 print nothing |
| `Render.RenderedStaveWidth` | guitar/src/main.c:116-133 | once every stored column is inside the stave, growing the stave does not change the output |
| `Transcriber.Grow` | guitar/src/main.c:116-120 | the stave doubles; cells below the old length keep their values and every new cell is -1 |
| `Transcriber.Advance` | guitar/src/main.c:113-120 | the column advances by one; the stave is kept while the new column is inside it, and replaced by a fresh one of twice the length exactly when the column reaches `stave_len`; either way it holds exactly the stored pitches |
| `Transcriber.StoreFret` | guitar/src/main.c:103-110 | the store branch puts `atoi(fret_num) + tuning[string]` into the stave at the current column, changes no other cell, and empties the buffer |
| `Transcriber.ScanNext` | guitar/src/main.c:89-92 | the value read at step n is the n-th character, or the end-of-file value after the last one, and it extends the scan by one step |
| `Transcriber.ScanSymbol` | guitar/src/main.c:92-121 | one pass of the loop body takes the loop variables, the fret buffer and the stave from one scanner state to the next, keeping `0 <= i < stave_len`; the stave only changes length by doubling, and only on a non-newline that moves `i` to `stave_len` |
| `Transcriber.ScanTab` | guitar/src/main.c:65-122 | after the loop, every stave cell holds the pitch last stored at its column or -1, and every stored column is inside the stave |
| `Transcriber.RenderStave` | guitar/src/main.c:128-133 | the print loop writes one token per cell above -1, in column order, then a newline |
| `Transcriber.Transcribe` | guitar/src/main.c:56-133 | the program's output depends only on the file's text, whatever the initial stave capacity |
| `Transcriber.Output` | guitar/src/main.c:128-133 | the output ends with a newline, and the text before it reads back as the stored pitches in column order |
| `Transcriber.TranscribeFile` | guitar/src/main.c:47-133 | `main`, with its stave allocated at `DEFAULT_LEN_STAVE` (2048) cells, prints `Output(text)` |
| `TabCases.FillerColumns` | guitar/src/main.c:98-113 | in `"0-2-3"` the frets 0, 2, 3 are stored at columns 1, 3, 5 as 52, 54, 55 |
| `TabCases.FillerOutput` | guitar/src/main.c:128-133 | `"0-2-3"` prints `E4 F#4 G4 ` and a newline |
| `TabCases.TrailingFretWraps` | guitar/src/main.c:89-113 | in `"0-2\n"` the last fret carries over the final newline and the end-of-file value stores it at column 0 as 2 + 47 = 49, beside the 52 at column 1 |
| `TabCases.TrailingOutput` | guitar/src/main.c:128-133 | `"0-2\n"` prints `C#4 E4 ` and a newline |
| `TabCases.PendingCarriesOverNewline` | guitar/src/main.c:94-110 | `"1\n2-"` stores fret 12 of the second string (59) at column 1 |
| `TabCases.LaterStringOverwrites` | guitar/src/main.c:106 | in `"3-\n0-"` the second string's fret replaces the first string's fret at column 1 |
| `TabCases.SixOpenStringsOverflow` | guitar/src/main.c:101 | six lines of a lone `0` overflow the fret buffer and are outside the defined inputs |

## Left out

- File I/O (`fopen`, `getc`, `feof`, `fclose`): the file is a given string, followed by one end-of-file symbol.
- The argument-count check, the file-open failure path and the leak of `stave` on those early returns (lines 76-86): command-line plumbing around the core.
- `malloc`/`realloc` failure, which the program does not handle; `free` of the stave.
- The undefined behaviour the scan loop reaches through its buffers and cells is excluded by the precondition `Scanner.WellDefined` rather than modelled: a third pending digit writing past `fret_num[3]`, and a store on a line past the sixth reading past `tuning`. `num2note` requires a non-negative code for the same reason. The precondition also excludes storing a value above 127 in a `char` cell (line 106). That conversion is implementation-defined rather than undefined (section 6.3.1.3 of the C11 standard). On the usual two's-complement targets 128..151 become -128..-105, so the print test `stave[i] > -1` (line 129) skips the cell: such a fret vanishes from the output and erases any note stored earlier at that column.
- The stave cells are `char` in C. The model uses `int` cells; under the precondition, every stored value lies in 28..127, so no truncation happens.
- `text` stands for the file's bytes, one `char` per byte: a character that takes several bytes in the file is several characters here, and each of them advances the column. The model does not restrict characters to values below 256.
- Platform `char` signedness and the locale of `isdigit`: `note` is a `char`, so on a signed-char platform a byte of 0x80 or more is a negative value, and `isdigit` of a negative value other than `EOF` is undefined behaviour. `Scanner.WellDefined` does not exclude it; the model reads such a byte as a non-digit, as an unsigned `char` would. The digits are ASCII '0'..'9'. The stave cells are also assumed signed: `Scanner.Unset` is -1 and a cell prints when it is above -1. With unsigned `char`, `memset(..., -1, ...)` leaves 255 in every unset cell, and each would print as `D#21 `.
- The widths of the C `int` variables `string`, `i`, `j` and `stave_len` (line 49): the model's integers are unbounded. In C, `stave_len*STAVE_GROWTH_RATE` (line 117) overflows once a line reaches 2^30 characters, and `i` and `string` overflow past 2^31 - 1; the model does not capture this.
- `Pitch.Tuning` is written as its six values. `Pitch.TuningValues` proves it equal to the six `Note2Num` calls, and `Transcriber.Transcribe` builds its table with those calls as `main` does.
- The initial stave capacity is a parameter of `ScanTab` and `Transcribe`; `Transcriber.TranscribeFile` calls `Transcribe` with `Transcriber.DefaultStaveLen` (2048), as the program does. Growth by a factor of 2 is kept.
- `Transcriber.ScanTab` does not state that the final capacity is the initial one times a power of two; each step's growth is stated by `Transcriber.Advance` and `Transcriber.ScanSymbol`.
- `printf` output is modelled as the text it writes; buffering and write errors are not modelled.
