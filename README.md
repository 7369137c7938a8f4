# stroke_m3 keycode decoder, modelled in Dafny

stroke_m3 is a macOS keystroke monitor. It installs a Quartz event tap for
key-down events and, for each one, writes a human-readable symbol to standard
output. This project models the part with real logic: the keycode table
`keyMap` and the decision made by `eventCallback`. Both are modelled as pure
functions, and lemmas state what they promise.

- `KeyTable` (key_table.dfy) holds the table. It maps each macOS virtual
  keycode it lists to a `KeyPair(shifted, unshifted)`, in the source's pair
  order. The entries are written as one `match` case per table entry, in the
  source's order. The read-only `KeyMap` is derived from that function. A
  single 50-entry map display was not used because the verifier cannot unfold
  one that large. The content is the same.
- `Decimal` (decimal.dfy) renders an unsigned keycode in decimal, as the C++
  output operator does. It also has an inverse, used to prove that placeholders
  for different keycodes never collide.
- `Decoder` (decoder.dfy) models the callback. A key-down event is decoded:
  - a mapped keycode gives the shifted symbol if shift is held, otherwise the
    unshifted one;
  - the token `Space` is written as a single space;
  - an unmapped keycode is written as `[Unknown Key: <decimal>] `.

  Any other event writes nothing. `ParseUnknown`, the inverse of
  `UnknownText`, reads a keycode back out of a placeholder; it exists for the
  proof that placeholders of different keycodes never collide and never equal
  a mapped key's text, since the program itself never reads its output back. The callback always returns the event it
  received. The text written to standard output is the function's result
  (`Option<string>`, `None` when nothing is written).

The decoder has no state, so calling it twice with the same inputs gives the
same text. This holds automatically for Dafny functions and needs no lemma.

The table has no entry for keycode 11, which is the B key on the ANSI layout.
So the letter b is never written as a letter: that key produces
`[Unknown Key: 11] `. `KeyTable.LetterCoverage` states this. The model keeps
the table exactly as written.

## Model

| member | source | states |
|---|---|---|
| KeyTable.Entry | stroke_m3.cpp:9-23 | the table's entries: a keycode has an entry exactly when it is 0-9, 12-47, 49, 50, 51 or 53, and both symbols of every entry are non-empty |
| KeyTable.Find | stroke_m3.cpp:31-32 | the lookup in the derived map returns exactly the keycode's listed entry, and finds one exactly for the listed keycodes |
| KeyTable.KeySetExact | stroke_m3.cpp:9-23 | the table's keys are exactly 0-9, 12-47, 49, 50, 51 and 53 (so 10, 11, 48 and 52 are unmapped) |
| KeyTable.KeyCount | stroke_m3.cpp:9-23 | the table has exactly fifty distinct keys |
| KeyTable.MappedBelowSize | stroke_m3.cpp:9-23 | counts the listed keycodes below any bound; KeyCount rests on it |
| KeyTable.EntryShape | stroke_m3.cpp:10-22 | every symbol has 1 to 6 characters; an entry is a letter entry exactly when its keycode is one of the 25 letter keys; a letter entry's shifted symbol is the upper case of its unshifted one; every other entry has equal symbols |
| KeyTable.SpaceEntryOnly | stroke_m3.cpp:21 | the token "Space" appears only in keycode 49's entry, in both positions |
| KeyTable.LetterCoverage | stroke_m3.cpp:10-22 | a lower-case letter is some entry's unshifted symbol exactly when it is not b; no entry holds b or B |
| Decimal.DigitChar | stroke_m3.cpp:42 | a digit below 10 is written as the character '0' + d |
| Decimal.ToDecimal | stroke_m3.cpp:42 | the decimal text of a keycode is non-empty, all digits, and has no leading zero unless the value is 0 |
| Decimal.DecimalRoundTrip | stroke_m3.cpp:42 | reading back the decimal text of n gives n |
| Decimal.ToDecimalInjective | stroke_m3.cpp:42 | distinct numbers have distinct decimal texts |
| Decoder.KeycodeOf | stroke_m3.cpp:29 | storing the event's keycode field in a 16-bit CGKeyCode keeps it modulo 2^16 and leaves values below 2^16 unchanged |
| Decoder.Emit | stroke_m3.cpp:36-39 | the selected symbol "Space" is written as one space, any other symbol is written unchanged, and "Space" itself is never written (applied to every key in SpaceNeverSpelled) |
| Decoder.UnknownText | stroke_m3.cpp:42 | the placeholder is "[Unknown Key: ", then exactly the keycode's decimal text, then "] ", at least 17 characters (applied in DecodeUnmapped) |
| Decoder.Decode | stroke_m3.cpp:31-43 | every key-down writes at least one character, so no key-down is silently dropped |
| Decoder.Output | stroke_m3.cpp:28-44 | something is written exactly when the event is a key-down, and what is written is non-empty |
| Decoder.EventCallback | stroke_m3.cpp:27-46 | the callback returns the event it received, whatever its type or keycode, and writes nothing exactly when the event is not a key-down |
| Decoder.DecodeMapped | stroke_m3.cpp:31-40 | a mapped keycode other than 49 writes the pair's first (shifted) symbol when shift is held and its second otherwise; keycode 49 writes " " |
| Decoder.SpaceNeverSpelled | stroke_m3.cpp:36-37 | no keycode under any shift state writes the word "Space"; the space bar writes exactly one space under both shift states |
| Decoder.DecodeUnmapped | stroke_m3.cpp:41-42 | an unmapped keycode writes "[Unknown Key: " + decimal + "] ", the same under both shift states, at least 17 characters long and longer than the text of every mapped keycode |
| Decoder.NamedTokens | stroke_m3.cpp:34-39 | keycodes 36, 51 and 53 write "Return", "Delete" and "Escape" literally under both shift states |
| Decoder.ShiftOnlyAffectsLetters | stroke_m3.cpp:34 | for a letter key the shifted text is the upper case of the single lower-case unshifted letter; for every other keycode, mapped or not, shift changes nothing |
| Decoder.ParseUnknownOfDecode | stroke_m3.cpp:41-42 | the placeholder of an unmapped keycode reads back as that keycode; a mapped keycode's text reads as no keycode |
| Decoder.UnknownDistinct | stroke_m3.cpp:41-42 | two distinct unmapped keycodes never write the same text, and an unmapped keycode never writes what a mapped one writes, whatever the shift states |
| Decoder.Scenarios | stroke_m3.cpp:27-46 | keycode 0 writes "a", and "A" with shift; 49 writes " " either way; 36 writes "Return"; 999 writes "[Unknown Key: 999] "; a key-up writes nothing |

## Left out

- `main` (stroke_m3.cpp:48-90) is left out. It is a sequence of calls into the operating system: the root check, event-tap creation and enabling, run-loop registration, the blocking run loop and the releases. None of their behaviour is visible in the source.
- Reading the keycode field and the flags from a `CGEventRef` (stroke_m3.cpp:29-30) is a call into the Quartz framework. The model takes the raw field value and a boolean shift flag as inputs. The value of `kCGEventFlagMaskShift` is not part of this model.
- The numeric values of `CGEventType` are not part of this model. The callback only compares the type with `kCGEventKeyDown`, so `EventType` names the kinds without numbers.
- Writing to `std::cout` and flushing it are not modelled as stream state. The text that would be written is the value returned.
- How events are captured and delivered system-wide is left out. It happens in the operating system, outside the decoder.
