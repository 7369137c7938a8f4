/**
 * The keyboard-event callback of stroke_m3. For a key-down event it looks the
 * keycode up in the table, picks the shifted or unshifted symbol by the shift
 * flag, writes a single space for the space bar's "Space" token, and writes a
 * tagged placeholder carrying the keycode in decimal for an unmapped key; any
 * other event writes nothing. The event itself is always handed back unchanged.
 * What the callback writes to standard output is the value these functions return.
 */
module Decoder {

  import opened Wrappers
  import opened KeyTable
  import opened Decimal

  /** The kinds of event a Quartz event tap can deliver to the callback. */
  datatype EventType = KeyDown | KeyUp | FlagsChanged | TapDisabled | OtherEvent

  /**
   * A delivered keyboard event: the raw value of its keycode field and
   * whether the shift bit is set in its flags.
   */
  datatype Event = Event(keycodeField: int, shift: bool)

  const UnknownPrefix: string := "[Unknown Key: "
  const UnknownSuffix: string := "] "

  /**
   * The keycode of an event: the 64-bit field value stored into an unsigned
   * 16-bit CGKeyCode, which keeps it modulo 2^16.
   */
  function KeycodeOf(field: int): (k: KeyCode)
    ensures 0 <= field < 0x1_0000 ==> k == field
    ensures (field - k) % 0x1_0000 == 0
  {
    field % 0x1_0000
  }

  /**
   * The text written for a selected symbol: the "Space" token becomes one
   * space, any other symbol is written as it is, and "Space" itself is never written.
   */
  function Emit(symbol: string): (r: string)
    ensures r != "Space"
    ensures symbol == "Space" ==> r == " "
    ensures symbol != "Space" ==> r == symbol
  {
    if symbol == "Space" then " " else symbol
  }

  /**
   * The placeholder written for a keycode the table does not list: the tag,
   * then the keycode's decimal digits, then the closing bracket and a space.
   */
  function UnknownText(k: KeyCode): (r: string)
    ensures |r| >= 17
    ensures r[..14] == UnknownPrefix && r[|r| - 2..] == UnknownSuffix
    ensures r[14..|r| - 2] == ToDecimal(k)
  {
    UnknownPrefix + ToDecimal(k) + UnknownSuffix
  }

  /** The text a key-down event with keycode k and shift state shift writes. */
  function Decode(k: KeyCode, shift: bool): (r: string)
    ensures |r| >= 1
  {
    match Find(k)
    case Some(pair) => Emit(if shift then pair.shifted else pair.unshifted)
    case None => UnknownText(k)
  }

  /** What the callback writes for an event: nothing unless it is a key-down. */
  function Output(eventType: EventType, ev: Event): (r: Option<string>)
    ensures r.Some? <==> eventType == KeyDown
    ensures r.Some? ==> |r.value| >= 1
  {
    if eventType == KeyDown then Some(Decode(KeycodeOf(ev.keycodeField), ev.shift)) else None
  }

  /**
   * The callback: the event handed back to the event tap and the text written.
   * It is observe-only, so the event returned is the event received.
   */
  function EventCallback(eventType: EventType, ev: Event): (r: (Event, Option<string>))
    ensures r.0 == ev
    ensures r.1.None? <==> eventType != KeyDown
  {
    (ev, Output(eventType, ev))
  }

  /**
   * A mapped keycode writes the table's shifted symbol when shift is held
   * and its unshifted symbol otherwise, except that the space bar writes " ".
   */
  lemma DecodeMapped(k: KeyCode, shift: bool)
    requires k in KeyMap
    ensures k != 49 ==> Decode(k, shift) == (if shift then KeyMap[k].shifted else KeyMap[k].unshifted)
    ensures k == 49 ==> Decode(k, shift) == " "
  {
    SpaceEntryOnly(k);
  }

  /** No key-down ever writes the word "Space"; the space bar writes one space. */
  lemma SpaceNeverSpelled(k: KeyCode, shift: bool)
    ensures Decode(k, shift) != "Space"
    ensures Decode(49, shift) == " "
  {
    if k !in KeyMap {
      assert Decode(k, shift)[0] == '[';
    }
  }

  /**
   * An unmapped keycode writes "[Unknown Key: <decimal>] ", whatever the
   * shift state, and that text is longer than any mapped key's text.
   */
  lemma DecodeUnmapped(k: KeyCode, shift: bool)
    requires k !in KeyMap
    ensures Decode(k, shift) == "[Unknown Key: " + ToDecimal(k) + "] "
    ensures Decode(k, shift) == Decode(k, !shift)
    ensures |Decode(k, shift)| >= 17
    ensures forall k2: KeyCode, s2: bool :: k2 in KeyMap ==> |Decode(k2, s2)| < |Decode(k, shift)|
  {
    forall k2: KeyCode, s2: bool | k2 in KeyMap ensures |Decode(k2, s2)| <= 6 {
      EntryShape(k2);
    }
  }

  /** The named tokens are written literally, identically under both shift states. */
  lemma NamedTokens(shift: bool)
    ensures Decode(36, shift) == "Return"
    ensures Decode(51, shift) == "Delete"
    ensures Decode(53, shift) == "Escape"
  {
  }

  /**
   * Shift changes only letters: for a letter key the shifted text is the
   * upper case of the unshifted one; for every other keycode, mapped or not,
   * the text does not depend on shift.
   */
  lemma ShiftOnlyAffectsLetters(k: KeyCode)
    ensures IsLetterCode(k) ==>
      |Decode(k, false)| == 1 && IsLower(Decode(k, false)[0])
      && Decode(k, true) == [ToUpper(Decode(k, false)[0])]
    ensures !IsLetterCode(k) ==> Decode(k, true) == Decode(k, false)
  {
    if k in KeyMap {
      EntryShape(k);
      SpaceEntryOnly(k);
    }
  }

  /**
   * The inverse of UnknownText, used in proofs only: reads the keycode back
   * out of an unknown-key placeholder; text that is not such a placeholder
   * reads as nothing.
   */
  function ParseUnknown(s: string): Option<KeyCode> {
    if |s| >= 17 && s[..14] == UnknownPrefix && s[|s| - 2..] == UnknownSuffix
      && (forall i :: 14 <= i < |s| - 2 ==> IsDigit(s[i]))
    then
      var digits := s[14..|s| - 2];
      assert forall i :: 0 <= i < |digits| ==> digits[i] == s[14 + i];
      var n := ParseDecimal(digits);
      if n < 0x1_0000 then Some(n) else None
    else None
  }

  /**
   * The placeholder of an unmapped key reads back as that keycode; the text
   * of a mapped key reads as no keycode, so the two are never confused.
   */
  lemma {:induction false} ParseUnknownOfDecode(k: KeyCode, shift: bool)
    ensures k !in KeyMap ==> ParseUnknown(Decode(k, shift)) == Some(k)
    ensures k in KeyMap ==> ParseUnknown(Decode(k, shift)) == None
  {
    var s := Decode(k, shift);
    if k in KeyMap {
      EntryShape(k);
      assert |s| <= 6;
    } else {
      var d := ToDecimal(k);
      assert s == UnknownPrefix + d + UnknownSuffix;
      assert s[..14] == UnknownPrefix;
      assert s[|s| - 2..] == UnknownSuffix;
      assert s[14..|s| - 2] == d;
      forall i | 14 <= i < |s| - 2 ensures IsDigit(s[i]) {
        assert s[i] == d[i - 14];
      }
      DecimalRoundTrip(k);
    }
  }

  /**
   * Distinct unmapped keycodes write distinct text, whatever the shift states,
   * and an unmapped keycode never writes what a mapped one writes.
   */
  lemma UnknownDistinct(k1: KeyCode, s1: bool, k2: KeyCode, s2: bool)
    requires k1 !in KeyMap
    ensures k2 !in KeyMap && k1 != k2 ==> Decode(k1, s1) != Decode(k2, s2)
    ensures k2 in KeyMap ==> Decode(k1, s1) != Decode(k2, s2)
  {
    ParseUnknownOfDecode(k1, s1);
    ParseUnknownOfDecode(k2, s2);
  }

  /** The end-to-end examples: a, A, the space bar, Return and keycode 999. */
  lemma Scenarios()
    ensures Output(KeyDown, Event(0, false)) == Some("a")
    ensures Output(KeyDown, Event(0, true)) == Some("A")
    ensures Output(KeyDown, Event(49, true)) == Some(" ")
    ensures Output(KeyDown, Event(49, false)) == Some(" ")
    ensures Output(KeyDown, Event(36, false)) == Some("Return")
    ensures Output(KeyDown, Event(999, false)) == Some("[Unknown Key: 999] ")
    ensures Output(KeyUp, Event(0, false)) == None
  {
    KeySetExact(999);
    assert ToDecimal(999) == "999" by {
      assert ToDecimal(9) == "9";
      assert ToDecimal(99) == "99";
    }
    assert KeycodeOf(999) == 999;
    DecodeUnmapped(999, false);
    assert UnknownPrefix + "999" + UnknownSuffix == "[Unknown Key: 999] ";
  }
}
