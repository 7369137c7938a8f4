/**
 * The static keycode table of stroke_m3: each macOS virtual keycode it knows
 * is associated with a pair of symbols, the one emitted while shift is held
 * and the one emitted otherwise. The table is built once and never changes.
 */
module KeyTable {

  import opened Wrappers

  /** A macOS virtual keycode (CGKeyCode, an unsigned 16-bit integer). */
  type KeyCode = k: int | 0 <= k < 0x1_0000

  /** The two symbols of a key, in the table's order: shifted first. */
  datatype KeyPair = KeyPair(shifted: string, unshifted: string)

  /**
   * The table's entries, one case per entry, in the order the table lists
   * them; an unlisted keycode has no entry.
   */
  function Entry(k: KeyCode): (r: Option<KeyPair>)
    ensures r.Some? <==> IsMappedCode(k)
    ensures r.Some? ==> |r.value.shifted| >= 1 && |r.value.unshifted| >= 1
  {
    match k
    case 0 => Some(KeyPair("A", "a"))   case 1 => Some(KeyPair("S", "s"))
    case 2 => Some(KeyPair("D", "d"))   case 3 => Some(KeyPair("F", "f"))
    case 4 => Some(KeyPair("H", "h"))   case 5 => Some(KeyPair("G", "g"))
    case 6 => Some(KeyPair("Z", "z"))   case 7 => Some(KeyPair("X", "x"))
    case 8 => Some(KeyPair("C", "c"))   case 9 => Some(KeyPair("V", "v"))
    case 12 => Some(KeyPair("Q", "q"))  case 13 => Some(KeyPair("W", "w"))
    case 14 => Some(KeyPair("E", "e"))  case 15 => Some(KeyPair("R", "r"))
    case 16 => Some(KeyPair("Y", "y"))  case 17 => Some(KeyPair("T", "t"))
    case 18 => Some(KeyPair("1", "1"))  case 19 => Some(KeyPair("2", "2"))
    case 20 => Some(KeyPair("3", "3"))  case 21 => Some(KeyPair("4", "4"))
    case 22 => Some(KeyPair("6", "6"))  case 23 => Some(KeyPair("5", "5"))
    case 24 => Some(KeyPair("=", "="))  case 25 => Some(KeyPair("9", "9"))
    case 26 => Some(KeyPair("7", "7"))  case 27 => Some(KeyPair("-", "-"))
    case 28 => Some(KeyPair("8", "8"))  case 29 => Some(KeyPair("0", "0"))
    case 30 => Some(KeyPair("]", "]"))  case 31 => Some(KeyPair("O", "o"))
    case 32 => Some(KeyPair("U", "u"))  case 33 => Some(KeyPair("[", "["))
    case 34 => Some(KeyPair("I", "i"))  case 35 => Some(KeyPair("P", "p"))
    case 36 => Some(KeyPair("Return", "Return"))
    case 37 => Some(KeyPair("L", "l"))
    case 38 => Some(KeyPair("J", "j"))  case 39 => Some(KeyPair("'", "'"))
    case 40 => Some(KeyPair("K", "k"))  case 41 => Some(KeyPair(";", ";"))
    case 42 => Some(KeyPair("\\", "\\")) case 43 => Some(KeyPair(",", ","))
    case 44 => Some(KeyPair("/", "/"))  case 45 => Some(KeyPair("N", "n"))
    case 46 => Some(KeyPair("M", "m"))  case 47 => Some(KeyPair(".", "."))
    case 49 => Some(KeyPair("Space", "Space"))
    case 50 => Some(KeyPair("`", "`"))
    case 51 => Some(KeyPair("Delete", "Delete"))
    case 53 => Some(KeyPair("Escape", "Escape"))
    case _ => None
  }

  /** The keycode table as a read-only map. */
  const KeyMap: map<KeyCode, KeyPair> :=
    map k: KeyCode | 0 <= k < 0x1_0000 && Entry(k).Some? :: Entry(k).value

  /**
   * The table lookup (unordered_map::find): the listed entry of the keycode,
   * or nothing for a keycode the table does not list.
   */
  function Find(k: KeyCode): (r: Option<KeyPair>)
    ensures r == Entry(k)
    ensures r.Some? <==> IsMappedCode(k)
  {
    if k in KeyMap then Some(KeyMap[k]) else None
  }

  /** The keycodes the table lists: 0-9, 12-47, 49, 50, 51 and 53. */
  predicate IsMappedCode(k: int) {
    (0 <= k <= 9) || (12 <= k <= 47) || k == 49 || k == 50 || k == 51 || k == 53
  }

  /** The table's keys are exactly 0-9, 12-47, 49, 50, 51 and 53. */
  lemma KeySetExact(k: KeyCode)
    ensures k in KeyMap <==> IsMappedCode(k)
  {
  }

  /** The listed keycodes below n. */
  ghost function MappedBelow(n: nat): set<int> {
    set k | 0 <= k < n && IsMappedCode(k)
  }

  /** How many listed keycodes lie below n. */
  function CountBelow(n: nat): nat {
    if n <= 10 then n
    else if n <= 12 then 10
    else if n <= 48 then n - 2
    else if n <= 52 then n - 3
    else if n == 53 then 49
    else 50
  }

  lemma {:induction false} MappedBelowSize(n: nat)
    ensures |MappedBelow(n)| == CountBelow(n)
    decreases n
  {
    if n > 0 {
      MappedBelowSize(n - 1);
      var below := MappedBelow(n - 1);
      if IsMappedCode(n - 1) {
        assert MappedBelow(n) == below + {n - 1};
        assert n - 1 !in below;
      } else {
        assert MappedBelow(n) == below;
      }
    }
  }

  /** The table has exactly fifty distinct keys. */
  lemma KeyCount()
    ensures |KeyMap| == 50
  {
    var keys: set<int> := KeyMap.Keys;
    assert keys == MappedBelow(54) by {
      forall k | k in keys ensures k in MappedBelow(54) {
        KeySetExact(k);
      }
      forall k | k in MappedBelow(54) ensures k in keys {
        KeySetExact(k);
      }
    }
    MappedBelowSize(54);
    assert |KeyMap.Keys| == |keys|;
  }

  predicate IsLower(c: char) {
    'a' <= c <= 'z'
  }

  /** The upper-case form of a lower-case ASCII letter. */
  function ToUpper(c: char): (u: char)
    requires IsLower(c)
    ensures 'A' <= u <= 'Z'
    ensures u as int - 'A' as int == c as int - 'a' as int
  {
    (c as int - 32) as char
  }

  /** A pair whose unshifted symbol is a single lower-case letter. */
  predicate IsLetterPair(p: KeyPair) {
    |p.unshifted| == 1 && IsLower(p.unshifted[0])
  }

  /** The keycodes of the letter keys the table lists. */
  predicate IsLetterCode(k: int) {
    (0 <= k <= 9) || (12 <= k <= 17) || k == 31 || k == 32 || k == 34 || k == 35
    || k == 37 || k == 38 || k == 40 || k == 45 || k == 46
  }

  /**
   * The shape of every entry: both symbols are non-empty and at most six
   * characters; a letter key's shifted symbol is the upper case of its
   * unshifted one; every other entry has the same symbol under both states.
   */
  lemma EntryShape(k: KeyCode)
    requires k in KeyMap
    ensures var p := KeyMap[k];
      && 1 <= |p.shifted| <= 6 && 1 <= |p.unshifted| <= 6
      && (IsLetterPair(p) <==> IsLetterCode(k))
      && (IsLetterPair(p) ==> p.shifted == [ToUpper(p.unshifted[0])])
      && (!IsLetterPair(p) ==> p.shifted == p.unshifted)
  {
  }

  /** Only the space bar's entry holds the token "Space", in both positions. */
  lemma SpaceEntryOnly(k: KeyCode)
    requires k in KeyMap
    ensures KeyMap[k].shifted == "Space" <==> k == 49
    ensures KeyMap[k].unshifted == "Space" <==> k == 49
  {
  }

  /**
   * Every lower-case letter except b is the unshifted symbol of some entry;
   * no entry holds b or B (its key, 11 on the ANSI layout, is not listed).
   */
  lemma LetterCoverage(c: char)
    requires IsLower(c)
    ensures c != 'b' <==> exists k: KeyCode :: k in KeyMap && KeyMap[k].unshifted == [c]
    ensures forall k: KeyCode :: k in KeyMap ==> KeyMap[k].unshifted != "b" && KeyMap[k].shifted != "B"
  {
    var k: KeyCode :=
      match c
      case 'a' => 0   case 's' => 1   case 'd' => 2   case 'f' => 3
      case 'h' => 4   case 'g' => 5   case 'z' => 6   case 'x' => 7
      case 'c' => 8   case 'v' => 9   case 'q' => 12  case 'w' => 13
      case 'e' => 14  case 'r' => 15  case 'y' => 16  case 't' => 17
      case 'o' => 31  case 'u' => 32  case 'i' => 34  case 'p' => 35
      case 'l' => 37  case 'j' => 38  case 'k' => 40  case 'n' => 45
      case 'm' => 46  case _ => 11;
    if c != 'b' {
      assert k in KeyMap && KeyMap[k].unshifted == [c];
    }
    forall k2: KeyCode | k2 in KeyMap
      ensures KeyMap[k2].unshifted != "b" && KeyMap[k2].shifted != "B"
    {
      NoEntryHoldsB(k2);
    }
  }

  /** A single entry never holds b or B. */
  lemma NoEntryHoldsB(k: KeyCode)
    requires k in KeyMap
    ensures KeyMap[k].unshifted != "b" && KeyMap[k].shifted != "B"
  {
  }
}
