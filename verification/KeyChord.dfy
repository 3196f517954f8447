// Key chords as text: the printer, the parser and the merge of overrides onto the default
// bindings. Which characters count as upper case outside ASCII is a parameter.
module KeyChord {
  import opened Wrappers

  datatype KeyCode =
    | Char(c: char) | F(n: nat)
    | Enter | Esc | Tab | BackTab | Backspace | Delete | Insert | Home | End | PageUp | PageDown
    | Up | Down | Left | Right

  datatype Mods = Mods(ctrl: bool, alt: bool, shift: bool)

  const NO_MODS := Mods(false, false, false)

  datatype Chord = Chord(code: KeyCode, mods: Mods)

  // ----- printing

  function Digit(d: nat): char
    requires d < 10
  {
    ['0', '1', '2', '3', '4', '5', '6', '7', '8', '9'][d]
  }

  function Decimal(n: nat): string {
    if n < 10 then [Digit(n)] else Decimal(n / 10) + [Digit(n % 10)]
  }

  function ShowCode(code: KeyCode): string {
    match code
    case Char(c) => if c == ' ' then "Space" else [c]
    case F(n) => "F" + Decimal(n)
    case Enter => "Enter"
    case Esc => "Esc"
    case Tab => "Tab"
    case BackTab => "BackTab"
    case Backspace => "Backspace"
    case Delete => "Delete"
    case Insert => "Insert"
    case Home => "Home"
    case End => "End"
    case PageUp => "PageUp"
    case PageDown => "PageDown"
    case Up => "Up"
    case Down => "Down"
    case Left => "Left"
    case Right => "Right"
  }

  function ShowMods(m: Mods): string {
    (if m.ctrl then "Ctrl+" else "") + (if m.alt then "Alt+" else "") + (if m.shift then "Shift+" else "")
  }

  function Show(c: Chord): string {
    ShowMods(c.mods) + ShowCode(c.code)
  }

  // ----- parsing

  // Modifier prefixes in any order and number, until none is left.
  function Strip(s: string, m: Mods): (r: (Mods, string))
    decreases |s|
  {
    if "Ctrl+" <= s then Strip(s[5..], m.(ctrl := true))
    else if "Alt+" <= s then Strip(s[4..], m.(alt := true))
    else if "Shift+" <= s then Strip(s[6..], m.(shift := true))
    else (m, s)
  }

  predicate IsDigit(c: char) {
    '0' <= c <= '9'
  }

  predicate AllDigits(s: string) {
    forall i :: 0 <= i < |s| ==> IsDigit(s[i])
  }

  function DecimalValue(s: string): nat
    requires AllDigits(s)
  {
    if s == [] then 0 else DecimalValue(s[..|s| - 1]) * 10 + (s[|s| - 1] as int - '0' as int)
  }

  function NamedKey(s: string): Option<KeyCode> {
    if s == "Space" then Some(Char(' '))
    else if s == "Enter" then Some(Enter)
    else if s == "Esc" || s == "Escape" then Some(Esc)
    else if s == "Tab" then Some(Tab)
    else if s == "BackTab" then Some(BackTab)
    else if s == "Backspace" then Some(Backspace)
    else if s == "Delete" then Some(Delete)
    else if s == "Insert" then Some(Insert)
    else if s == "Home" then Some(Home)
    else if s == "End" then Some(End)
    else if s == "PageUp" then Some(PageUp)
    else if s == "PageDown" then Some(PageDown)
    else if s == "Up" then Some(Up)
    else if s == "Down" then Some(Down)
    else if s == "Left" then Some(Left)
    else if s == "Right" then Some(Right)
    else None
  }

  function AsciiUpper(c: char): char {
    if 'a' <= c <= 'z' then (c as int - 32) as char else c
  }

  predicate FunctionKeyForm(s: string) {
    |s| > 1 && s[0] == 'F' && AllDigits(s[1..])
  }

  // A bare capital implies Shift, and Shift implies the (ASCII) capital.
  function ParseBody(s: string, m: Mods, upper: char -> bool): Option<Chord> {
    if NamedKey(s).Some? then Some(Chord(NamedKey(s).value, m))
    else if FunctionKeyForm(s) then
      if DecimalValue(s[1..]) <= 255 then Some(Chord(F(DecimalValue(s[1..])), m)) else None
    else if |s| != 1 then None
    else
      var m' := if upper(s[0]) then m.(shift := true) else m;
      Some(Chord(Char(if m'.shift then AsciiUpper(s[0]) else s[0]), m'))
  }

  function Parse(s: string, upper: char -> bool): Option<Chord> {
    var (m, rest) := Strip(s, NO_MODS);
    ParseBody(rest, m, upper)
  }

  method ParseChord(s: string, upper: char -> bool) returns (r: Option<Chord>)
    ensures r == Parse(s, upper)
  {
    var mods, rest := NO_MODS, s;
    while true
      invariant Strip(s, NO_MODS) == Strip(rest, mods)
      decreases |rest|
    {
      if "Ctrl+" <= rest {
        mods, rest := mods.(ctrl := true), rest[5..];
      } else if "Alt+" <= rest {
        mods, rest := mods.(alt := true), rest[4..];
      } else if "Shift+" <= rest {
        mods, rest := mods.(shift := true), rest[6..];
      } else {
        break;
      }
    }
    r := ParseBody(rest, mods, upper);
  }

  // ----- round trip

  // The chords that survive printing and parsing.
  predicate Canonical(c: Chord, upper: char -> bool) {
    match c.code
    case Char(ch) => if c.mods.shift then AsciiUpper(ch) == ch else !upper(ch)
    case F(n) => n <= 255
    case _ => true
  }

  lemma {:induction false} DecimalRoundTrip(n: nat)
    ensures AllDigits(Decimal(n)) && DecimalValue(Decimal(n)) == n && |Decimal(n)| >= 1
  {
    if n >= 10 {
      DecimalRoundTrip(n / 10);
      var s := Decimal(n / 10) + [Digit(n % 10)];
      assert s[..|s| - 1] == Decimal(n / 10);
    }
  }

  // A printed key never looks like a modifier prefix.
  predicate NoPrefix(s: string) {
    !("Ctrl+" <= s) && !("Alt+" <= s) && !("Shift+" <= s)
  }

  lemma StripShift(on: bool, body: string, m: Mods)
    requires NoPrefix(body) && !m.shift
    ensures Strip((if on then "Shift+" else "") + body, m) == (m.(shift := on), body)
    ensures !("Ctrl+" <= (if on then "Shift+" else "") + body) && !("Alt+" <= (if on then "Shift+" else "") + body)
  {
    if on {
      var s := "Shift+" + body;
      assert s[0] == 'S' && s[6..] == body;
    } else {
      assert "" + body == body;
    }
  }

  lemma StripAlt(on: bool, s: string, m: Mods)
    requires !("Ctrl+" <= s) && !("Alt+" <= s) && !m.alt
    ensures Strip((if on then "Alt+" else "") + s, m) == Strip(s, m.(alt := on))
    ensures !("Ctrl+" <= (if on then "Alt+" else "") + s)
  {
    if on {
      var t := "Alt+" + s;
      assert t[0] == 'A' && t[4..] == s;
    } else {
      assert "" + s == s;
      assert m.(alt := false) == m;
    }
  }

  lemma StripCtrl(on: bool, s: string, m: Mods)
    requires !("Ctrl+" <= s) && !m.ctrl
    ensures Strip((if on then "Ctrl+" else "") + s, m) == Strip(s, m.(ctrl := on))
  {
    if on {
      var t := "Ctrl+" + s;
      assert t[5..] == s;
    } else {
      assert "" + s == s;
      assert m.(ctrl := false) == m;
    }
  }

  lemma StripPrefixes(m: Mods, body: string)
    requires NoPrefix(body)
    ensures Strip(ShowMods(m) + body, NO_MODS) == (m, body)
  {
    var shiftPart := (if m.shift then "Shift+" else "") + body;
    var altPart := (if m.alt then "Alt+" else "") + shiftPart;
    var all := (if m.ctrl then "Ctrl+" else "") + altPart;
    assert ShowMods(m) + body == all;
    var m1 := NO_MODS.(ctrl := m.ctrl);
    var m2 := m1.(alt := m.alt);
    StripShift(m.shift, body, m2);
    StripAlt(m.alt, shiftPart, m1);
    StripCtrl(m.ctrl, altPart, NO_MODS);
  }

  lemma ShownKeyHasNoPrefix(code: KeyCode)
    ensures NoPrefix(ShowCode(code))
  {
    if code.F? {
      var s := ShowCode(code);
      assert s[0] == 'F';
    } else {
      assert |ShowCode(code)| < 5 || ShowCode(code)[4] != '+';
      assert |ShowCode(code)| < 4 || ShowCode(code)[3] != '+';
      assert |ShowCode(code)| < 6 || ShowCode(code)[5] != '+';
      assert "Ctrl+"[4] == '+' && "Alt+"[3] == '+' && "Shift+"[5] == '+';
    }
  }

  // No key name has a digit in second place.
  lemma FunctionKeyHasNoName(s: string)
    requires FunctionKeyForm(s)
    ensures NamedKey(s).None?
  {
    assert IsDigit(s[1..][0]);
    assert IsDigit(s[1]);
    assert "Space"[1] == 'p' && "Enter"[1] == 'n' && "Esc"[1] == 's' && "Escape"[1] == 's' && "Tab"[1] == 'a';
    assert "BackTab"[1] == 'a' && "Backspace"[1] == 'a' && "Delete"[1] == 'e' && "Insert"[1] == 'n' && "Home"[1] == 'o';
    assert "End"[1] == 'n' && "PageUp"[1] == 'a' && "PageDown"[1] == 'a' && "Up"[1] == 'p' && "Down"[1] == 'o';
    assert "Left"[1] == 'e' && "Right"[1] == 'i';
  }

  lemma ParseShownFunctionKey(n: nat, m: Mods, upper: char -> bool)
    ensures ParseBody(ShowCode(F(n)), m, upper) == if n <= 255 then Some(Chord(F(n), m)) else None
  {
    DecimalRoundTrip(n);
    var s := ShowCode(F(n));
    assert s[0] == 'F' && s[1..] == Decimal(n);
    FunctionKeyHasNoName(s);
  }

  lemma ShortHasNoName(s: string)
    requires |s| == 1
    ensures NamedKey(s).None?
  {
    assert |"Space"| != 1 && |"Enter"| != 1 && |"Esc"| != 1 && |"Escape"| != 1 && |"Tab"| != 1;
  }

  lemma ParseShownChar(c: char, m: Mods, upper: char -> bool)
    requires c != ' '
    ensures ParseBody(ShowCode(Char(c)), m, upper) ==
            var m' := if upper(c) then m.(shift := true) else m;
            Some(Chord(Char(if m'.shift then AsciiUpper(c) else c), m'))
  {
    var s := ShowCode(Char(c));
    assert |s| == 1;
    ShortHasNoName(s);
  }

  lemma ParseShownNamed(code: KeyCode, m: Mods, upper: char -> bool)
    requires !code.F? && (code.Char? ==> code.c == ' ')
    ensures ParseBody(ShowCode(code), m, upper) == Some(Chord(code, m))
  {
  }

  // A chord survives printing and parsing exactly when it is canonical. `upper(' ')` is false in
  // Unicode.
  lemma PrintThenParse(c: Chord, upper: char -> bool)
    requires !upper(' ')
    ensures Parse(Show(c), upper) == Some(c) <==> Canonical(c, upper)
  {
    ShownKeyHasNoPrefix(c.code);
    StripPrefixes(c.mods, ShowCode(c.code));
    match c.code
    case F(n) => ParseShownFunctionKey(n, c.mods, upper);
    case Char(ch) =>
      if ch == ' ' {
        ParseShownNamed(c.code, c.mods, upper);
      } else {
        ParseShownChar(ch, c.mods, upper);
      }
    case _ => ParseShownNamed(c.code, c.mods, upper);
  }

  lemma ParsedIsCanonical(s: string, upper: char -> bool)
    requires !upper(' ') && Parse(s, upper).Some?
    ensures Canonical(Parse(s, upper).value, upper)
  {
  }

  // Whatever was typed: if it parses, printing the chord and parsing that gives the chord back.
  lemma RoundTrip(s: string, upper: char -> bool)
    requires !upper(' ') && Parse(s, upper).Some?
    ensures Parse(Show(Parse(s, upper).value), upper) == Parse(s, upper)
  {
    ParsedIsCanonical(s, upper);
    PrintThenParse(Parse(s, upper).value, upper);
  }

  // The names of keys, with the one that is only read.
  const KEY_NAMES: seq<(string, KeyCode)> := [
    ("Space", Char(' ')), ("Enter", Enter), ("Esc", Esc), ("Escape", Esc), ("Tab", Tab), ("BackTab", BackTab),
    ("Backspace", Backspace), ("Delete", Delete), ("Insert", Insert), ("Home", Home), ("End", End), ("PageUp", PageUp),
    ("PageDown", PageDown), ("Up", Up), ("Down", Down), ("Left", Left), ("Right", Right)]

  predicate IsName(s: string, code: KeyCode) {
    exists i :: 0 <= i < |KEY_NAMES| && KEY_NAMES[i] == (s, code)
  }

  lemma NameInTable(s: string)
    requires NamedKey(s).Some?
    ensures IsName(s, NamedKey(s).value)
  {
    var i := if s == "Space" then 0 else if s == "Enter" then 1 else if s == "Esc" then 2 else if s == "Escape" then 3
             else if s == "Tab" then 4 else if s == "BackTab" then 5 else if s == "Backspace" then 6
             else if s == "Delete" then 7 else if s == "Insert" then 8 else if s == "Home" then 9
             else if s == "End" then 10 else if s == "PageUp" then 11 else if s == "PageDown" then 12
             else if s == "Up" then 13 else if s == "Down" then 14 else if s == "Left" then 15 else 16;
    assert KEY_NAMES[i] == (s, NamedKey(s).value);
  }

  lemma EarlyEntryIsNamed(i: nat)
    requires i < 9
    ensures NamedKey(KEY_NAMES[i].0) == Some(KEY_NAMES[i].1)
    ensures i != 3 ==> ShowCode(KEY_NAMES[i].1) == KEY_NAMES[i].0
  {
  }

  lemma LateEntryIsNamed(i: nat)
    requires 9 <= i < |KEY_NAMES|
    ensures NamedKey(KEY_NAMES[i].0) == Some(KEY_NAMES[i].1) && ShowCode(KEY_NAMES[i].1) == KEY_NAMES[i].0
  {
  }

  lemma EntryIsNamed(i: nat)
    requires i < |KEY_NAMES|
    ensures NamedKey(KEY_NAMES[i].0) == Some(KEY_NAMES[i].1)
    ensures i != 3 ==> ShowCode(KEY_NAMES[i].1) == KEY_NAMES[i].0
  {
    if i < 9 {
      EarlyEntryIsNamed(i);
    } else {
      LateEntryIsNamed(i);
    }
  }

  // A string names a key exactly if the table has it, and every named key prints so, but for the alias.
  lemma NamesAreTheTable(s: string, code: KeyCode)
    ensures NamedKey(s) == Some(code) <==> IsName(s, code)
    ensures IsName(s, code) && s != "Escape" ==> ShowCode(code) == s
  {
    if NamedKey(s) == Some(code) {
      NameInTable(s);
    }
    if IsName(s, code) {
      var i :| 0 <= i < |KEY_NAMES| && KEY_NAMES[i] == (s, code);
      EntryIsNamed(i);
    }
  }

  // Digits are the ten ASCII ones, in their order.
  lemma DigitsByPlace(c: char, i: nat)
    ensures IsDigit(c) <==> c in "0123456789"
    ensures i < 10 ==> Digit(i) == "0123456789"[i] && DecimalValue([Digit(i)]) == i
  {
    if IsDigit(c) {
      assert c == "0123456789"[c as int - 48];
    }
    if i < 10 {
      assert [Digit(i)][..0] == [];
      assert DecimalValue([Digit(i)]) == DecimalValue([]) * 10 + (Digit(i) as int - '0' as int);
    }
  }

  // A letter becomes the capital in the same place, anything else stays.
  lemma CapitalsByPlace(c: char, i: nat)
    ensures i < 26 ==> AsciiUpper("abcdefghijklmnopqrstuvwxyz"[i]) == "ABCDEFGHIJKLMNOPQRSTUVWXYZ"[i]
    ensures c !in "abcdefghijklmnopqrstuvwxyz" ==> AsciiUpper(c) == c
  {
    if 'a' <= c <= 'z' {
      assert c == "abcdefghijklmnopqrstuvwxyz"[c as int - 97];
    }
  }

  function Both(m: Mods, n: Mods): Mods {
    Mods(m.ctrl || n.ctrl, m.alt || n.alt, m.shift || n.shift)
  }

  lemma {:induction false} StripAdds(s: string, m: Mods, n: Mods)
    ensures Strip(s, Both(m, n)) == (Both(Strip(s, m).0, n), Strip(s, m).1)
    decreases |s|
  {
    if "Ctrl+" <= s {
      StripAdds(s[5..], m.(ctrl := true), n);
    } else if "Alt+" <= s {
      StripAdds(s[4..], m.(alt := true), n);
    } else if "Shift+" <= s {
      StripAdds(s[6..], m.(shift := true), n);
    }
  }

  lemma StripPrefixed(s: string, m: Mods)
    ensures Strip("Ctrl+" + s, m) == Strip(s, m.(ctrl := true))
    ensures Strip("Alt+" + s, m) == Strip(s, m.(alt := true))
    ensures Strip("Shift+" + s, m) == Strip(s, m.(shift := true))
  {
    assert ("Ctrl+" + s)[5..] == s && ("Alt+" + s)[4..] == s && ("Shift+" + s)[6..] == s;
    assert ("Alt+" + s)[0] == 'A' && ("Shift+" + s)[0] == 'S';
  }

  lemma BodyAdds(body: string, m: Mods, n: Mods, upper: char -> bool)
    requires ParseBody(body, m, upper).Some?
    ensures var c := ParseBody(body, m, upper).value;
            ParseBody(body, Both(m, n), upper) ==
            Some(Chord(if n.shift && |body| == 1 then Char(AsciiUpper(body[0])) else c.code, Both(c.mods, n)))
  {
    if |body| == 1 {
      ShortHasNoName(body);
    }
  }

  // A prefix only adds its modifier, and Shift the capital of a single character.
  lemma PrefixAddsModifier(s: string, upper: char -> bool)
    requires Parse(s, upper).Some?
    ensures var c, body := Parse(s, upper).value, Strip(s, NO_MODS).1;
            && Parse("Ctrl+" + s, upper) == Some(c.(mods := c.mods.(ctrl := true)))
            && Parse("Alt+" + s, upper) == Some(c.(mods := c.mods.(alt := true)))
            && Parse("Shift+" + s, upper) ==
               Some(Chord(if |body| == 1 then Char(AsciiUpper(body[0])) else c.code, c.mods.(shift := true)))
  {
    var (m, body) := Strip(s, NO_MODS);
    StripPrefixed(s, NO_MODS);
    var ctrl, alt, shift := NO_MODS.(ctrl := true), NO_MODS.(alt := true), NO_MODS.(shift := true);
    StripAdds(s, NO_MODS, ctrl);
    StripAdds(s, NO_MODS, alt);
    StripAdds(s, NO_MODS, shift);
    BodyAdds(body, m, ctrl, upper);
    BodyAdds(body, m, alt, upper);
    BodyAdds(body, m, shift, upper);
  }

  // Two canonical chords never print alike.
  lemma ShowIsInjective(a: Chord, b: Chord, upper: char -> bool)
    requires !upper(' ') && Canonical(a, upper) && Canonical(b, upper) && Show(a) == Show(b)
    ensures a == b
  {
    PrintThenParse(a, upper);
    PrintThenParse(b, upper);
  }

  // ----- bindings

  datatype GlobalAction =
    | Quit | NextTrack | PreviousTrack | TogglePause | StarPlaying | ToggleLyrics | ShuffleLibrary | CycleRepeat
    | Refresh | GoToLibrary | GoToQueue | GoToQuickPlay | GoToPlaylists | GoToServer | GoToSettings

  function Plain(code: KeyCode): Chord {
    Chord(code, NO_MODS)
  }

  const DEFAULT_BINDINGS: seq<(GlobalAction, Chord)> := [
    (Quit, Plain(Char('q'))), (GoToLibrary, Plain(F(1))), (GoToQueue, Plain(F(2))), (GoToQuickPlay, Plain(F(3))),
    (GoToPlaylists, Plain(F(4))), (GoToServer, Plain(F(5))), (GoToSettings, Plain(F(6))),
    (TogglePause, Plain(Char(' '))), (NextTrack, Plain(Char('l'))), (PreviousTrack, Plain(Char('h'))),
    (StarPlaying, Plain(Char('n'))), (ShuffleLibrary, Chord(Char('T'), Mods(false, false, true))),
    (CycleRepeat, Plain(Char('r'))), (Refresh, Chord(Char('r'), Mods(true, false, false))),
    (ToggleLyrics, Plain(Char('y')))]

  datatype Warning =
    | Reserved(chord: Chord, action: GlobalAction)
    | Taken(chord: Chord, holder: GlobalAction, action: GlobalAction)

  // Digits 1-5 rate songs, with Alt too; `p` always pauses.
  predicate IsReserved(chord: Chord, action: GlobalAction) {
    || (chord.code.Char? && '1' <= chord.code.c <= '5' && !chord.mods.ctrl && !chord.mods.shift)
    || (chord == Plain(Char('p')) && action != TogglePause)
  }

  type Bindings = seq<(GlobalAction, Chord)>

  type Overrides = map<GlobalAction, Chord>

  function Effective(bindings: Bindings, overrides: Overrides, i: nat): Chord
    requires i < |bindings|
  {
    if bindings[i].0 in overrides then overrides[bindings[i].0] else bindings[i].1
  }

  // Binding `i` wants `chord` and may have it.
  predicate Claims(bindings: Bindings, overrides: Overrides, i: nat, chord: Chord) {
    i < |bindings| && Effective(bindings, overrides, i) == chord && !IsReserved(chord, bindings[i].0)
  }

  // ... and no earlier binding claims it.
  predicate Owns(bindings: Bindings, overrides: Overrides, i: nat, chord: Chord) {
    Claims(bindings, overrides, i, chord) && forall j: nat :: j < i ==> !Claims(bindings, overrides, j, chord)
  }

  // The press-to-action table holds exactly what the first `n` bindings own.
  ghost predicate TableOf(bindings: Bindings, overrides: Overrides, n: nat, table: map<Chord, GlobalAction>)
    requires n <= |bindings|
  {
    && (forall chord :: chord in table ==>
          exists i: nat :: i < n && Owns(bindings, overrides, i, chord) && table[chord] == bindings[i].0)
    && (forall i: nat, chord :: i < n && Owns(bindings, overrides, i, chord) ==>
          chord in table && table[chord] == bindings[i].0)
  }

  // The bindings, in order, that do not get their chord.
  function Losers(bindings: Bindings, overrides: Overrides, n: nat): (losers: seq<nat>)
    requires n <= |bindings|
    ensures forall i :: 0 <= i < |losers| ==> losers[i] < n
    ensures forall i, j :: 0 <= i < j < |losers| ==> losers[i] < losers[j]
  {
    if n == 0 then []
    else
      Losers(bindings, overrides, n - 1)
      + if Owns(bindings, overrides, n - 1, Effective(bindings, overrides, n - 1)) then [] else [n - 1]
  }

  // The warning for binding `i`: its action and chord, and why it lost.
  ghost predicate WarnsOf(bindings: Bindings, overrides: Overrides, i: nat, w: Warning)
    requires i < |bindings|
  {
    && w.action == bindings[i].0 && w.chord == Effective(bindings, overrides, i)
    && if IsReserved(w.chord, w.action) then w.Reserved?
       else w.Taken? && exists j: nat :: j < i && Owns(bindings, overrides, j, w.chord) && w.holder == bindings[j].0
  }

  // `warnings` answers the losers among the first `n` bindings, one each and in order.
  ghost predicate WarnsLosers(bindings: Bindings, overrides: Overrides, n: nat, warnings: seq<Warning>)
    requires n <= |bindings|
  {
    var losers := Losers(bindings, overrides, n);
    |warnings| == |losers| && forall i :: 0 <= i < |losers| ==> WarnsOf(bindings, overrides, losers[i], warnings[i])
  }

  // Binding `i` is among the losers exactly when it does not own its chord.
  lemma {:induction false} LosersAreTheRest(bindings: Bindings, overrides: Overrides, n: nat, i: nat)
    requires n <= |bindings|
    ensures i in Losers(bindings, overrides, n) <==>
            i < n && !Owns(bindings, overrides, i, Effective(bindings, overrides, i))
  {
    if n > 0 {
      LosersAreTheRest(bindings, overrides, n - 1, i);
    }
  }

  // One round of the merge, as a value.
  function Merge(bindings: Bindings, overrides: Overrides, i: nat, table: map<Chord, GlobalAction>): map<Chord, GlobalAction>
    requires i < |bindings|
  {
    var action, chord := bindings[i].0, Effective(bindings, overrides, i);
    if IsReserved(chord, action) || chord in table then table else table[chord := action]
  }

  lemma FirstClaim(bindings: Bindings, overrides: Overrides, i: nat, chord: Chord)
    requires Claims(bindings, overrides, i, chord)
    ensures exists j: nat :: j <= i && Owns(bindings, overrides, j, chord)
  {
    if k: nat :| k < i && Claims(bindings, overrides, k, chord) {
      FirstClaim(bindings, overrides, k, chord);
    } else {
      assert Owns(bindings, overrides, i, chord);
    }
  }

  // Adding the next binding: it owns its chord exactly when the chord is neither reserved nor taken.
  lemma TableStep(bindings: Bindings, overrides: Overrides, n: nat, table: map<Chord, GlobalAction>)
    requires n < |bindings| && TableOf(bindings, overrides, n, table)
    ensures TableOf(bindings, overrides, n + 1, Merge(bindings, overrides, n, table))
  {
    var action, chord := bindings[n].0, Effective(bindings, overrides, n);
    var next := Merge(bindings, overrides, n, table);
    forall ch | ch in next
      ensures exists i: nat :: i < n + 1 && Owns(bindings, overrides, i, ch) && next[ch] == bindings[i].0
    {
      if ch in table {
        var j: nat :| j < n && Owns(bindings, overrides, j, ch) && table[ch] == bindings[j].0;
        assert next[ch] == bindings[j].0;
      } else {
        FirstClaim(bindings, overrides, n, chord);
        assert Owns(bindings, overrides, n, chord);
      }
    }
  }

  // A binding gets its chord exactly when the chord is neither reserved nor in the table already.
  lemma OwnsIffFree(bindings: Bindings, overrides: Overrides, i: nat, table: map<Chord, GlobalAction>)
    requires i < |bindings| && TableOf(bindings, overrides, i, table)
    ensures var chord := Effective(bindings, overrides, i);
            Owns(bindings, overrides, i, chord) <==> !IsReserved(chord, bindings[i].0) && chord !in table
  {
    var chord := Effective(bindings, overrides, i);
    if j: nat :| j < i && Claims(bindings, overrides, j, chord) {
      FirstClaim(bindings, overrides, j, chord);
    }
  }

  lemma OneMoreWarning(bindings: Bindings, overrides: Overrides, i: nat, warnings: seq<Warning>, w: Warning)
    requires i < |bindings| && WarnsLosers(bindings, overrides, i, warnings) && WarnsOf(bindings, overrides, i, w)
    requires !Owns(bindings, overrides, i, Effective(bindings, overrides, i))
    ensures WarnsLosers(bindings, overrides, i + 1, warnings + [w])
  {
    var losers := Losers(bindings, overrides, i);
    assert Losers(bindings, overrides, i + 1) == losers + [i];
  }

  method ResolveOne(bindings: Bindings, overrides: Overrides, i: nat, table: map<Chord, GlobalAction>,
                    warnings: seq<Warning>)
    returns (table': map<Chord, GlobalAction>, warnings': seq<Warning>)
    requires i < |bindings| && TableOf(bindings, overrides, i, table) && WarnsLosers(bindings, overrides, i, warnings)
    ensures TableOf(bindings, overrides, i + 1, table') && WarnsLosers(bindings, overrides, i + 1, warnings')
    ensures |table'| + |warnings'| == |table| + |warnings| + 1
  {
    table', warnings' := table, warnings;
    var action, chord := bindings[i].0, Effective(bindings, overrides, i);
    TableStep(bindings, overrides, i, table);
    OwnsIffFree(bindings, overrides, i, table);
    if IsReserved(chord, action) {
      warnings' := warnings + [Reserved(chord, action)];
      OneMoreWarning(bindings, overrides, i, warnings, Reserved(chord, action));
    } else if chord in table {
      warnings' := warnings + [Taken(chord, table[chord], action)];
      OneMoreWarning(bindings, overrides, i, warnings, Taken(chord, table[chord], action));
    } else {
      table' := table[chord := action];
    }
  }

  // Earlier bindings win a contested chord; each loser gets its own warning, which names the reason.
  method Resolve(bindings: Bindings, overrides: Overrides) returns (table: map<Chord, GlobalAction>, warnings: seq<Warning>)
    ensures TableOf(bindings, overrides, |bindings|, table)
    ensures WarnsLosers(bindings, overrides, |bindings|, warnings)
    ensures |table| + |warnings| == |bindings|
  {
    table, warnings := map[], [];
    var i := 0;
    while i < |bindings|
      invariant i <= |bindings| && TableOf(bindings, overrides, i, table)
      invariant WarnsLosers(bindings, overrides, i, warnings)
      invariant |table| + |warnings| == i
    {
      table, warnings := ResolveOne(bindings, overrides, i, table, warnings);
      i := i + 1;
    }
  }

  // Without overrides every action is reachable under its default chord.
  lemma DefaultsDoNotCollide(i: nat)
    requires i < |DEFAULT_BINDINGS|
    ensures Owns(DEFAULT_BINDINGS, map[], i, DEFAULT_BINDINGS[i].1)
  {
  }
}
