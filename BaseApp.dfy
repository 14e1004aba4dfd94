/**
 * The input translation of src/BaseApp.cpp. GLFW reports keys, modifier bits, actions
 * and mouse buttons as integers; BaseApp turns each report into an event whose name
 * spells them out (`kbd_A_SHIFT_down`, `mouse_btn_left_up`, `mouse_pointer`) and hands
 * it to the application. Key, action and button codes are GLFW 3's integer constants;
 * the modifier set is the bit pattern of its C `int`.
 */
module BaseApp {
  import opened Vectors
  import opened Wrappers
  import opened Events
  import opened Turntable
  import opened Application

  // GLFW key codes.
  const KeyA := 65
  const KeyB := 66
  const KeyC := 67
  const KeyD := 68
  const KeyE := 69
  const KeyF := 70
  const KeyG := 71
  const KeyH := 72
  const KeyI := 73
  const KeyJ := 74
  const KeyK := 75
  const KeyL := 76
  const KeyM := 77
  const KeyN := 78
  const KeyO := 79
  const KeyP := 80
  const KeyQ := 81
  const KeyR := 82
  const KeyS := 83
  const KeyT := 84
  const KeyU := 85
  const KeyV := 86
  const KeyW := 87
  const KeyX := 88
  const KeyY := 89
  const KeyZ := 90
  const Key1 := 49
  const Key2 := 50
  const Key3 := 51
  const Key4 := 52
  const Key5 := 53
  const Key6 := 54
  const Key7 := 55
  const Key8 := 56
  const Key9 := 57
  const Key0 := 48
  const KeySpace := 32
  const KeyMinus := 45
  const KeyEqual := 61
  const KeyLeftBracket := 91
  const KeyRightBracket := 93
  const KeyBackslash := 92
  const KeySemicolon := 59
  const KeyApostrophe := 39
  const KeyGraveAccent := 96
  const KeyComma := 44
  const KeyPeriod := 46
  const KeySlash := 47
  const KeyWorld1 := 161
  const KeyWorld2 := 162
  const KeyEscape := 256
  const KeyF1 := 290
  const KeyF2 := 291
  const KeyF3 := 292
  const KeyF4 := 293
  const KeyF5 := 294
  const KeyF6 := 295
  const KeyF7 := 296
  const KeyF8 := 297
  const KeyF9 := 298
  const KeyF10 := 299
  const KeyF11 := 300
  const KeyF12 := 301
  const KeyF13 := 302
  const KeyF14 := 303
  const KeyF15 := 304
  const KeyF16 := 305
  const KeyF17 := 306
  const KeyF18 := 307
  const KeyF19 := 308
  const KeyF20 := 309
  const KeyF21 := 310
  const KeyF22 := 311
  const KeyF23 := 312
  const KeyF24 := 313
  const KeyF25 := 314
  const KeyUp := 265
  const KeyDown := 264
  const KeyLeft := 263
  const KeyRight := 262
  const KeyLeftShift := 340
  const KeyRightShift := 344
  const KeyLeftControl := 341
  const KeyRightControl := 345
  const KeyLeftAlt := 342
  const KeyRightAlt := 346
  const KeyTab := 258
  const KeyEnter := 257
  const KeyBackspace := 259
  const KeyInsert := 260
  const KeyDelete := 261
  const KeyPageUp := 266
  const KeyPageDown := 267
  const KeyHome := 268
  const KeyEnd := 269
  const KeyKp0 := 320
  const KeyKp1 := 321
  const KeyKp2 := 322
  const KeyKp3 := 323
  const KeyKp4 := 324
  const KeyKp5 := 325
  const KeyKp6 := 326
  const KeyKp7 := 327
  const KeyKp8 := 328
  const KeyKp9 := 329
  const KeyKpDivide := 331
  const KeyKpMultiply := 332
  const KeyKpSubtract := 333
  const KeyKpAdd := 334
  const KeyKpDecimal := 330
  const KeyKpEqual := 336
  const KeyKpEnter := 335
  const KeyPrintScreen := 283
  const KeyNumLock := 282
  const KeyCapsLock := 280
  const KeyScrollLock := 281
  const KeyPause := 284
  const KeyLeftSuper := 343
  const KeyRightSuper := 347
  const KeyMenu := 348
  const KeyUnknown := -1
  // GLFW actions, mouse buttons and modifier bits.
  const Release := 0
  const Press := 1
  const Repeat := 2
  const MouseButtonLeft := 0
  const MouseButtonRight := 1
  const MouseButtonMiddle := 2
  const ModShift: bv32 := 0x1
  const ModControl: bv32 := 0x2
  const ModAlt: bv32 := 0x4
  const ModSuper: bv32 := 0x8

  /** getKeyName: the key's name, or "" for a key outside the table. */
  function KeyName(key: int): string {
    if key == KeyA then "A"
    else if key == KeyB then "B"
    else if key == KeyC then "C"
    else if key == KeyD then "D"
    else if key == KeyE then "E"
    else if key == KeyF then "F"
    else if key == KeyG then "G"
    else if key == KeyH then "H"
    else if key == KeyI then "I"
    else if key == KeyJ then "J"
    else if key == KeyK then "K"
    else if key == KeyL then "L"
    else if key == KeyM then "M"
    else if key == KeyN then "N"
    else if key == KeyO then "O"
    else if key == KeyP then "P"
    else if key == KeyQ then "Q"
    else if key == KeyR then "R"
    else if key == KeyS then "S"
    else if key == KeyT then "T"
    else if key == KeyU then "U"
    else if key == KeyV then "V"
    else if key == KeyW then "W"
    else if key == KeyX then "X"
    else if key == KeyY then "Y"
    else if key == KeyZ then "Z"
    else if key == Key1 then "1"
    else if key == Key2 then "2"
    else if key == Key3 then "3"
    else if key == Key4 then "4"
    else if key == Key5 then "5"
    else if key == Key6 then "6"
    else if key == Key7 then "7"
    else if key == Key8 then "8"
    else if key == Key9 then "9"
    else if key == Key0 then "0"
    else if key == KeySpace then "SPACE"
    else if key == KeyMinus then "MINUS"
    else if key == KeyEqual then "EQUAL"
    else if key == KeyLeftBracket then "LEFT_BRACKET"
    else if key == KeyRightBracket then "RIGHT_BRACKET"
    else if key == KeyBackslash then "BACKSLASH"
    else if key == KeySemicolon then "SEMICOLON"
    else if key == KeyApostrophe then "APOSTROPHE"
    else if key == KeyGraveAccent then "GRAVE_ACCENT"
    else if key == KeyComma then "COMMA"
    else if key == KeyPeriod then "PERIOD"
    else if key == KeySlash then "SLASH"
    else if key == KeyWorld1 then "WORLD1"
    else if key == KeyWorld2 then "WORLD2"
    else if key == KeyEscape then "ESC"
    else if key == KeyF1 then "F1"
    else if key == KeyF2 then "F2"
    else if key == KeyF3 then "F3"
    else if key == KeyF4 then "F4"
    else if key == KeyF5 then "F5"
    else if key == KeyF6 then "F6"
    else if key == KeyF7 then "F7"
    else if key == KeyF8 then "F8"
    else if key == KeyF9 then "F9"
    else if key == KeyF10 then "F10"
    else if key == KeyF11 then "F11"
    else if key == KeyF12 then "F12"
    else if key == KeyF13 then "F13"
    else if key == KeyF14 then "F14"
    else if key == KeyF15 then "F15"
    else if key == KeyF16 then "F16"
    else if key == KeyF17 then "F17"
    else if key == KeyF18 then "F18"
    else if key == KeyF19 then "F19"
    else if key == KeyF20 then "F20"
    else if key == KeyF21 then "F21"
    else if key == KeyF22 then "F22"
    else if key == KeyF23 then "F23"
    else if key == KeyF24 then "F24"
    else if key == KeyF25 then "F25"
    else if key == KeyUp then "UP"
    else if key == KeyDown then "DOWN"
    else if key == KeyLeft then "LEFT"
    else if key == KeyRight then "RIGHT"
    else if key == KeyLeftShift then "LEFT_SHIFT"
    else if key == KeyRightShift then "RIGHT_SHIFT"
    else if key == KeyLeftControl then "LEFT_CONTROL"
    else if key == KeyRightControl then "RIGHT_CONTROL"
    else if key == KeyLeftAlt then "LEFT_ALT"
    else if key == KeyRightAlt then "RIGHT_ALT"
    else if key == KeyTab then "TAB"
    else if key == KeyEnter then "ENTER"
    else if key == KeyBackspace then "BACKSPACE"
    else if key == KeyInsert then "INSERT"
    else if key == KeyDelete then "DELETE"
    else if key == KeyPageUp then "PAGEUP"
    else if key == KeyPageDown then "PAGEDOWN"
    else if key == KeyHome then "HOME"
    else if key == KeyEnd then "END"
    else if key == KeyKp0 then "KEYPAD0"
    else if key == KeyKp1 then "KEYPAD1"
    else if key == KeyKp2 then "KEYPAD2"
    else if key == KeyKp3 then "KEYPAD3"
    else if key == KeyKp4 then "KEYPAD4"
    else if key == KeyKp5 then "KEYPAD5"
    else if key == KeyKp6 then "KEYPAD6"
    else if key == KeyKp7 then "KEYPAD7"
    else if key == KeyKp8 then "KEYPAD8"
    else if key == KeyKp9 then "KEYPAD9"
    else if key == KeyKpDivide then "KEYPAD_DIVIDE"
    else if key == KeyKpMultiply then "KEYPAD_MULTIPLY"
    else if key == KeyKpSubtract then "KEYPAD_SUBTRACT"
    else if key == KeyKpAdd then "KEYPAD_ADD"
    else if key == KeyKpDecimal then "KEYPAD_DECIMAL"
    else if key == KeyKpEqual then "KEYPAD_EQUAL"
    else if key == KeyKpEnter then "KEYPAD_ENTER"
    else if key == KeyPrintScreen then "PRINT_SCREEN"
    else if key == KeyNumLock then "NUM_LOCK"
    else if key == KeyCapsLock then "CAPS_LOCK"
    else if key == KeyScrollLock then "SCROLL_LOCK"
    else if key == KeyPause then "PAUSE"
    else if key == KeyLeftSuper then "LEFT_SUPER"
    else if key == KeyRightSuper then "RIGHT_SUPER"
    else if key == KeyMenu then "MENU"
    else if key == KeyUnknown then "UNKNOWN"
    else ""
  }

  /** A letter key, A to Z; GLFW numbers them consecutively like the ASCII capitals. */
  predicate IsLetterKey(key: int) {
    KeyA <= key <= KeyZ
  }

  /** The lower-case letter of a letter key (the first table of getKeyValue). */
  function LetterValue(key: int): (c: char)
    requires IsLetterKey(key)
    ensures 'a' <= c <= 'z'
  {
    ('a' as int + (key - KeyA)) as char
  }

  /** std::toupper on a lower-case ASCII letter. */
  function ToUpper(c: char): (u: char)
    requires 'a' <= c <= 'z'
    ensures 'A' <= u <= 'Z'
    ensures u as int - 'A' as int == c as int - 'a' as int
  {
    (c as int - 32) as char
  }

  /** The second table of getKeyValue: digits, punctuation, tab, enter and the keypad. */
  function SymbolValue(key: int): string {
    if key == Key1 then "1"
    else if key == Key2 then "2"
    else if key == Key3 then "3"
    else if key == Key4 then "4"
    else if key == Key5 then "5"
    else if key == Key6 then "6"
    else if key == Key7 then "7"
    else if key == Key8 then "8"
    else if key == Key9 then "9"
    else if key == Key0 then "0"
    else if key == KeySpace then " "
    else if key == KeyMinus then "-"
    else if key == KeyEqual then "="
    else if key == KeyLeftBracket then "]"
    else if key == KeyRightBracket then "["
    else if key == KeyBackslash then "\\"
    else if key == KeySemicolon then ";"
    else if key == KeyApostrophe then "'"
    else if key == KeyGraveAccent then "`"
    else if key == KeyComma then ","
    else if key == KeyPeriod then "."
    else if key == KeySlash then "/"
    else if key == KeyTab then "\t"
    else if key == KeyEnter then "\n"
    else if key == KeyKp0 then "0"
    else if key == KeyKp1 then "1"
    else if key == KeyKp2 then "2"
    else if key == KeyKp3 then "3"
    else if key == KeyKp4 then "4"
    else if key == KeyKp5 then "5"
    else if key == KeyKp6 then "6"
    else if key == KeyKp7 then "7"
    else if key == KeyKp8 then "8"
    else if key == KeyKp9 then "9"
    else if key == KeyKpDivide then "/"
    else if key == KeyKpMultiply then "*"
    else if key == KeyKpSubtract then "-"
    else if key == KeyKpAdd then "+"
    else if key == KeyKpDecimal then "."
    else if key == KeyKpEqual then "="
    else if key == KeyKpEnter then "\n"
    else ""
  }

  /**
   * getKeyValue: the character a key types. A letter is lower case, or upper case when
   * the SHIFT bit is set; every other key ignores the modifiers.
   */
  function KeyValue(key: int, mods: bv32): (value: string)
    ensures IsLetterKey(key) ==> |value| == 1
    ensures |value| <= 1
  {
    if IsLetterKey(key) then
      if mods & ModShift != 0 then [ToUpper(LetterValue(key))] else [LetterValue(key)]
    else
      SymbolValue(key)
  }

  /** getActionName. */
  function ActionName(action: int): (r: string)
    ensures r == "down" <==> action == Press
    ensures r == "up" <==> action == Release
    ensures r == "repeat" <==> action == Repeat
    ensures '_' !in r
  {
    if action == Press then "down"
    else if action == Release then "up"
    else if action == Repeat then "repeat"
    else "caused unknown action"
  }

  /** getModsName: SHIFT, CTRL, ALT, SUPER for the bits set, in that order, unseparated. */
  function ModsName(mods: bv32): (r: string)
    ensures '_' !in r
    ensures r == "" <==> mods & 0xF == 0
  {
    (if mods & ModShift != 0 then "SHIFT" else "")
    + (if mods & ModControl != 0 then "CTRL" else "")
    + (if mods & ModAlt != 0 then "ALT" else "")
    + (if mods & ModSuper != 0 then "SUPER" else "")
  }

  // Decimal numerals, as std::stringstream writes an int.

  function DigitChar(d: int): (c: char)
    requires 0 <= d < 10
    ensures '0' <= c <= '9'
  {
    ('0' as int + d) as char
  }

  predicate IsDigits(s: string) {
    forall i :: 0 <= i < |s| ==> '0' <= s[i] <= '9'
  }

  /** The shortest decimal numeral of n. */
  function NatToString(n: nat): (s: string)
    ensures |s| >= 1 && IsDigits(s)
    ensures s[0] == '0' ==> n == 0
    decreases n
  {
    if n < 10 then [DigitChar(n)] else NatToString(n / 10) + [DigitChar(n % 10)]
  }

  /** A decimal numeral with a leading minus sign for a negative value. */
  function IntToString(n: int): (s: string)
    ensures |s| >= 1
    ensures s[0] == '-' || '0' <= s[0] <= '9'
    ensures '_' !in s
  {
    if n < 0 then "-" + NatToString(-n) else NatToString(n)
  }

  /** The value of a decimal numeral. */
  function ParseDigits(s: string): nat
    requires IsDigits(s)
    decreases |s|
  {
    if |s| == 0 then 0 else ParseDigits(s[..|s| - 1]) * 10 + (s[|s| - 1] as int - '0' as int)
  }

  /** The value of an optionally negative numeral; None for anything else. */
  function ParseInt(s: string): Option<int> {
    if |s| >= 2 && s[0] == '-' && IsDigits(s[1..]) then
      var magnitude: int := ParseDigits(s[1..]);
      Some(-magnitude)
    else if |s| >= 1 && IsDigits(s) then Some(ParseDigits(s))
    else None
  }

  lemma {:induction false} NatToStringRoundTrip(n: nat)
    ensures ParseDigits(NatToString(n)) == n
    decreases n
  {
    if n >= 10 {
      var s := NatToString(n);
      NatToStringRoundTrip(n / 10);
      assert s[..|s| - 1] == NatToString(n / 10);
    }
  }

  /** A numeral reads back as the number it was written from. */
  lemma IntToStringRoundTrip(n: int)
    ensures ParseInt(IntToString(n)) == Some(n)
  {
    var s := IntToString(n);
    if n < 0 {
      var digits := NatToString(-n);
      NatToStringRoundTrip(-n);
      assert s == "-" + digits;
      assert s[1..] == digits;
    } else {
      NatToStringRoundTrip(n);
      assert s == NatToString(n);
      assert s[0] != '-';
    }
  }

  const ButtonPrefix := "mouse_btn_"

  /** getButtonName: left, right, middle by name, any other button by its number. */
  function ButtonName(button: int): (r: string)
    ensures |r| > |ButtonPrefix| && r[..|ButtonPrefix|] == ButtonPrefix
    ensures '_' !in r[|ButtonPrefix|..]
    ensures r == "mouse_btn_left" <==> button == MouseButtonLeft
    ensures r == "mouse_btn_right" <==> button == MouseButtonRight
    ensures r == "mouse_btn_middle" <==> button == MouseButtonMiddle
  {
    if button == MouseButtonLeft then "mouse_btn_left"
    else if button == MouseButtonRight then "mouse_btn_right"
    else if button == MouseButtonMiddle then "mouse_btn_middle"
    else
      var r := ButtonPrefix + IntToString(button);
      assert r[|ButtonPrefix|..] == IntToString(button);
      r
  }

  /** "_" and the modifier names when any modifier bit is set (the `if (mods)` test). */
  function ModsSuffix(mods: bv32): string {
    if mods != 0 then "_" + ModsName(mods) else ""
  }

  /** The event name key_callback builds. */
  function KeyEventName(key: int, mods: bv32, action: int): string {
    "kbd_" + KeyName(key) + ModsSuffix(mods) + "_" + ActionName(action)
  }

  /** The event name mouse_button_callback builds. */
  function ButtonEventName(button: int, mods: bv32, action: int): string {
    ButtonName(button) + ModsSuffix(mods) + "_" + ActionName(action)
  }

  // Which reports produce the names the camera and the application react to.

  /**
   * Two names that agree, each an underscore-free part followed by a part starting
   * with '_', agree part by part, unless the first name's leading part runs on past the
   * other's with an underscore (which a differing first letter rules out).
   */
  lemma SplitAtUnderscore(x: string, r: string, n: string, t: string)
    requires '_' !in n
    requires |r| > 0 && r[0] == '_' && |t| > 0 && t[0] == '_'
    requires |x| > |n| && x[|n|] == '_' ==> |n| > 0 && x[0] != n[0]
    requires x + r == n + t
    ensures x == n && r == t
  {
    assert x == (x + r)[..|x|] == (n + t)[..|n|] == n;
    assert r == (x + r)[|x|..] == (n + t)[|n|..] == t;
  }

  /** The keys whose names the camera and the application listen for. */
  predicate IsDispatchKey(key: int) {
    key in {KeyUp, KeyDown, KeyR, KeyL, KeyS, KeyD, KeyA}
  }

  /**
   * No other key has the name of a dispatch key, and no key name that runs on past a
   * dispatch key's name with an underscore starts with the same letter.
   */
  lemma DispatchKeyNameUnique(k0: int, key: int)
    requires IsDispatchKey(k0)
    ensures KeyName(k0) != "" && '_' !in KeyName(k0)
    ensures KeyName(key) == KeyName(k0) ==> key == k0
    ensures var x, n := KeyName(key), KeyName(k0);
      |x| > |n| && x[|n|] == '_' ==> x[0] != n[0]
  {
    DispatchKeyNames(k0);
    DispatchKeyNameInjective(k0, key);
    DispatchKeyNameRunOn(k0, key);
  }

  /** The dispatch keys' names. */
  lemma DispatchKeyNames(k0: int)
    requires IsDispatchKey(k0)
    ensures KeyName(k0) in {"UP", "DOWN", "R", "L", "S", "D", "A"}
    ensures k0 == KeyUp <==> KeyName(k0) == "UP"
    ensures k0 == KeyDown <==> KeyName(k0) == "DOWN"
  {
  }

  lemma DispatchKeyNameInjective(k0: int, key: int)
    requires IsDispatchKey(k0)
    ensures KeyName(key) == KeyName(k0) ==> key == k0
  {
    DispatchKeyNames(k0);
  }

  lemma DispatchKeyNameRunOn(k0: int, key: int)
    requires IsDispatchKey(k0)
    ensures var x, n := KeyName(key), KeyName(k0);
      |x| > |n| && x[|n|] == '_' ==> x[0] != n[0]
  {
    DispatchKeyNames(k0);
    if k0 == KeyUp {
      NoUnderscoreAt2(key);
    } else if k0 == KeyDown {
      UnderscoreAt4(key);
    } else {
      NoUnderscoreAt1(key);
    }
  }

  lemma NoUnderscoreAt1(key: int)
    ensures |KeyName(key)| > 1 ==> KeyName(key)[1] != '_'
  {
  }

  lemma NoUnderscoreAt2(key: int)
    ensures |KeyName(key)| > 2 ==> KeyName(key)[2] != '_'
  {
  }

  /** The names with '_' at index 4 are LEFT_BRACKET, CAPS_LOCK and LEFT_ plus a modifier. */
  lemma UnderscoreAt4(key: int)
    ensures |KeyName(key)| > 4 && KeyName(key)[4] == '_' ==> KeyName(key)[0] in "LC"
  {
    if |KeyName(key)| > 4 && KeyName(key)[4] == '_' {
      assert key in {KeyLeftBracket, KeyLeftShift, KeyLeftControl, KeyLeftAlt, KeyCapsLock, KeyLeftSuper};
    }
  }

  /** What follows the key or button name: "_down" exactly when no modifier bit is set and the action is PRESS, and so on. */
  lemma SuffixExact(mods: bv32, action: int, a0: int)
    requires a0 in {Press, Release, Repeat}
    ensures ModsSuffix(mods) + "_" + ActionName(action) == "_" + ActionName(a0)
      <==> mods == 0 && action == a0
  {
    var a, b := ActionName(action), ActionName(a0);
    if ModsSuffix(mods) + "_" + a == "_" + b {
      if mods != 0 {
        UnderscoreInside(ModsName(mods), a, b);
      } else {
        assert ("_" + a)[1..] == a;
        assert ("_" + b)[1..] == b;
      }
    }
  }

  lemma UnderscoreInside(m: string, a: string, b: string)
    ensures '_' !in b ==> "_" + m + "_" + a != "_" + b
  {
    var s := "_" + m + "_" + a;
    assert s[|m| + 1] == '_';
  }

  /**
   * A name made of a prefix, a part x and a suffix is the one made of the same prefix,
   * a part n and "_" plus a known action exactly when the parts agree and the suffix
   * has no modifiers and that action.
   */
  lemma NameExact(prefix: string, x: string, mods: bv32, action: int, n: string, a0: int)
    requires '_' !in n && a0 in {Press, Release, Repeat}
    requires |x| > |n| && x[|n|] == '_' ==> |n| > 0 && x[0] != n[0]
    ensures prefix + x + ModsSuffix(mods) + "_" + ActionName(action) == prefix + n + "_" + ActionName(a0)
      <==> x == n && mods == 0 && action == a0
  {
    var r := ModsSuffix(mods) + "_" + ActionName(action);
    var t := "_" + ActionName(a0);
    Regroup(prefix, x, ModsSuffix(mods), "_", ActionName(action));
    Regroup(prefix, n, "", "_", ActionName(a0));
    assert r[0] == '_';
    if prefix + (x + r) == prefix + (n + t) {
      assert (prefix + (x + r))[|prefix|..] == x + r;
      assert (prefix + (n + t))[|prefix|..] == n + t;
      SplitAtUnderscore(x, r, n, t);
      SuffixExact(mods, action, a0);
    }
  }

  lemma Regroup(prefix: string, x: string, m: string, u: string, a: string)
    ensures prefix + x + m + u + a == prefix + (x + (m + u + a))
  {
  }

  /**
   * A key report yields the name of a dispatch key with a known action (say
   * "kbd_UP_down") exactly when it is that key, with no modifier bit set, and that
   * action.
   */
  lemma KeyEventExact(key: int, mods: bv32, action: int, k0: int, a0: int)
    requires IsDispatchKey(k0) && a0 in {Press, Release, Repeat}
    ensures KeyEventName(key, mods, action) == KeyEventName(k0, 0, a0)
      <==> key == k0 && mods == 0 && action == a0
  {
    DispatchKeyNameUnique(k0, key);
    NameExact("kbd_", KeyName(key), mods, action, KeyName(k0), a0);
  }

  /**
   * A button report yields "mouse_btn_left_down" (or the name of another named button
   * and known action) exactly when it is that button, with no modifier bit set, and
   * that action.
   */
  lemma ButtonEventExact(button: int, mods: bv32, action: int, b0: int, a0: int)
    requires b0 in {MouseButtonLeft, MouseButtonRight, MouseButtonMiddle}
    requires a0 in {Press, Release, Repeat}
    ensures ButtonEventName(button, mods, action) == ButtonEventName(b0, 0, a0)
      <==> button == b0 && mods == 0 && action == a0
  {
    var p := |ButtonPrefix|;
    var full, full0 := ButtonName(button), ButtonName(b0);
    var x, n := full[p..], full0[p..];
    assert full == ButtonPrefix + x by {
      assert full == full[..p] + full[p..];
    }
    assert full0 == ButtonPrefix + n by {
      assert full0 == full0[..p] + full0[p..];
    }
    assert ModsSuffix(0) == "";
    assert ButtonEventName(b0, 0, a0) == full0 + "_" + ActionName(a0) by {
      assert full0 + "" == full0;
    }
    NameExact(ButtonPrefix, x, mods, action, n, a0);
  }

  /** Key names all start with "kbd_", so the camera never reads a key event's 2D payload. */
  lemma KeyEventNameStart(key: int, mods: bv32, action: int)
    ensures |KeyEventName(key, mods, action)| > 4 && KeyEventName(key, mods, action)[..4] == "kbd_"
    ensures !ReadsPosition(true, KeyEventName(key, mods, action))
  {
    var name := KeyEventName(key, mods, action);
    assert name[0] == 'k';
  }

  /** Button names all start with "mouse_btn_": never a key name, never "mouse_pointer". */
  lemma ButtonEventNameStart(button: int, mods: bv32, action: int)
    ensures ButtonEventName(button, mods, action)[..|ButtonPrefix|] == ButtonPrefix
    ensures var name := ButtonEventName(button, mods, action);
      name != Pointer && name != UpDown && name != UpRepeat && name != DownDown && name != DownRepeat
  {
    var name := ButtonEventName(button, mods, action);
    assert name[..|ButtonPrefix|] == ButtonName(button)[..|ButtonPrefix|];
    assert name[0] == 'm' && name[6] == 'b';
  }

  /** Which key reports carry the names the camera reacts to. */
  lemma CameraKeyNames(key: int, mods: bv32, action: int)
    ensures var name, held := KeyEventName(key, mods, action), mods == 0 && (action == Press || action == Repeat);
      && (name == UpDown || name == UpRepeat <==> held && key == KeyUp)
      && (name == DownDown || name == DownRepeat <==> held && key == KeyDown)
      && name != LeftPress && name != LeftRelease && name != Pointer
  {
    assert UpDown == KeyEventName(KeyUp, 0, Press);
    assert UpRepeat == KeyEventName(KeyUp, 0, Repeat);
    assert DownDown == KeyEventName(KeyDown, 0, Press);
    assert DownRepeat == KeyEventName(KeyDown, 0, Repeat);
    KeyEventExact(key, mods, action, KeyUp, Press);
    KeyEventExact(key, mods, action, KeyUp, Repeat);
    KeyEventExact(key, mods, action, KeyDown, Press);
    KeyEventExact(key, mods, action, KeyDown, Repeat);
    KeyEventNameStart(key, mods, action);
    var name := KeyEventName(key, mods, action);
    assert name[0] == 'k';
  }

  /**
   * What a key report does to the camera: UP or DOWN pressed or repeated with no
   * modifier bit set dollies it by 0.01; every other report leaves it alone.
   */
  function KeyCameraEffect(s: CameraState, key: int, mods: bv32, action: int): CameraState {
    var held := mods == 0 && (action == Press || action == Repeat);
    if held && key == KeyUp then s.(distance := s.distance - 0.01)
    else if held && key == KeyDown then s.(distance := s.distance + 0.01)
    else s
  }

  /** The name a key report carries moves the camera as KeyCameraEffect says, for every report. */
  lemma CameraKeyDispatch(s: CameraState, key: int, mods: bv32, action: int, pos: Vec2)
    ensures Step(s, KeyEventName(key, mods, action), pos) == KeyCameraEffect(s, key, mods, action)
  {
    CameraKeyNames(key, mods, action);
  }

  /** Which button reports carry the names the camera reacts to. */
  lemma CameraButtonNames(button: int, mods: bv32, action: int)
    ensures var name, plain := ButtonEventName(button, mods, action), button == MouseButtonLeft && mods == 0;
      && (name == LeftPress <==> plain && action == Press)
      && (name == LeftRelease <==> plain && action == Release)
      && name != UpDown && name != UpRepeat && name != DownDown && name != DownRepeat
      && name != Pointer
  {
    assert LeftPress == ButtonEventName(MouseButtonLeft, 0, Press);
    assert LeftRelease == ButtonEventName(MouseButtonLeft, 0, Release);
    ButtonEventExact(button, mods, action, MouseButtonLeft, Press);
    ButtonEventExact(button, mods, action, MouseButtonLeft, Release);
    ButtonEventNameStart(button, mods, action);
  }

  /**
   * What a button report does to the camera: the left button pressed with no modifier
   * bit set starts a drag at the reported position, released with no modifier bit set
   * ends it, and every other report leaves the camera alone.
   */
  function ButtonCameraEffect(s: CameraState, button: int, mods: bv32, action: int, pos: Vec2): CameraState {
    var plain := button == MouseButtonLeft && mods == 0;
    if plain && action == Press then s.(mouseDown := true, lastMousePos := pos)
    else if plain && action == Release then s.(mouseDown := false)
    else s
  }

  /** The name a button report carries moves the camera as ButtonCameraEffect says, for every report. */
  lemma CameraButtonDispatch(s: CameraState, button: int, mods: bv32, action: int, pos: Vec2)
    ensures Step(s, ButtonEventName(button, mods, action), pos) == ButtonCameraEffect(s, button, mods, action, pos)
  {
    CameraButtonNames(button, mods, action);
  }

  /**
   * What a key report does to the application's switches: L, S, D or A pressed with no
   * modifier bit set flips that switch; every other report, R included, flips none.
   */
  function KeySwitchEffect(t: Switches, key: int, mods: bv32, action: int): Switches {
    var pressed := mods == 0 && action == Press;
    if pressed && key == KeyL then t.(drawLightVector := !t.drawLightVector)
    else if pressed && key == KeyS then t.(specularOnOff := Toggle(t.specularOnOff))
    else if pressed && key == KeyD then t.(diffuseOnOff := Toggle(t.diffuseOnOff))
    else if pressed && key == KeyA then t.(ambientOnOff := Toggle(t.ambientOnOff))
    else t
  }

  /** The name a key report carries flips the switches as KeySwitchEffect says, for every report. */
  lemma SwitchKeyDispatch(t: Switches, key: int, mods: bv32, action: int)
    ensures SwitchStep(t, KeyEventName(key, mods, action)) == KeySwitchEffect(t, key, mods, action)
  {
    assert LightVectorKey == KeyEventName(KeyL, 0, Press);
    assert SpecularKey == KeyEventName(KeyS, 0, Press);
    assert DiffuseKey == KeyEventName(KeyD, 0, Press);
    assert AmbientKey == KeyEventName(KeyA, 0, Press);
    KeyEventExact(key, mods, action, KeyL, Press);
    KeyEventExact(key, mods, action, KeyS, Press);
    KeyEventExact(key, mods, action, KeyD, Press);
    KeyEventExact(key, mods, action, KeyA, Press);
  }

  // What getKeyValue types.

  /** A letter key types its lower-case letter, or with the SHIFT bit its upper-case one, which is also its name. */
  lemma LetterValues(key: int, mods: bv32)
    requires IsLetterKey(key)
    ensures mods & ModShift == 0 ==> KeyValue(key, mods) == [LetterValue(key)]
    ensures mods & ModShift != 0 ==> KeyValue(key, mods) == KeyName(key)
    ensures KeyValue(key, ModShift)[0] as int - KeyValue(key, 0)[0] as int == 'A' as int - 'a' as int
  {
    if key == KeyA {
      assert KeyName(key) == "A";
    } else if key == KeyB {
      assert KeyName(key) == "B";
    } else if key == KeyC {
      assert KeyName(key) == "C";
    } else if key == KeyD {
      assert KeyName(key) == "D";
    } else if key == KeyE {
      assert KeyName(key) == "E";
    } else if key == KeyF {
      assert KeyName(key) == "F";
    } else if key == KeyG {
      assert KeyName(key) == "G";
    } else if key == KeyH {
      assert KeyName(key) == "H";
    } else if key == KeyI {
      assert KeyName(key) == "I";
    } else if key == KeyJ {
      assert KeyName(key) == "J";
    } else if key == KeyK {
      assert KeyName(key) == "K";
    } else if key == KeyL {
      assert KeyName(key) == "L";
    } else if key == KeyM {
      assert KeyName(key) == "M";
    } else if key == KeyN {
      assert KeyName(key) == "N";
    } else if key == KeyO {
      assert KeyName(key) == "O";
    } else if key == KeyP {
      assert KeyName(key) == "P";
    } else if key == KeyQ {
      assert KeyName(key) == "Q";
    } else if key == KeyR {
      assert KeyName(key) == "R";
    } else if key == KeyS {
      assert KeyName(key) == "S";
    } else if key == KeyT {
      assert KeyName(key) == "T";
    } else if key == KeyU {
      assert KeyName(key) == "U";
    } else if key == KeyV {
      assert KeyName(key) == "V";
    } else if key == KeyW {
      assert KeyName(key) == "W";
    } else if key == KeyX {
      assert KeyName(key) == "X";
    } else if key == KeyY {
      assert KeyName(key) == "Y";
    } else {
      assert KeyName(key) == "Z";
    }
  }

  /** Digits, punctuation and the keypad type the same character whatever the modifiers. */
  lemma SymbolValuesIgnoreMods(key: int, mods: bv32)
    requires !IsLetterKey(key)
    ensures KeyValue(key, mods) == KeyValue(key, 0)
    ensures KeyValue(KeyLeftBracket, mods) == "]" && KeyValue(KeyRightBracket, mods) == "["
    ensures KeyValue(Key1, mods) == KeyValue(KeyKp1, mods) == "1"
  {
  }

  /** The arrows, the function keys, ESCAPE, UNKNOWN and every code without a name type nothing. */
  lemma UntypedKeys(key: int, mods: bv32)
    ensures KeyRight <= key <= KeyUp || KeyF1 <= key <= KeyF25 ==> KeyValue(key, mods) == ""
    ensures key == KeyEscape || key == KeyUnknown ==> KeyValue(key, mods) == ""
    ensures KeyName(key) == "" ==> KeyValue(key, mods) == ""
  {
  }

  // Names the composition produces that a reader might not expect.

  /**
   * A code outside getKeyName's table has the empty name, and an unnamed modifier bit
   * (0x10, say) adds an empty modifier name: both leave a doubled underscore.
   */
  lemma EmptyNameParts()
    ensures KeyEventName(1000, 0, Press) == "kbd__down"
    ensures KeyEventName(KeyA, 0x10, Press) == "kbd_A__down"
  {
    assert KeyName(1000) == "";
    assert KeyName(KeyA) == "A";
    assert ModsName(0x10) == "";
  }

  /** LEFT with SHIFT held and LEFT_SHIFT alone produce the same name. */
  lemma KeyNameCollision()
    ensures KeyEventName(KeyLeft, ModShift, Press) == KeyEventName(KeyLeftShift, 0, Press) == "kbd_LEFT_SHIFT_down"
  {
    assert KeyName(KeyLeft) == "LEFT";
    assert KeyName(KeyLeftShift) == "LEFT_SHIFT";
    assert ModsName(ModShift) == "SHIFT";
  }

  /** The modifier names come in the fixed order SHIFT, CTRL, ALT, SUPER, whatever order the bits were set in. */
  lemma ModsNameOrder()
    ensures ModsName(ModShift | ModControl | ModAlt | ModSuper) == "SHIFTCTRLALTSUPER"
    ensures ModsName(ModSuper | ModShift) == "SHIFTSUPER"
  {
    assert ModShift | ModControl | ModAlt | ModSuper == 0xF;
    assert ModSuper | ModShift == 0x9;
  }

  /** A modified key's name: the modifiers come between the key and the action. */
  lemma ModifiedKeyName()
    ensures KeyEventName(KeyA, ModControl | ModShift, Repeat) == "kbd_A_SHIFTCTRL_repeat"
  {
    assert ModControl | ModShift == 0x3;
    assert ModsSuffix(0x3) == "_SHIFTCTRL";
    assert KeyName(KeyA) == "A";
  }

  /**
   * The part after "mouse_btn_" reads back as the button's number exactly for the
   * buttons without a name of their own.
   */
  lemma ButtonNumber(button: int)
    ensures ParseInt(ButtonName(button)[|ButtonPrefix|..]) == Some(button)
      <==> button !in {MouseButtonLeft, MouseButtonRight, MouseButtonMiddle}
  {
    var r := ButtonName(button);
    if button in {MouseButtonLeft, MouseButtonRight, MouseButtonMiddle} {
      var tail := r[|ButtonPrefix|..];
      assert tail[0] in "lrm";
      assert ParseInt(tail) == None;
    } else {
      assert r[|ButtonPrefix|..] == IntToString(button);
      IntToStringRoundTrip(button);
    }
  }

  /** No two buttons share a name. */
  lemma ButtonNameInjective(b1: int, b2: int)
    requires ButtonName(b1) == ButtonName(b2)
    ensures b1 == b2
  {
    ButtonNumber(b1);
    ButtonNumber(b2);
  }

  /** No button name is one of the application's switch keys. */
  lemma ButtonNamesKeepSwitches(t: Switches, button: int, mods: bv32, action: int)
    ensures SwitchStep(t, ButtonEventName(button, mods, action)) == t
  {
    var name := ButtonEventName(button, mods, action);
    ButtonEventNameStart(button, mods, action);
    assert name[0] == 'm';
  }

  // The callbacks.

  /** The name mouse_button_callback builds, piece by piece. */
  method ComposeButtonName(button: int, mods: bv32, action: int) returns (name: string)
    ensures name == ButtonEventName(button, mods, action)
  {
    name := ButtonName(button);
    if mods != 0 {
      name := name + "_" + ModsName(mods);
    }
    assert name == ButtonName(button) + ModsSuffix(mods);
    name := name + "_" + ActionName(action);
  }

  /**
   * The GLFW callbacks of BaseApp. `cursorPos` is BaseApp's static cursor position and
   * `app` the application the window's user pointer leads to. Each callback builds one
   * event, hands it to the application and returns it.
   */
  class Callbacks {
    var cursorPos: Vec2
    const app: App

    /** The cursor position starts at (0, 0). */
    constructor (app: App)
      ensures this.app == app && cursorPos == Vec2(0.0, 0.0)
    {
      this.app := app;
      cursorPos := Vec2(0.0, 0.0);
    }

    /**
     * key_callback: a MSG event carrying the typed character, named after the key, the
     * modifiers and the action. The scancode is not used.
     */
    method KeyCallback(window: Window, key: int, scancode: int, action: int, mods: bv32) returns (event: Event)
      modifies app, app.turntable
      ensures fresh(event) && event.kind == Message && event.window == window
      ensures event.name == KeyEventName(key, mods, action) && event.dataMsg == KeyValue(key, mods)
      ensures app.Switched() == KeySwitchEffect(old(app.Switched()), key, mods, action)
      ensures app.turntable.State() == KeyCameraEffect(old(app.turntable.State()), key, mods, action)
    {
      var name := "kbd_" + KeyName(key);
      if mods != 0 {
        name := name + "_" + ModsName(mods);
      }
      var value := KeyValue(key, mods);
      name := name + "_" + ActionName(action);
      assert name == KeyEventName(key, mods, action);
      event := new Event.WithMessage(name, value, window);
      KeyEventNameStart(key, mods, action);
      SwitchKeyDispatch(app.Switched(), key, mods, action);
      CameraKeyDispatch(app.turntable.State(), key, mods, action, event.data2D);
      app.OnEvent(event);
    }

    /** mouse_button_callback: a 2D event at the last stored cursor position. */
    method MouseButtonCallback(window: Window, button: int, action: int, mods: bv32) returns (event: Event)
      modifies app, app.turntable
      ensures fresh(event) && event.kind == TwoD && event.window == window
      ensures event.name == ButtonEventName(button, mods, action) && event.data2D == cursorPos
      ensures app.Switched() == old(app.Switched())
      ensures app.turntable.State() == ButtonCameraEffect(old(app.turntable.State()), button, mods, action, cursorPos)
    {
      var name := ComposeButtonName(button, mods, action);
      ghost var t0, s0 := app.Switched(), app.turntable.State();
      event := new Event.With2D(name, cursorPos, window);
      app.OnEvent(event);
      assert app.Switched() == t0 by {
        ButtonNamesKeepSwitches(t0, button, mods, action);
      }
      assert app.turntable.State() == ButtonCameraEffect(s0, button, mods, action, cursorPos) by {
        CameraButtonDispatch(s0, button, mods, action, cursorPos);
      }
    }

    /**
     * cursor_position_callback: stores the position, then sends it as "mouse_pointer".
     * The camera turns only while the left button is held.
     */
    method CursorPositionCallback(window: Window, x: real, y: real) returns (event: Event)
      modifies this, app, app.turntable
      ensures cursorPos == Vec2(x, y)
      ensures fresh(event) && event.kind == TwoD && event.window == window
      ensures event.name == Pointer && event.data2D == Vec2(x, y)
      ensures app.Switched() == old(app.Switched())
      ensures app.turntable.State() ==
        if old(app.turntable.mouseDown) then Drag(old(app.turntable.State()), Vec2(x, y))
        else old(app.turntable.State())
    {
      var name := "mouse_pointer";
      cursorPos := Vec2(x, y);
      event := new Event.With2D(name, cursorPos, window);
      app.OnEvent(event);
    }

    /** scroll_callback: a "mouse_scroll" 2D event, to which neither the camera nor the switches react. */
    method ScrollCallback(window: Window, x: real, y: real) returns (event: Event)
      modifies app, app.turntable
      ensures fresh(event) && event.kind == TwoD && event.window == window
      ensures event.name == "mouse_scroll" && event.data2D == Vec2(x, y)
      ensures app.Switched() == old(app.Switched())
      ensures app.turntable.State() == old(app.turntable.State())
    {
      var name := "mouse_scroll";
      event := new Event.With2D(name, Vec2(x, y), window);
      app.OnEvent(event);
    }
  }
}
