/**
  Typing into a numeric text box: `process_numeric_input` reads the keyboard once per frame and
  edits the box's buffer in place.
*/
module NumericInput {
  import opened Wrappers
  import opened Types

  /** The key at position `i` of `get_numeric_keycodes_with_minus`. */
  function KeyAt(i: int): KeyCode
    requires 0 <= i < 24
  {
    if i == 0 then Digit0 else
    if i == 1 then Digit1 else
    if i == 2 then Digit2 else
    if i == 3 then Digit3 else
    if i == 4 then Digit4 else
    if i == 5 then Digit5 else
    if i == 6 then Digit6 else
    if i == 7 then Digit7 else
    if i == 8 then Digit8 else
    if i == 9 then Digit9 else
    if i == 10 then Numpad0 else
    if i == 11 then Numpad1 else
    if i == 12 then Numpad2 else
    if i == 13 then Numpad3 else
    if i == 14 then Numpad4 else
    if i == 15 then Numpad5 else
    if i == 16 then Numpad6 else
    if i == 17 then Numpad7 else
    if i == 18 then Numpad8 else
    if i == 19 then Numpad9 else
    if i == 20 then Period else
    if i == 21 then NumpadDecimal else
    if i == 22 then Minus else
    NumpadSubtract
  }

  /** `get_numeric_keycodes_with_minus`: the 24 keys a numeric box reads, in the order they are tried. */
  function NumericKeycodes(): seq<KeyCode> {
    seq(24, i requires 0 <= i < 24 => KeyAt(i))
  }

  /** The only characters a numeric box can gain. */
  const NumericChars: set<char> := {'0', '1', '2', '3', '4', '5', '6', '7', '8', '9', '.', '-'}

  /** The text buffer of one input box, `String` in the source. */
  class TextBuffer {
    var text: string

    constructor(s: string)
      ensures text == s
    {
      text := s;
    }
  }

  /** Where a key stands in the table, or 24 for a key outside it. */
  function TablePosition(code: KeyCode): (p: nat)
    ensures p <= 24
  {
    match code
    case Digit0 => 0   case Digit1 => 1   case Digit2 => 2   case Digit3 => 3   case Digit4 => 4
    case Digit5 => 5   case Digit6 => 6   case Digit7 => 7   case Digit8 => 8   case Digit9 => 9
    case Numpad0 => 10 case Numpad1 => 11 case Numpad2 => 12 case Numpad3 => 13 case Numpad4 => 14
    case Numpad5 => 15 case Numpad6 => 16 case Numpad7 => 17 case Numpad8 => 18 case Numpad9 => 19
    case Period => 20  case NumpadDecimal => 21 case Minus => 22 case NumpadSubtract => 23
    case _ => 24
  }

  /** Each position of the table holds the key `TablePosition` places there, so no key is listed twice. */
  lemma PositionHolds(i: nat)
    requires i < |NumericKeycodes()|
    ensures TablePosition(NumericKeycodes()[i]) == i
  {
    assert NumericKeycodes()[i] == KeyAt(i);
    if i < 12 {
      LowPositions(i);
    } else {
      HighPositions(i);
    }
  }

  lemma LowPositions(i: nat)
    requires i < 12
    ensures TablePosition(KeyAt(i)) == i
  {
  }

  lemma HighPositions(i: nat)
    requires 12 <= i < 24
    ensures TablePosition(KeyAt(i)) == i
  {
  }

  /** The character a key types: its digit, '.', or '-' for the two minus keys; `None` off the table. */
  function Typing(code: KeyCode): (c: Option<char>)
    ensures c.Some? ==> c.value in NumericChars
  {
    match code
    case Digit0 | Numpad0 => Some('0')
    case Digit1 | Numpad1 => Some('1')
    case Digit2 | Numpad2 => Some('2')
    case Digit3 | Numpad3 => Some('3')
    case Digit4 | Numpad4 => Some('4')
    case Digit5 | Numpad5 => Some('5')
    case Digit6 | Numpad6 => Some('6')
    case Digit7 | Numpad7 => Some('7')
    case Digit8 | Numpad8 => Some('8')
    case Digit9 | Numpad9 => Some('9')
    case Period | NumpadDecimal => Some('.')
    case Minus | NumpadSubtract => Some('-')
    case _ => None
  }

  /**
    The buffer after `handle_numeric_input(code, buf, allow_minus)`: a digit or decimal key
    appends its character; a minus key appends '-' only when minus is allowed and the buffer is
    empty; any other key changes nothing.
  */
  function Handled(code: KeyCode, buf: string, allowMinus: bool): string {
    match Typing(code)
    case None => buf
    case Some(c) => if c == '-' && !(allowMinus && buf == []) then buf else buf + [c]
  }

  method HandleNumericInput(code: KeyCode, buf: TextBuffer, allowMinus: bool)
    modifies buf
    ensures buf.text == Handled(code, old(buf.text), allowMinus)
  {
    var typed := Typing(code);
    if typed.Some? {
      if typed.value != '-' || (allowMinus && buf.text == []) {
        buf.text := buf.text + [typed.value];
      }
    }
  }

  /** The buffer after the keys of `codes` that went down this frame were handled, in order. */
  function Typed(justPressed: set<KeyCode>, buf: string, codes: seq<KeyCode>, allowMinus: bool): string
    decreases |codes|
  {
    if codes == [] then buf
    else
      var before := Typed(justPressed, buf, codes[..|codes| - 1], allowMinus);
      var code := codes[|codes| - 1];
      if code in justPressed then Handled(code, before, allowMinus) else before
  }

  /** `String::pop`, which leaves an empty string as it is. */
  function Pop(s: string): string {
    if s == [] then s else s[..|s| - 1]
  }

  /** The erasing keys: Backspace or CapsLock going down, or Backspace held, pops; Delete going down clears. */
  function Erased(keys: Keys, buf: string): string {
    var popped :=
      if Backspace in keys.justPressed || CapsLock in keys.justPressed then Pop(buf)
      else if Backspace in keys.pressed then Pop(buf)
      else buf;
    if Delete in keys.justPressed then [] else popped
  }

  /** The buffer after one call of `process_numeric_input`. */
  function Processed(keys: Keys, buf: string, allowMinus: bool): string {
    Erased(keys, Typed(keys.justPressed, buf, NumericKeycodes(), allowMinus))
  }

  /** `process_numeric_input`: every table key that went down is handled in table order, then the erasing keys act. */
  method ProcessNumericInput(keys: Keys, buf: TextBuffer, allowNegative: bool)
    modifies buf
    ensures buf.text == Processed(keys, old(buf.text), allowNegative)
  {
    ghost var start := buf.text;
    for i := 0 to |NumericKeycodes()|
      invariant buf.text == Typed(keys.justPressed, start, NumericKeycodes()[..i], allowNegative)
    {
      var code := NumericKeycodes()[i];
      assert NumericKeycodes()[..i + 1][..i] == NumericKeycodes()[..i];
      if code in keys.justPressed {
        HandleNumericInput(code, buf, allowNegative);
      }
    }
    assert NumericKeycodes()[..|NumericKeycodes()|] == NumericKeycodes();
    if Backspace in keys.justPressed || CapsLock in keys.justPressed {
      buf.text := Pop(buf.text);
    } else if Backspace in keys.pressed {
      buf.text := Pop(buf.text);
    }
    if Delete in keys.justPressed {
      buf.text := [];
    }
  }

  // ---------------------------------------------------------------- properties

  /** One key adds at most one character, from the numeric set, and '-' only to an empty buffer when allowed. */
  lemma HandledAppends(code: KeyCode, buf: string, allowMinus: bool)
    ensures var r := Handled(code, buf, allowMinus);
      && buf <= r && |r| <= |buf| + 1
      && (|r| == |buf| + 1 ==> r[|buf|] in NumericChars)
      && (|r| == |buf| + 1 && r[|buf|] == '-' ==> allowMinus && buf == [])
  {
  }

  /**
    Typing only appends: the old buffer is a prefix of the new one, every added character is a
    digit, '.' or '-', and a '-' is only ever added as the first character of the buffer and only
    when minus is allowed.
  */
  lemma {:induction false} TypedAppends(justPressed: set<KeyCode>, buf: string, codes: seq<KeyCode>, allowMinus: bool)
    ensures var t := Typed(justPressed, buf, codes, allowMinus);
      && buf <= t
      && (forall j :: |buf| <= j < |t| ==> t[j] in NumericChars)
      && (forall j :: |buf| <= j < |t| && t[j] == '-' ==> allowMinus && j == 0)
    decreases |codes|
  {
    if codes != [] {
      var before := Typed(justPressed, buf, codes[..|codes| - 1], allowMinus);
      TypedAppends(justPressed, buf, codes[..|codes| - 1], allowMinus);
      HandledAppends(codes[|codes| - 1], before, allowMinus);
    }
  }

  /** With none of the listed keys down, typing changes nothing. */
  lemma {:induction false} TypedNothing(justPressed: set<KeyCode>, buf: string, codes: seq<KeyCode>, allowMinus: bool)
    requires forall i :: 0 <= i < |codes| ==> codes[i] !in justPressed
    ensures Typed(justPressed, buf, codes, allowMinus) == buf
    decreases |codes|
  {
    if codes != [] {
      TypedNothing(justPressed, buf, codes[..|codes| - 1], allowMinus);
    }
  }

  /** The buffer only ever gains characters from "0123456789.-", and a '-' only at its front. */
  lemma ProcessedCharacters(keys: Keys, buf: string, allowMinus: bool)
    ensures var t := Typed(keys.justPressed, buf, NumericKeycodes(), allowMinus);
      var r := Processed(keys, buf, allowMinus);
      && r <= t
      && (forall j :: |buf| <= j < |r| ==> r[j] in NumericChars)
      && (forall j :: |buf| <= j < |r| && r[j] == '-' ==> allowMinus && j == 0)
  {
    TypedAppends(keys.justPressed, buf, NumericKeycodes(), allowMinus);
  }

  /** Without Delete, at most one character is removed per call, from the end, and only by an erasing key. */
  lemma AtMostOneErased(keys: Keys, buf: string, allowMinus: bool)
    requires Delete !in keys.justPressed
    ensures var t := Typed(keys.justPressed, buf, NumericKeycodes(), allowMinus);
      var r := Processed(keys, buf, allowMinus);
      && r <= t && |r| >= |t| - 1
      && (|r| == |t| - 1 <==>
            (Backspace in keys.justPressed || CapsLock in keys.justPressed || Backspace in keys.pressed) && t != [])
  {
  }

  /** Delete going down leaves the buffer empty. */
  lemma DeleteClears(keys: Keys, buf: string, allowMinus: bool)
    requires Delete in keys.justPressed
    ensures Processed(keys, buf, allowMinus) == []
  {
  }

  /** Keys outside the table and the erasing keys change nothing. */
  lemma OtherKeysIgnored(keys: Keys, buf: string, allowMinus: bool)
    requires forall k :: k in keys.justPressed ==> k !in NumericKeycodes()
    requires Backspace !in keys.justPressed && CapsLock !in keys.justPressed && Delete !in keys.justPressed
    requires Backspace !in keys.pressed
    ensures Processed(keys, buf, allowMinus) == buf
  {
    TypedNothing(keys.justPressed, buf, NumericKeycodes(), allowMinus);
  }

  /** With minus disallowed, '-' is never added. */
  lemma NoMinusWhenDisallowed(keys: Keys, buf: string)
    ensures var r := Processed(keys, buf, false);
      forall j :: |buf| <= j < |r| ==> r[j] != '-'
  {
    ProcessedCharacters(keys, buf, false);
  }

  /** No key is listed twice in `codes`. */
  predicate Distinct(codes: seq<KeyCode>) {
    forall i, j :: 0 <= i < j < |codes| ==> codes[i] != codes[j]
  }

  lemma TableDistinct()
    ensures Distinct(NumericKeycodes())
  {
    forall i, j | 0 <= i < j < |NumericKeycodes()|
      ensures NumericKeycodes()[i] != NumericKeycodes()[j]
    {
      PositionHolds(i);
      PositionHolds(j);
    }
  }

  /** In a list without repeats, a single key going down is handled exactly once, or not at all. */
  lemma {:induction false} TypedSingle(code: KeyCode, buf: string, codes: seq<KeyCode>, allowMinus: bool)
    requires Distinct(codes)
    ensures Typed({code}, buf, codes, allowMinus) == if code in codes then Handled(code, buf, allowMinus) else buf
    decreases |codes|
  {
    if codes != [] {
      var prefix := codes[..|codes| - 1];
      assert codes == prefix + [codes[|codes| - 1]];
      assert Distinct(prefix);
      TypedSingle(code, buf, prefix, allowMinus);
    }
  }

  /** A digit, Numpad digit, '.' key or minus key pressed on its own types its character once. */
  lemma SingleKeyTypes(code: KeyCode, buf: string, allowMinus: bool)
    requires code in NumericKeycodes()
    ensures Typed({code}, buf, NumericKeycodes(), allowMinus) == Handled(code, buf, allowMinus)
  {
    TableDistinct();
    TypedSingle(code, buf, NumericKeycodes(), allowMinus);
  }

  /** Table positions `lo` up to `hi` hold no key that went down, so typing over them changes nothing. */
  lemma {:induction false} TypedSkipsAbsent(jp: set<KeyCode>, buf: string, allowMinus: bool, lo: nat, hi: nat)
    requires lo <= hi <= |NumericKeycodes()|
    requires forall i :: lo <= i < hi ==> NumericKeycodes()[i] !in jp
    ensures Typed(jp, buf, NumericKeycodes()[..hi], allowMinus) == Typed(jp, buf, NumericKeycodes()[..lo], allowMinus)
    decreases hi
  {
    if lo < hi {
      assert NumericKeycodes()[..hi][..hi - 1] == NumericKeycodes()[..hi - 1];
      TypedSkipsAbsent(jp, buf, allowMinus, lo, hi - 1);
    }
  }

  /**
    Keys act in table order: the minus keys come last, so a digit typed in the same frame makes
    the buffer non-empty first and the '-' is dropped.
  */
  lemma MinusAfterDigitDropped()
    ensures Typed({Digit1, Minus}, [], NumericKeycodes(), true) == ['1']
  {
    FirstTwoTyped();
    MiddleNeither();
    TypedSkipsAbsent({Digit1, Minus}, [], true, 2, 22);
    LastTwoTyped();
    assert NumericKeycodes()[..24] == NumericKeycodes();
  }

  /** Digit0 is up and Digit1 types '1'. */
  lemma FirstTwoTyped()
    ensures Typed({Digit1, Minus}, [], NumericKeycodes()[..2], true) == ['1']
  {
    var t := NumericKeycodes();
    assert t[0] == Digit0;
    assert t[1] == Digit1;
    TypedStep({Digit1, Minus}, [], true, 0);
    TypedStep({Digit1, Minus}, [], true, 1);
    assert Handled(Digit1, [], true) == ['1'];
  }

  /** With '1' already typed, Minus is dropped and NumpadSubtract is up. */
  lemma LastTwoTyped()
    requires Typed({Digit1, Minus}, [], NumericKeycodes()[..22], true) == ['1']
    ensures Typed({Digit1, Minus}, [], NumericKeycodes()[..24], true) == ['1']
  {
    MinusDropped();
    SubtractUp();
  }

  lemma MinusDropped()
    requires Typed({Digit1, Minus}, [], NumericKeycodes()[..22], true) == ['1']
    ensures Typed({Digit1, Minus}, [], NumericKeycodes()[..23], true) == ['1']
  {
    assert NumericKeycodes()[22] == Minus;
    TypedStep({Digit1, Minus}, [], true, 22);
    assert Handled(Minus, ['1'], true) == ['1'];
  }

  lemma SubtractUp()
    requires Typed({Digit1, Minus}, [], NumericKeycodes()[..23], true) == ['1']
    ensures Typed({Digit1, Minus}, [], NumericKeycodes()[..24], true) == ['1']
  {
    assert NumericKeycodes()[23] == NumpadSubtract;
    TypedStep({Digit1, Minus}, [], true, 23);
  }

  /** Positions 2 to 21 of the table hold neither Digit1 nor Minus. */
  lemma MiddleNeither()
    ensures forall i :: 2 <= i < 22 ==> NumericKeycodes()[i] !in {Digit1, Minus}
  {
    forall i | 2 <= i < 22
      ensures NumericKeycodes()[i] !in {Digit1, Minus}
    {
      PositionHolds(i);
    }
  }

  /** Typing over the first `k + 1` table positions is typing over the first `k`, then handling key `k` if it went down. */
  lemma TypedStep(jp: set<KeyCode>, buf: string, allowMinus: bool, k: nat)
    requires k < |NumericKeycodes()|
    ensures var t := NumericKeycodes();
      Typed(jp, buf, t[..k + 1], allowMinus)
        == if t[k] in jp then Handled(t[k], Typed(jp, buf, t[..k], allowMinus), allowMinus) else Typed(jp, buf, t[..k], allowMinus)
  {
    assert NumericKeycodes()[..k + 1][..k] == NumericKeycodes()[..k];
  }
}
