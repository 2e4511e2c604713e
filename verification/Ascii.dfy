/**
 ASCII text as keystrokes (src/commands.rs, ascii_strokes in src/input_state.rs),
 and a US-layout host that reads them back.
 */
module Ascii {
  import opened Types
  import opened Protocol
  import opened Commands
  import opened InputState

  const CR: Byte := 0x0D
  const LF: Byte := 0x0A

  /** Base character, shifted character and keycode of the keys that are not letters or 1..9. */
  function SymbolKey(b: Byte): Option<KeyStroke> {
    if b == 0x30 then Some(KeyStroke(0, 0x27))                     // 0
    else if b == LF || b == CR then Some(KeyStroke(0, 0x28))
    else if b == 0x08 then Some(KeyStroke(0, 0x2A))
    else if b == 0x09 then Some(KeyStroke(0, 0x2B))
    else if b == 0x20 then Some(KeyStroke(0, 0x2C))
    else if b == 0x2D then Some(KeyStroke(0, 0x2D))                // -
    else if b == 0x5F then Some(KeyStroke(MOD_LEFT_SHIFT, 0x2D))   // _
    else if b == 0x3D then Some(KeyStroke(0, 0x2E))                // =
    else if b == 0x2B then Some(KeyStroke(MOD_LEFT_SHIFT, 0x2E))   // +
    else if b == 0x5B then Some(KeyStroke(0, 0x2F))                // [
    else if b == 0x7B then Some(KeyStroke(MOD_LEFT_SHIFT, 0x2F))   // {
    else if b == 0x5D then Some(KeyStroke(0, 0x30))                // ]
    else if b == 0x7D then Some(KeyStroke(MOD_LEFT_SHIFT, 0x30))   // }
    else if b == 0x5C then Some(KeyStroke(0, 0x31))                // backslash
    else if b == 0x7C then Some(KeyStroke(MOD_LEFT_SHIFT, 0x31))   // |
    else if b == 0x3B then Some(KeyStroke(0, 0x33))                // ;
    else if b == 0x3A then Some(KeyStroke(MOD_LEFT_SHIFT, 0x33))   // :
    else if b == 0x27 then Some(KeyStroke(0, 0x34))                // '
    else if b == 0x22 then Some(KeyStroke(MOD_LEFT_SHIFT, 0x34))   // "
    else if b == 0x60 then Some(KeyStroke(0, 0x35))                // `
    else if b == 0x7E then Some(KeyStroke(MOD_LEFT_SHIFT, 0x35))   // ~
    else if b == 0x2C then Some(KeyStroke(0, 0x36))                // ,
    else if b == 0x3C then Some(KeyStroke(MOD_LEFT_SHIFT, 0x36))   // <
    else if b == 0x2E then Some(KeyStroke(0, 0x37))                // .
    else if b == 0x3E then Some(KeyStroke(MOD_LEFT_SHIFT, 0x37))   // >
    else if b == 0x2F then Some(KeyStroke(0, 0x38))                // /
    else if b == 0x3F then Some(KeyStroke(MOD_LEFT_SHIFT, 0x38))   // ?
    else if b == 0x21 then Some(KeyStroke(MOD_LEFT_SHIFT, 0x1E))   // !
    else if b == 0x40 then Some(KeyStroke(MOD_LEFT_SHIFT, 0x1F))   // @
    else if b == 0x23 then Some(KeyStroke(MOD_LEFT_SHIFT, 0x20))   // #
    else if b == 0x24 then Some(KeyStroke(MOD_LEFT_SHIFT, 0x21))   // $
    else if b == 0x25 then Some(KeyStroke(MOD_LEFT_SHIFT, 0x22))   // %
    else if b == 0x5E then Some(KeyStroke(MOD_LEFT_SHIFT, 0x23))   // ^
    else if b == 0x26 then Some(KeyStroke(MOD_LEFT_SHIFT, 0x24))   // &
    else if b == 0x2A then Some(KeyStroke(MOD_LEFT_SHIFT, 0x25))   // *
    else if b == 0x28 then Some(KeyStroke(MOD_LEFT_SHIFT, 0x26))   // (
    else if b == 0x29 then Some(KeyStroke(MOD_LEFT_SHIFT, 0x27))   // )
    else None
  }

  predicate IsLower(b: Byte) {
    0x61 <= b <= 0x7A
  }

  predicate IsUpper(b: Byte) {
    0x41 <= b <= 0x5A
  }

  function AsciiToKeystroke(b: Byte): Option<KeyStroke> {
    if IsLower(b) then Some(KeyStroke(0, 0x04 + (b - 0x61)))
    else if IsUpper(b) then Some(KeyStroke(MOD_LEFT_SHIFT, 0x04 + (b - 0x41)))
    else if 0x31 <= b <= 0x39 then Some(KeyStroke(0, 0x1E + (b - 0x31)))
    else SymbolKey(b)
  }

  function AsciiToKeystrokeWithCapsLock(b: Byte, capsLock: bool): Option<KeyStroke> {
    match AsciiToKeystroke(b)
    case None => None
    case Some(stroke) =>
      if capsLock && (IsLower(b) || IsUpper(b)) then Some(stroke.(modifier := Xor(stroke.modifier, MOD_LEFT_SHIFT)))
      else Some(stroke)
  }

  /** CR LF counts as one line end. */
  function LineEnd(bytes: seq<Byte>, i: nat): nat
    requires i < |bytes|
  {
    if bytes[i] == CR && i + 1 < |bytes| && bytes[i + 1] == LF then 2 else 1
  }

  function StrokesFrom(bytes: seq<Byte>, capsLock: bool, i: nat): (r: Result<seq<KeyStroke>, InputError>)
    requires i <= |bytes|
    ensures r.Ok? ==> |r.value| <= |bytes| - i
    ensures r.Err? ==> r.error.UnsupportedAscii?
    decreases |bytes| - i
  {
    if i == |bytes| then Ok([])
    else
      match AsciiToKeystrokeWithCapsLock(bytes[i], capsLock)
      case None => Err(InputError.UnsupportedAscii(bytes[i]))
      case Some(stroke) =>
        match StrokesFrom(bytes, capsLock, i + LineEnd(bytes, i))
        case Err(error) => Err(error)
        case Ok(rest) => Ok([stroke] + rest)
  }

  function AsciiStrokes(bytes: seq<Byte>, capsLock: bool): Result<seq<KeyStroke>, InputError> {
    if |bytes| > MAX_PAYLOAD_SIZE then Err(TooManyStrokes) else StrokesFrom(bytes, capsLock, 0)
  }

  /** The scanning loop: every byte is validated before a single stroke is handed out. */
  method ComputeAsciiStrokes(bytes: seq<Byte>, capsLock: bool) returns (r: Result<seq<KeyStroke>, InputError>)
    ensures r == AsciiStrokes(bytes, capsLock)
  {
    if |bytes| > MAX_PAYLOAD_SIZE {
      return Err(TooManyStrokes);
    }
    var validated: seq<KeyStroke> := [];
    var index := 0;
    if StrokesFrom(bytes, capsLock, 0).Ok? {
      assert validated + StrokesFrom(bytes, capsLock, 0).value == StrokesFrom(bytes, capsLock, 0).value;
    }
    while index < |bytes|
      invariant index <= |bytes|
      invariant AsciiStrokes(bytes, capsLock) ==
                match StrokesFrom(bytes, capsLock, index)
                case Err(error) => Err(error)
                case Ok(rest) => Ok(validated + rest)
    {
      var stroke := AsciiToKeystrokeWithCapsLock(bytes[index], capsLock);
      if stroke == None {
        return Err(InputError.UnsupportedAscii(bytes[index]));
      }
      ghost var before := validated;
      validated := validated + [stroke.value];
      index := index + LineEnd(bytes, index);
      if StrokesFrom(bytes, capsLock, index).Ok? {
        var rest := StrokesFrom(bytes, capsLock, index).value;
        assert before + ([stroke.value] + rest) == validated + rest;
      }
    }
    assert validated + [] == validated;
    r := Ok(validated);
  }

  /** Whether a text can be typed does not depend on Caps Lock, nor does its stroke count. */
  lemma {:induction false} CapsLockNeverMatters(bytes: seq<Byte>, capsLock: bool, other: bool, i: nat)
    requires i <= |bytes|
    ensures StrokesFrom(bytes, capsLock, i).Ok? <==> StrokesFrom(bytes, other, i).Ok?
    ensures StrokesFrom(bytes, capsLock, i).Err? ==> StrokesFrom(bytes, capsLock, i) == StrokesFrom(bytes, other, i)
    ensures StrokesFrom(bytes, capsLock, i).Ok? ==>
              |StrokesFrom(bytes, capsLock, i).value| == |StrokesFrom(bytes, other, i).value|
    decreases |bytes| - i
  {
    if i < |bytes| {
      CapsLockNeverMatters(bytes, capsLock, other, i + LineEnd(bytes, i));
    }
  }

  // ---- The reading host ----

  function Pick(shifted: bool, plain: Byte, upper: Byte): Option<Byte> {
    Some(if shifted then upper else plain)
  }

  /** The character a US layout produces when a key goes down. */
  function HostCharacter(shifted: bool, keycode: Byte, capsLock: bool): Option<Byte> {
    if 0x04 <= keycode <= 0x1D then Pick(shifted != capsLock, 0x61 + (keycode - 0x04), 0x41 + (keycode - 0x04))
    else if keycode == 0x1E then Pick(shifted, 0x31, 0x21)
    else if keycode == 0x1F then Pick(shifted, 0x32, 0x40)
    else if keycode == 0x20 then Pick(shifted, 0x33, 0x23)
    else if keycode == 0x21 then Pick(shifted, 0x34, 0x24)
    else if keycode == 0x22 then Pick(shifted, 0x35, 0x25)
    else if keycode == 0x23 then Pick(shifted, 0x36, 0x5E)
    else if keycode == 0x24 then Pick(shifted, 0x37, 0x26)
    else if keycode == 0x25 then Pick(shifted, 0x38, 0x2A)
    else if keycode == 0x26 then Pick(shifted, 0x39, 0x28)
    else if keycode == 0x27 then Pick(shifted, 0x30, 0x29)
    else if keycode == 0x28 then Some(LF)
    else if keycode == 0x2A then Some(0x08)
    else if keycode == 0x2B then Some(0x09)
    else if keycode == 0x2C then Some(0x20)
    else if keycode == 0x2D then Pick(shifted, 0x2D, 0x5F)
    else if keycode == 0x2E then Pick(shifted, 0x3D, 0x2B)
    else if keycode == 0x2F then Pick(shifted, 0x5B, 0x7B)
    else if keycode == 0x30 then Pick(shifted, 0x5D, 0x7D)
    else if keycode == 0x31 then Pick(shifted, 0x5C, 0x7C)
    else if keycode == 0x33 then Pick(shifted, 0x3B, 0x3A)
    else if keycode == 0x34 then Pick(shifted, 0x27, 0x22)
    else if keycode == 0x35 then Pick(shifted, 0x60, 0x7E)
    else if keycode == 0x36 then Pick(shifted, 0x2C, 0x3C)
    else if keycode == 0x37 then Pick(shifted, 0x2E, 0x3E)
    else if keycode == 0x38 then Pick(shifted, 0x2F, 0x3F)
    else None
  }

  /** With any modifier but the shift key a key is a shortcut, not a character. */
  function HostReads(modifiers: Byte, keycode: Byte, capsLock: bool): Option<Byte> {
    if modifiers == 0 || modifiers == 2 then HostCharacter(modifiers == 2, keycode, capsLock) else None
  }

  lemma ShiftBit()
    ensures Xor(0, MOD_LEFT_SHIFT) == MOD_LEFT_SHIFT && Xor(MOD_LEFT_SHIFT, MOD_LEFT_SHIFT) == 0
  {
  }

  lemma SymbolsReadBack(b: Byte)
    requires SymbolKey(b).Some?
    ensures var s := SymbolKey(b).value;
            && s.keycode != 0 && (s.modifier == 0 || s.modifier == MOD_LEFT_SHIFT)
            && HostCharacter(s.modifier == MOD_LEFT_SHIFT, s.keycode, true) == Some(if b == CR then LF else b)
            && HostCharacter(s.modifier == MOD_LEFT_SHIFT, s.keycode, false) == Some(if b == CR then LF else b)
  {
  }

  /** One supported byte, typed under either Caps Lock state, reads back as itself (CR as LF). */
  lemma KeystrokeReadsBack(b: Byte, capsLock: bool)
    requires AsciiToKeystrokeWithCapsLock(b, capsLock).Some?
    ensures var s := AsciiToKeystrokeWithCapsLock(b, capsLock).value;
            && s.keycode != 0
            && HostReads(s.modifier, s.keycode, capsLock) == Some(if b == CR then LF else b)
  {
    ShiftBit();
    hide Xor, SymbolKey;
    if !IsLower(b) && !IsUpper(b) && !(0x31 <= b <= 0x39) {
      SymbolsReadBack(b);
    }
  }

  // ---- What can be typed ----

  /** Printable ASCII, backspace, tab and the two line ends. */
  predicate Typeable(b: Byte) {
    0x20 <= b <= 0x7E || b == 8 || b == 9 || b == 10 || b == 13
  }

  lemma TypeableKeys(b: Byte)
    ensures AsciiToKeystroke(b).Some? <==> Typeable(b)
  {
  }

  /** A text can be typed exactly if all of it is typeable; otherwise its first byte that is not is reported. */
  lemma {:induction false} TypeableExactly(bytes: seq<Byte>, capsLock: bool, i: nat)
    requires i <= |bytes|
    ensures StrokesFrom(bytes, capsLock, i).Ok? <==> forall k :: i <= k < |bytes| ==> Typeable(bytes[k])
    ensures forall k :: i <= k < |bytes| && !Typeable(bytes[k]) && (forall j :: i <= j < k ==> Typeable(bytes[j])) ==>
              StrokesFrom(bytes, capsLock, i) == Err(InputError.UnsupportedAscii(bytes[k]))
    decreases |bytes| - i
  {
    if i < |bytes| {
      TypeableKeys(bytes[i]);
      var next := i + LineEnd(bytes, i);
      TypeableExactly(bytes, capsLock, next);
      hide AsciiToKeystroke;
      assert next == i + 2 ==> Typeable(bytes[i + 1]);
    }
  }

  lemma TextExactly(bytes: seq<Byte>, capsLock: bool)
    requires |bytes| <= 240
    ensures AsciiStrokes(bytes, capsLock).Ok? <==> forall b <- bytes :: Typeable(b)
    ensures forall k :: 0 <= k < |bytes| && !Typeable(bytes[k]) && (forall j :: 0 <= j < k ==> Typeable(bytes[j])) ==>
              AsciiStrokes(bytes, capsLock) == Err(InputError.UnsupportedAscii(bytes[k]))
  {
    TypeableExactly(bytes, capsLock, 0);
    hide Typeable, StrokesFrom;
    assert forall b :: b in bytes ==> exists k :: 0 <= k < |bytes| && bytes[k] == b;
  }
}
