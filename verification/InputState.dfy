/**
 Held input (src/input_state.rs): eight modifier bits, six key slots, mouse
 buttons, and the pulses a tap or click is made of. These are copied values in the
 firmware, so they are values here.
 */
module InputState {
  import opened Types
  import opened Commands

  const MAX_HELD_KEYS := 6

  datatype InputError = TooManyKeys | TooManyStrokes | UnsupportedAscii(byte: Byte)

  function InputErrorCode(error: InputError): ErrorCode {
    match error
    case TooManyKeys => ErrorCode.TooManyKeys
    case UnsupportedAscii(_) => ErrorCode.UnsupportedAscii
    case TooManyStrokes => FrameTooLong
  }

  /** Distinct nonzero keycodes in front, zero padding behind. */
  ghost predicate CanonicalSlots(slots: seq<Byte>, len: nat) {
    && |slots| == MAX_HELD_KEYS && len <= MAX_HELD_KEYS
    && (forall i :: 0 <= i < len ==> slots[i] != 0)
    && (forall i, j :: 0 <= i < j < len ==> slots[i] != slots[j])
    && (forall i :: len <= i < MAX_HELD_KEYS ==> slots[i] == 0)
  }

  /** copy_within(p + 1..len, p), then the vacated last slot is zeroed. */
  function RemoveAt(slots: seq<Byte>, len: nat, p: nat): seq<Byte>
    requires p < len <= |slots|
  {
    (slots[..p] + slots[p + 1..len] + slots[len - 1..])[len - 1 := 0]
  }

  /** The six slots and how many of them are in use, exactly as stored. */
  datatype KeyboardState = KeyboardState(modifiers: Byte, slots: seq<Byte>, len: nat) {

    ghost predicate Canonical() {
      CanonicalSlots(slots, len)
    }

    function Keys(): seq<Byte>
      requires len <= |slots|
    {
      slots[..len]
    }

    predicate IsIdle() {
      modifiers == 0 && len == 0
    }

    function KeyPosition(keycode: Byte): (p: Option<nat>)
      requires len <= |slots|
      ensures p.Some? ==> keycode != 0 && p.value < len && slots[p.value] == keycode
      ensures p.None? <==> keycode == 0 || keycode !in Keys()
    {
      if keycode == 0 then None else FirstIndex(Keys(), keycode, 0)
    }

    function KeyDown(stroke: KeyStroke): (r: Result<KeyboardState, InputError>)
      requires Canonical()
      ensures r.Ok? ==> r.value.Canonical()
    {
      var absent := stroke.keycode != 0 && KeyPosition(stroke.keycode).None?;
      if absent && len == MAX_HELD_KEYS then Err(InputError.TooManyKeys)
      else if absent then
        AppendedKey(slots, len, stroke.keycode);
        Ok(KeyboardState(Or(modifiers, stroke.modifier), slots[len := stroke.keycode], len + 1))
      else Ok(KeyboardState(Or(modifiers, stroke.modifier), slots, len))
    }

    function KeyUp(stroke: KeyStroke): (r: KeyboardState)
      requires Canonical()
      ensures r.Canonical()
    {
      match KeyPosition(stroke.keycode)
      case None => KeyboardState(AndNot(modifiers, stroke.modifier), slots, len)
      case Some(p) =>
        RemovedKeys(slots, len, p);
        KeyboardState(AndNot(modifiers, stroke.modifier), RemoveAt(slots, len, p), len - 1)
    }

    function TapPlan(stroke: KeyStroke): Result<KeyboardPulse, InputError>
      requires Canonical()
    {
      var held := if stroke.keycode == 0 then And(modifiers, stroke.modifier) != 0
                  else KeyPosition(stroke.keycode).Some?;
      if held then
        var released := KeyUp(KeyStroke(if stroke.keycode == 0 then stroke.modifier else 0, stroke.keycode));
        match released.KeyDown(stroke)
        case Err(error) => Err(error)
        case Ok(pressed) => Ok(ReleasePressRestore(released, pressed, this))
      else
        match KeyDown(stroke)
        case Err(error) => Err(error)
        case Ok(pressed) => Ok(PressRestore(pressed, this))
    }
  }

  type Keyboard = k: KeyboardState | k.Canonical() witness KeyboardState(0, [0, 0, 0, 0, 0, 0], 0)

  const IDLE_KEYBOARD: Keyboard := KeyboardState(0, [0, 0, 0, 0, 0, 0], 0)

  function FirstIndex(keys: seq<Byte>, keycode: Byte, from: nat): (p: Option<nat>)
    requires from <= |keys|
    ensures p.Some? ==> from <= p.value < |keys| && keys[p.value] == keycode
    ensures p.None? <==> keycode !in keys[from..]
    decreases |keys| - from
  {
    if from == |keys| then None
    else if keys[from] == keycode then Some(from)
    else
      assert keys[from..] == [keys[from]] + keys[from + 1..];
      FirstIndex(keys, keycode, from + 1)
  }

  lemma RemoveAtIndex(slots: seq<Byte>, len: nat, p: nat)
    requires p < len <= |slots|
    ensures var r := RemoveAt(slots, len, p);
            && |r| == |slots|
            && (forall i :: 0 <= i < p ==> r[i] == slots[i])
            && (forall i :: p <= i < len - 1 ==> r[i] == slots[i + 1])
            && r[len - 1] == 0
            && (forall i :: len <= i < |slots| ==> r[i] == slots[i])
  {
  }

  lemma RemovedKeys(slots: seq<Byte>, len: nat, p: nat)
    requires CanonicalSlots(slots, len) && p < len
    ensures CanonicalSlots(RemoveAt(slots, len, p), len - 1)
    ensures forall k :: k in RemoveAt(slots, len, p)[..len - 1] <==> k in slots[..len] && k != slots[p]
  {
    RemoveAtIndex(slots, len, p);
    hide RemoveAt;
    var r := RemoveAt(slots, len, p);
    forall k | k in slots[..len] && k != slots[p]
      ensures k in r[..len - 1]
    {
      var i :| 0 <= i < len && slots[i] == k;
      assert r[..len - 1][if i < p then i else i - 1] == k;
    }
  }

  lemma AppendedKey(slots: seq<Byte>, len: nat, keycode: Byte)
    requires CanonicalSlots(slots, len) && len < MAX_HELD_KEYS
    requires keycode != 0 && keycode !in slots[..len]
    ensures CanonicalSlots(slots[len := keycode], len + 1)
    ensures slots[len := keycode][..len + 1] == slots[..len] + [keycode]
  {
    assert forall i :: 0 <= i < len ==> slots[i] in slots[..len];
  }

  lemma NoZeroKey(slots: seq<Byte>, len: nat)
    requires CanonicalSlots(slots, len)
    ensures 0 !in slots[..len]
  {
  }

  /** Pressing adds at most the requested key; a seventh distinct key is refused whole. */
  lemma KeyDownEffect(kb: Keyboard, stroke: KeyStroke)
    ensures kb.KeyDown(stroke).Err? <==> stroke.keycode != 0 && stroke.keycode !in kb.Keys() && kb.len == MAX_HELD_KEYS
    ensures kb.KeyDown(stroke).Err? ==> kb.KeyDown(stroke).error == InputError.TooManyKeys
    ensures kb.KeyDown(stroke).Ok? ==>
              var r := kb.KeyDown(stroke).value;
              && r.Canonical() && r.modifiers == Or(kb.modifiers, stroke.modifier)
              && r.Keys() == if stroke.keycode == 0 || stroke.keycode in kb.Keys() then kb.Keys()
                             else kb.Keys() + [stroke.keycode]
  {
    assert kb.len <= |kb.slots| == MAX_HELD_KEYS;
    hide CanonicalSlots, FirstIndex, Or;
    var absent := stroke.keycode != 0 && kb.KeyPosition(stroke.keycode).None?;
    if absent && kb.len < MAX_HELD_KEYS {
      AppendedKey(kb.slots, kb.len, stroke.keycode);
    }
  }

  /** Releasing removes exactly the requested key and bits. */
  lemma KeyUpEffect(kb: Keyboard, stroke: KeyStroke)
    ensures var r := kb.KeyUp(stroke);
            && r.Canonical() && r.len <= |r.slots| == MAX_HELD_KEYS && r.modifiers == AndNot(kb.modifiers, stroke.modifier)
            && (forall k :: k in r.Keys() <==> k in kb.Keys() && k != stroke.keycode)
            && (if stroke.keycode != 0 && stroke.keycode in kb.Keys() then r.len == kb.len - 1
                else r.Keys() == kb.Keys())
  {
    assert kb.len <= |kb.slots| == MAX_HELD_KEYS;
    NoZeroKey(kb.slots, kb.len);
    hide CanonicalSlots, RemoveAt, FirstIndex, AndNot;
    var p := kb.KeyPosition(stroke.keycode);
    if p.Some? {
      RemovedKeys(kb.slots, kb.len, p.value);
    }
  }

  /** Two canonical states holding the same keys in the same order are the same state. */
  lemma CanonicalIsUnique(a: Keyboard, b: Keyboard)
    requires a.modifiers == b.modifiers && a.Keys() == b.Keys()
    ensures a == b
  {
    assert a.len == |a.Keys()| && b.len == |b.Keys()|;
    forall i | 0 <= i < MAX_HELD_KEYS
      ensures a.slots[i] == b.slots[i]
    {
      if i < a.len {
        assert a.Keys()[i] == b.Keys()[i];
      }
    }
  }

  datatype KeyboardPulse =
    | PressRestore(pressed: Keyboard, restore: Keyboard)
    | ReleasePressRestore(released: Keyboard, pressed: Keyboard, restore: Keyboard)
  {
    /** What the host sees held just before the press report. */
    function Before(): Keyboard {
      if ReleasePressRestore? then released else restore
    }
  }

  /**
   A tap is refused exactly when a seventh key would be needed. Otherwise the press report shows a
   real edge for the requested key (or, for a modifier-only stroke, for every requested bit), nothing
   else is let go on the way, and the plan ends in exactly the state it began in.
   */
  lemma TapIsAPressEdge(kb: Keyboard, stroke: KeyStroke)
    ensures kb.TapPlan(stroke).Err? <==> stroke.keycode != 0 && stroke.keycode !in kb.Keys() && kb.len == MAX_HELD_KEYS
    ensures kb.TapPlan(stroke).Err? ==> kb.TapPlan(stroke).error == InputError.TooManyKeys
    ensures kb.TapPlan(stroke).Ok? ==> PressEdge(kb, stroke, kb.TapPlan(stroke).value)
  {
    ClearThenSet(kb.modifiers, stroke.modifier);
    ClearNothing(kb.modifiers);
    assert kb.len <= |kb.slots| == MAX_HELD_KEYS;
    NoZeroKey(kb.slots, kb.len);
    hide KeyboardState.KeyUp, KeyboardState.KeyDown, CanonicalSlots, FirstIndex, Or, And, AndNot;
    if stroke.keycode != 0 {
      if stroke.keycode in kb.Keys() {
        var up := KeyStroke(0, stroke.keycode);
        KeyUpEffect(kb, up);
        KeyDownEffect(kb.KeyUp(up), stroke);
      } else {
        KeyDownEffect(kb, stroke);
      }
    } else if And(kb.modifiers, stroke.modifier) != 0 {
      KeyUpEffect(kb, stroke);
      KeyDownEffect(kb.KeyUp(stroke), stroke);
    } else {
      KeyDownEffect(kb, stroke);
    }
  }

  ghost predicate PressEdge(kb: Keyboard, stroke: KeyStroke, pulse: KeyboardPulse)
  {
    var before := pulse.Before();
    && pulse.restore == kb
    && pulse.pressed.modifiers == Or(kb.modifiers, stroke.modifier)
    && (forall k :: k in kb.Keys() && k != stroke.keycode ==> k in before.Keys())
    && (forall k :: k in pulse.pressed.Keys() <==> k in before.Keys() || (k == stroke.keycode && k != 0))
    && if stroke.keycode != 0 then
         stroke.keycode !in before.Keys() && before.modifiers == kb.modifiers
       else
         And(before.modifiers, stroke.modifier) == 0 && before.Keys() == kb.Keys()
  }

  // ---- Mouse ----

  datatype MousePulse =
    | PressThenRestore(pressed: Byte, restore: Byte)
    | ReleaseThenPress(released: Byte, pressed: Byte, restore: Byte)
  {
    /** The buttons the host sees just before the press report. */
    function Before(): Byte {
      if ReleaseThenPress? then released else restore
    }
  }

  function ClickPlan(buttons: Byte, button: MouseButton): MousePulse {
    var mask := Mask(button);
    if And(buttons, mask) == 0 then PressThenRestore(Or(buttons, mask), buttons)
    else ReleaseThenPress(AndNot(buttons, mask), buttons, buttons)
  }

  lemma ButtonMasks(button: MouseButton)
    ensures Mask(button) in {1, 2, 4}
  {
  }

  /** Two button sets that agree on everything but the masked bits. */
  predicate SameButOne(a: Byte, b: Byte, mask: Byte) {
    AndNot(a, mask) == AndNot(b, mask)
  }

  /** A click always shows the host this button, and no other, going from up to down, and ends as it began. */
  lemma ClickIsAPressEdge(buttons: Byte, button: MouseButton)
    ensures var plan, mask := ClickPlan(buttons, button), Mask(button);
            && And(plan.Before(), mask) == 0 && And(plan.pressed, mask) == mask && plan.restore == buttons
            && SameButOne(plan.Before(), buttons, mask) && SameButOne(plan.pressed, buttons, mask)
  {
    var mask := Mask(button);
    SetThenTest(buttons, mask);
    ClearThenTest(buttons, mask);
    SingleBit(buttons, mask) by {
      ButtonMasks(button);
    }
    hide And, AndNot, Or;
  }

  datatype Held = Held(keyboard: Keyboard, buttons: Byte) {
    predicate IsIdle() {
      keyboard.IsIdle() && buttons == 0
    }
  }

  const IDLE := Held(IDLE_KEYBOARD, 0)

  lemma IdleIsUnique(held: Held)
    ensures held.IsIdle() <==> held == IDLE
  {
    if held.IsIdle() {
      assert held.keyboard.Keys() == IDLE_KEYBOARD.Keys();
      CanonicalIsUnique(held.keyboard, IDLE_KEYBOARD);
    }
  }

  // ---- The same keyboard changed in place ----

  class HeldKeyboard {
    var modifiers: Byte
    const slots: array<Byte>
    var len: nat

    ghost predicate Valid()
      reads this, slots
    {
      CanonicalSlots(slots[..], len)
    }

    ghost function View(): KeyboardState
      reads this, slots
    {
      KeyboardState(modifiers, slots[..], len)
    }

    constructor ()
      ensures Valid() && View() == IDLE_KEYBOARD && fresh(slots)
    {
      modifiers := 0;
      slots := new Byte[MAX_HELD_KEYS](_ => 0);
      len := 0;
      new;
      assert slots[..] == [0, 0, 0, 0, 0, 0];
    }

    method Position(keycode: Byte) returns (p: Option<nat>)
      requires Valid()
      ensures p == View().KeyPosition(keycode)
    {
      if keycode == 0 {
        return None;
      }
      var i := 0;
      while i < len
        invariant i <= len
        invariant View().KeyPosition(keycode) == FirstIndex(slots[..len], keycode, i)
      {
        if slots[i] == keycode {
          return Some(i);
        }
        i := i + 1;
      }
      p := None;
    }

    /** A refused key changes nothing, modifiers included. */
    method KeyDown(stroke: KeyStroke) returns (error: Option<InputError>)
      requires Valid()
      modifies this, slots
      ensures Valid()
      ensures match old(View()).KeyDown(stroke)
              case Err(e) => error == Some(e) && View() == old(View())
              case Ok(next) => error == None && View() == next
    {
      var p := Position(stroke.keycode);
      if stroke.keycode != 0 && p.None? && len == MAX_HELD_KEYS {
        return Some(InputError.TooManyKeys);
      }
      modifiers := Or(modifiers, stroke.modifier);
      if stroke.keycode != 0 && p.None? {
        AppendedKey(slots[..], len, stroke.keycode);
        slots[len] := stroke.keycode;
        len := len + 1;
      }
      error := None;
    }

    /** copy_within one slot down. */
    method CloseGap(p: nat)
      requires Valid() && p < len
      modifies this`len, slots
      ensures len == old(len) - 1 && slots[..] == RemoveAt(old(slots[..]), old(len), p)
    {
      for i := p to len - 1
        invariant len == old(len)
        invariant forall k :: p <= k < i ==> slots[k] == old(slots[k + 1])
        invariant forall k :: 0 <= k < slots.Length && !(p <= k < i) ==> slots[k] == old(slots[k])
      {
        slots[i] := slots[i + 1];
      }
      len := len - 1;
      slots[len] := 0;
      ghost var removed := RemoveAt(old(slots[..]), old(len), p);
      RemoveAtIndex(old(slots[..]), old(len), p);
      hide RemoveAt;
      assert forall k :: 0 <= k < slots.Length ==> slots[..][k] == removed[k];
    }

    method KeyUp(stroke: KeyStroke)
      requires Valid()
      modifies this, slots
      ensures Valid() && View() == old(View()).KeyUp(stroke)
    {
      modifiers := AndNot(modifiers, stroke.modifier);
      var p := Position(stroke.keycode);
      if p.Some? {
        RemovedKeys(slots[..], len, p.value);
        CloseGap(p.value);
      }
    }
  }
}
