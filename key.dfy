/** Which keys are held down (src/key.rs). */
module Keys {

  /** glutin's `ElementState`. */
  datatype ElementState = Pressed | Released

  /** `KeyboardState`, over any type of key code. */
  class KeyboardState<Key(==)> {
    var state: map<Key, ElementState>

    /** Only pressed keys are stored: a release removes its key. */
    ghost predicate Valid()
      reads this
    {
      forall k :: k in state ==> state[k] == Pressed
    }

    /** `KeyboardState::new`: every key released. */
    constructor ()
      ensures Valid() && state == map[]
      ensures forall k :: !IsPressed(k)
    {
      state := map[];
    }

    /** `is_pressed`: a key that is not stored is not pressed. */
    function IsPressed(key: Key): (r: bool)
      reads this
      ensures key !in state ==> !r
      ensures Valid() ==> (r <==> key in state)
    {
      key in state && state[key] == Pressed
    }

    /**
     * `process_event`: a press stores the key, a release removes it; no other
     * key is affected. Pressing a pressed key or releasing a released one
     * changes nothing.
     */
    method ProcessEvent(keyState: ElementState, code: Key)
      modifies this
      ensures state == (match keyState
        case Pressed => old(state)[code := Pressed]
        case Released => old(state) - {code})
      ensures IsPressed(code) <==> keyState == Pressed
      ensures keyState == Released ==> code !in state
      ensures forall k :: k != code ==>
        (k in state <==> k in old(state)) && (k in state ==> state[k] == old(state)[k])
      ensures old(Valid()) ==> Valid()
      ensures old(Valid()) && (keyState == Pressed <==> old(IsPressed(code))) ==> state == old(state)
    {
      match keyState
      case Pressed =>
        state := state[code := keyState];
      case Released =>
        state := state - {code};
    }
  }
}
