/**
 * The hotkey chord tracker of whisper.py: the callbacks the keyboard
 * listener calls on every key-down and key-up, and the set of held
 * modifiers they maintain (the module-level `current_keys`).
 */
module Hotkeys {

  import opened Wrappers

  /**
   * A key as the keyboard hook reports it. Left Ctrl, left Alt and Esc are
   * the special keys the callbacks compare against; every other special key
   * (right Ctrl, Shift, F1, ...) is `OtherSpecial`, and so is the `None` the
   * hook passes for a key it cannot identify. Special keys have no
   * character. An ordinary key carries the character it produced, which the
   * hook may leave unset.
   */
  datatype Key = CtrlL | AltL | Esc | OtherSpecial | KeyCode(ch: Option<char>)

  /** A key that has no `char` attribute; reading it raises AttributeError. */
  predicate IsSpecial(k: Key) {
    !k.KeyCode?
  }

  /** The only keys the tracker ever records as held. */
  const Tracked: set<Key> := {CtrlL, AltL}

  /** The key that completes the Ctrl + Alt + R chord. */
  const TriggerKey: Key := KeyCode(Some('r'))

  /** Both modifiers of the chord are held. */
  predicate ChordHeld(pressed: set<Key>) {
    CtrlL in pressed && AltL in pressed
  }

  /** The held set after a key-down, and whether a transcription was requested. */
  datatype PressResult = PressResult(pressed: set<Key>, fired: bool)

  /** The held set after a key-up, and whether the listener keeps running. */
  datatype ReleaseResult = ReleaseResult(pressed: set<Key>, listening: bool)

  /**
   * `on_press`: the if/elif chain on the key. A special key that is neither
   * modifier raises AttributeError at `key.char`, which is swallowed, so it
   * does nothing; an ordinary key is compared with 'r' and only then are the
   * modifiers looked up.
   */
  function PressStep(pressed: set<Key>, k: Key): (r: PressResult)
    ensures r.fired <==> k == TriggerKey && ChordHeld(pressed)
    ensures k in Tracked ==> r.pressed == pressed + {k}
    ensures k !in Tracked ==> r.pressed == pressed
  {
    if k == CtrlL then PressResult(pressed + {CtrlL}, false)
    else if k == AltL then PressResult(pressed + {AltL}, false)
    else if IsSpecial(k) then PressResult(pressed, false)  // AttributeError swallowed
    else if k.ch == Some('r') && CtrlL in pressed && AltL in pressed then PressResult(pressed, true)
    else PressResult(pressed, false)
  }

  /**
   * `on_release`: the key leaves the held set if it is there; returning
   * False (here `listening == false`) tells the listener to stop, which
   * happens for Esc only.
   */
  function ReleaseStep(pressed: set<Key>, k: Key): (r: ReleaseResult)
    ensures k !in r.pressed
    ensures r.pressed + {k} == pressed + {k}
    ensures k !in pressed ==> r.pressed == pressed
    ensures !r.listening <==> k == Esc
  {
    var after := if k in pressed then pressed - {k} else pressed;
    ReleaseResult(after, k != Esc)
  }

  /** A press of a modifier that is already held changes nothing more. */
  lemma ModifierPressIdempotent(pressed: set<Key>, k: Key)
    requires k in Tracked
    ensures PressStep(PressStep(pressed, k).pressed, k) == PressStep(pressed, k)
    ensures !PressStep(pressed, k).fired
  {
  }

  /**
   * The module-level tracker state. `pressed` is `current_keys`; `Valid`
   * is the invariant that it only ever holds the two tracked modifiers.
   */
  class ChordTracker {
    var pressed: set<Key>

    ghost predicate Valid()
      reads this
    {
      pressed <= Tracked
    }

    /** `current_keys = set()` */
    constructor ()
      ensures Valid() && pressed == {}
    {
      pressed := {};
    }

    /** The key-down callback; `fired` means a transcription thread is started. */
    method OnPress(k: Key) returns (fired: bool)
      requires Valid()
      modifies this
      ensures Valid()
      ensures fired <==> k == TriggerKey && ChordHeld(old(pressed))
      ensures pressed == (if k in Tracked then old(pressed) + {k} else old(pressed))
      ensures PressResult(pressed, fired) == PressStep(old(pressed), k)
    {
      if k == CtrlL {
        pressed := pressed + {CtrlL};
        fired := false;
      } else if k == AltL {
        pressed := pressed + {AltL};
        fired := false;
      } else if IsSpecial(k) {
        fired := false;  // AttributeError on `key.char`, swallowed
      } else {
        fired := k.ch == Some('r') && CtrlL in pressed && AltL in pressed;
      }
    }

    /** The key-up callback; `listening == false` stops the listener. */
    method OnRelease(k: Key) returns (listening: bool)
      requires Valid()
      modifies this
      ensures Valid()
      ensures pressed == old(pressed) - {k}
      ensures !listening <==> k == Esc
      ensures ReleaseResult(pressed, listening) == ReleaseStep(old(pressed), k)
    {
      if k in pressed {
        pressed := pressed - {k};
      }
      listening := k != Esc;
    }
  }
}
