/**
 * How the keyboard listener drives the two callbacks of whisper.py: it
 * hands them the key events in order, starting from an empty held set, and
 * stops delivering events as soon as `on_release` returns False.
 */
module Listener {

  import opened Hotkeys

  datatype Event = Press(key: Key) | Release(key: Key)

  /**
   * What a run of the listener has produced so far: the held set, the
   * positions (into the event sequence) of the key-downs that requested a
   * transcription, and whether the listener has stopped.
   */
  datatype Session = Session(pressed: set<Key>, fires: seq<nat>, stopped: bool)

  /** The session after `events`, delivered one by one from `start`. */
  function Listen(start: set<Key>, events: seq<Event>): (s: Session)
    decreases |events|
    ensures forall j :: 0 <= j < |s.fires| ==> s.fires[j] < |events|
    ensures forall j, k :: 0 <= j < k < |s.fires| ==> s.fires[j] < s.fires[k]
    ensures |s.fires| <= |events|
  {
    if |events| == 0 then Session(start, [], false)
    else
      var prev := Listen(start, events[..|events| - 1]);
      var i := |events| - 1;
      if prev.stopped then prev
      else match events[i]
        case Press(k) =>
          var r := PressStep(prev.pressed, k);
          Session(r.pressed, if r.fired then prev.fires + [i] else prev.fires, false)
        case Release(k) =>
          var r := ReleaseStep(prev.pressed, k);
          Session(r.pressed, prev.fires, !r.listening)
  }

  /** `current_keys` holds only the two modifiers after any run of events. */
  lemma {:induction false} ListenKeepsTracked(start: set<Key>, events: seq<Event>)
    requires start <= Tracked
    ensures Listen(start, events).pressed <= Tracked
    decreases |events|
  {
    if |events| > 0 {
      ListenKeepsTracked(start, events[..|events| - 1]);
    }
  }

  /** The listener stops exactly when some event delivered was a release of Esc. */
  lemma {:induction false} ListenStopsAtEsc(start: set<Key>, events: seq<Event>)
    ensures Listen(start, events).stopped <==> Release(Esc) in events
    decreases |events|
  {
    if |events| > 0 {
      var init := events[..|events| - 1];
      ListenStopsAtEsc(start, init);
      assert events == init + [events[|events| - 1]];
    }
  }

  /** Once the listener has stopped, later events change nothing. */
  lemma {:induction false} ListenIgnoresAfterStop(start: set<Key>, events: seq<Event>, later: seq<Event>)
    requires Listen(start, events).stopped
    ensures Listen(start, events + later) == Listen(start, events)
    decreases |later|
  {
    if |later| > 0 {
      var init := later[..|later| - 1];
      ListenIgnoresAfterStop(start, events, init);
      assert (events + later)[..|events + later| - 1] == events + init;
    } else {
      assert events + later == events;
    }
  }

  /**
   * The key-down at position i requests a transcription exactly when it is
   * a press of 'r', the listener had not stopped before it, and both
   * modifiers were held just before it.
   */
  lemma {:induction false} ListenFiresAt(start: set<Key>, events: seq<Event>, i: nat)
    ensures i in Listen(start, events).fires <==>
      (i < |events| && events[i] == Press(TriggerKey) &&
       !Listen(start, events[..i]).stopped && ChordHeld(Listen(start, events[..i]).pressed))
    decreases |events|
  {
    if |events| > 0 {
      var n := |events| - 1;
      var init := events[..n];
      ListenFiresAt(start, init, i);
      if i < n {
        assert init[..i] == events[..i];
      } else if i == n {
        assert events[..i] == init;
      }
    }
  }

  /**
   * There is no edge detection: with both modifiers held, every press of
   * 'r' requests another transcription.
   */
  lemma {:induction false} HeldChordFiresEveryTime(start: set<Key>, n: nat)
    requires ChordHeld(start)
    ensures Listen(start, seq(n, _ => Press(TriggerKey))) == Session(start, seq(n, j => j), false)
    decreases n
  {
    if n > 0 {
      HeldChordFiresEveryTime(start, n - 1);
      assert seq(n, _ => Press(TriggerKey))[..n - 1] == seq(n - 1, _ => Press(TriggerKey));
      assert seq(n - 1, j => j) + [n - 1] == seq(n, j => j);
    }
  }

  /**
   * Without left Ctrl held at the start and without a later press of it,
   * no transcription is ever requested (a release of Ctrl disarms the chord).
   */
  lemma {:induction false} NoCtrlNoFire(start: set<Key>, events: seq<Event>)
    requires CtrlL !in start
    requires Press(CtrlL) !in events
    ensures CtrlL !in Listen(start, events).pressed
    ensures Listen(start, events).fires == []
    decreases |events|
  {
    if |events| > 0 {
      var init := events[..|events| - 1];
      assert events == init + [events[|events| - 1]];
      NoCtrlNoFire(start, init);
    }
  }
}
