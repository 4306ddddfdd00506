/** The camera-interaction state machine of the game scene.

    The scene keeps a single flag, "the camera is being rotated". A press of
    the primary mouse button sets it, a release of that button clears it, and
    every other event leaves it alone. While the flag is set, each mouse move
    triggers one recomputation pass over all actor labels.

    This module states that machine on plain values. The scene's handlers are
    specified by `Next`, and the lemmas below describe what any sequence of
    events does to the flag and how many passes it triggers. */
module Interaction {

  /** The button number the windowing layer reports for the primary (left) button. */
  const PrimaryButton: int := 1

  /** A mouse event as delivered to the scene's handlers. */
  datatype Event = Press(button: int) | Release(button: int) | Move

  datatype Option<T> = None | Some(value: T)

  /** The flag after the press handler: only the primary button starts a rotation. */
  function AfterPress(rotating: bool, button: int): (r: bool)
    ensures r <==> rotating || button == PrimaryButton
  {
    if button == PrimaryButton && !rotating then true else rotating
  }

  /** The flag after the release handler: only the primary button ends a rotation. */
  function AfterRelease(rotating: bool, button: int): (r: bool)
    ensures r <==> rotating && button != PrimaryButton
  {
    if button == PrimaryButton && rotating then false else rotating
  }

  /** The flag after one event of any kind. */
  function Next(rotating: bool, e: Event): (r: bool)
    ensures r == if e == Press(PrimaryButton) then true
                 else if e == Release(PrimaryButton) then false
                 else rotating
  {
    match e
    case Press(b) => AfterPress(rotating, b)
    case Release(b) => AfterRelease(rotating, b)
    case Move => rotating
  }

  /** The move handler recomputes the labels exactly when the flag is set. */
  predicate Recomputes(rotating: bool, e: Event)
  {
    e.Move? && rotating
  }

  /** The flag after a whole sequence of events, processed in delivery order. */
  function Final(rotating: bool, events: seq<Event>): bool
    decreases |events|
  {
    if events == [] then rotating else Final(Next(rotating, events[0]), events[1..])
  }

  /** The number of move events in a sequence. */
  function Moves(events: seq<Event>): nat
    decreases |events|
  {
    if events == [] then 0 else (if events[0].Move? then 1 else 0) + Moves(events[1..])
  }

  /** The number of recomputation passes a sequence of events triggers. */
  function Passes(rotating: bool, events: seq<Event>): (n: nat)
    ensures n <= Moves(events)
    decreases |events|
  {
    if events == [] then 0
    else (if Recomputes(rotating, events[0]) then 1 else 0) + Passes(Next(rotating, events[0]), events[1..])
  }

  /** The last primary-button event of a sequence: Some(true) for a press,
      Some(false) for a release, None when there is none. */
  function LastPrimary(events: seq<Event>): Option<bool>
    decreases |events|
  {
    if events == [] then None
    else
      var e := events[|events| - 1];
      if e == Press(PrimaryButton) then Some(true)
      else if e == Release(PrimaryButton) then Some(false)
      else LastPrimary(events[..|events| - 1])
  }

  /** Processing one more event after a sequence is one more step of `Next`. */
  lemma {:induction false} FinalSnoc(rotating: bool, events: seq<Event>, e: Event)
    ensures Final(rotating, events + [e]) == Next(Final(rotating, events), e)
    decreases |events|
  {
    if events == [] {
      assert events + [e] == [e];
    } else {
      assert (events + [e])[1..] == events[1..] + [e];
      FinalSnoc(Next(rotating, events[0]), events[1..], e);
    }
  }

  /** The flag after a sequence is decided by its last primary-button event
      alone; without one, the flag keeps its initial value (so a stray
      release while idle, or any other button, changes nothing). */
  lemma {:induction false} FinalIsLastPrimary(rotating: bool, events: seq<Event>)
    ensures Final(rotating, events) == match LastPrimary(events)
                                       case None => rotating
                                       case Some(pressed) => pressed
    decreases |events|
  {
    if events != [] {
      var init, e := events[..|events| - 1], events[|events| - 1];
      assert events == init + [e];
      FinalIsLastPrimary(rotating, init);
      FinalSnoc(rotating, init, e);
    }
  }

  /** Passes over a concatenation: the second part starts from the flag the
      first part leaves behind. */
  lemma {:induction false} PassesAppend(rotating: bool, a: seq<Event>, b: seq<Event>)
    ensures Passes(rotating, a + b) == Passes(rotating, a) + Passes(Final(rotating, a), b)
    decreases |a|
  {
    if a == [] {
      assert a + b == b;
    } else {
      assert (a + b)[0] == a[0];
      assert (a + b)[1..] == a[1..] + b;
      PassesAppend(Next(rotating, a[0]), a[1..], b);
    }
  }

  /** Starting idle, no event sequence without a primary press ever starts a
      rotation or triggers a recomputation. */
  lemma {:induction false} IdleWithoutPrimaryPress(events: seq<Event>)
    requires Press(PrimaryButton) !in events
    ensures !Final(false, events)
    ensures Passes(false, events) == 0
    decreases |events|
  {
    if events != [] {
      assert events[0] in events;
      assert forall e :: e in events[1..] ==> e in events;
      IdleWithoutPrimaryPress(events[1..]);
    }
  }

  /** While rotating, as long as the primary button is not released, the
      rotation goes on and every move triggers exactly one pass. */
  lemma {:induction false} DragRecomputesEveryMove(events: seq<Event>)
    requires Release(PrimaryButton) !in events
    ensures Final(true, events)
    ensures Passes(true, events) == Moves(events)
    decreases |events|
  {
    if events != [] {
      assert events[0] in events;
      assert forall e :: e in events[1..] ==> e in events;
      DragRecomputesEveryMove(events[1..]);
    }
  }

  /** Press, move, release, move: exactly one pass (after the first move),
      and the scene ends idle. */
  lemma {:induction false} PressMoveReleaseMovePasses()
    ensures Passes(false, [Press(PrimaryButton), Move, Release(PrimaryButton), Move]) == 1
    ensures !Final(false, [Press(PrimaryButton), Move, Release(PrimaryButton), Move])
  {
    var drag := [Press(PrimaryButton), Move];
    var after := [Release(PrimaryButton), Move];
    assert drag + after == [Press(PrimaryButton), Move, Release(PrimaryButton), Move];
    PassesAppend(false, drag, after);
    FinalIsLastPrimary(false, drag + after);
  }
}
