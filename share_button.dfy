/**
 * The share button of a browser window, as far as the add-on touches it: its
 * `disabled` attribute, its class list and the session's `animationend`
 * listener.  The add-on plays its animation by adding a marker class on copy
 * and removes that class when the animation ends or the add-on shuts down.
 */
module ShareButton {
  import opened Wrappers
  import opened Controllers

  /** The class whose presence plays the share button's animation. */
  const MarkerClass: string := "social-share-button-on"

  /**
   * The share button element: whether it carries a `disabled` attribute, its
   * class list, and whether the session's animationend listener is attached.
   */
  datatype Button = Button(disabled: bool, classes: set<string>, listenerAttached: bool)

  /** Whether doCommand(cmd) plays the animation: only for the copy command, on a button that exists and is not disabled. */
  predicate Activates(button: Option<Button>, cmd: string)
  {
    cmd == CopyCommand && button.Some? && !button.value.disabled
  }

  /** What a copy does to an enabled button: the animationend listener is attached and the marker class added. */
  function Activate(b: Button): (r: Button)
    ensures MarkerClass in r.classes && r.listenerAttached && r.disabled == b.disabled
    ensures forall k :: k != MarkerClass ==> (k in r.classes <==> k in b.classes)
  {
    b.(classes := b.classes + {MarkerClass}, listenerAttached := true)
  }

  /** animationEndListener: the marker class is removed so that the next copy replays the animation; the listener stays attached. */
  function EndAnimation(b: Button): (r: Button)
    ensures MarkerClass !in r.classes && r.listenerAttached == b.listenerAttached && r.disabled == b.disabled
    ensures forall k :: k != MarkerClass ==> (k in r.classes <==> k in b.classes)
  {
    b.(classes := b.classes - {MarkerClass})
  }

  /** The cleanup of a session's shutdown: marker class removed, listener detached. */
  function Restore(b: Button): (r: Button)
    ensures MarkerClass !in r.classes && !r.listenerAttached && r.disabled == b.disabled
    ensures forall k :: k != MarkerClass ==> (k in r.classes <==> k in b.classes)
  {
    b.(classes := b.classes - {MarkerClass}, listenerAttached := false)
  }

  /** Shutdown touches the share button only when the window has one. */
  function RestoreIfPresent(button: Option<Button>): (r: Option<Button>)
    ensures r.Some? <==> button.Some?
    ensures button.Some? ==> r.value == Restore(button.value)
  {
    match button
    case None => None
    case Some(b) => Some(Restore(b))
  }

  /** What can happen to a share button while a session is installed. */
  datatype ButtonEvent = Copied | AnimationEnded

  /**
   * One event: a copy activates the button unless it is disabled; an animation
   * end runs animationEndListener only when a copy has attached it.
   */
  function Step(b: Button, e: ButtonEvent): Button
  {
    match e
    case Copied => if b.disabled then b else Activate(b)
    case AnimationEnded => if b.listenerAttached then EndAnimation(b) else b
  }

  /** A button the add-on can leave behind: the marker class is only ever present together with the listener that removes it. */
  predicate MarkerListened(b: Button)
  {
    MarkerClass in b.classes ==> b.listenerAttached
  }

  /** The button after a sequence of events, oldest first. */
  function Replay(b: Button, events: seq<ButtonEvent>): Button
  {
    if events == [] then b else Step(Replay(b, events[..|events| - 1]), events[|events| - 1])
  }

  /** No event changes whether the button is disabled, and every event keeps the marker class paired with its listener. */
  lemma {:induction false} ReplayInvariant(b: Button, events: seq<ButtonEvent>)
    requires MarkerListened(b)
    ensures Replay(b, events).disabled == b.disabled
    ensures MarkerListened(Replay(b, events))
  {
    if events != [] {
      ReplayInvariant(b, events[..|events| - 1]);
    }
  }

  /**
   * On an enabled button the marker class is present exactly when the latest
   * event was a copy, i.e. when no animation end has come since the most
   * recent copy.
   */
  lemma MarkerIffLastCopied(b: Button, events: seq<ButtonEvent>)
    requires !b.disabled && MarkerListened(b) && events != []
    ensures MarkerClass in Replay(b, events).classes <==> events[|events| - 1] == Copied
  {
    ReplayInvariant(b, events[..|events| - 1]);
  }

  /** Shutdown erases every trace of the copies and animation ends that came before it. */
  lemma {:induction false} RestoreAfterReplay(b: Button, events: seq<ButtonEvent>)
    ensures Restore(Replay(b, events)) == Restore(b)
  {
    if events != [] {
      RestoreAfterReplay(b, events[..|events| - 1]);
    }
  }
}
