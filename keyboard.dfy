/** `createKey` of src/utils.ts (repeated verbatim in src/utils/index.ts): a key record
    whose `downHandler`/`upHandler` closures flip `isDown`/`isUp` when the event's key
    code is the record's own. */
module Keyboard {
  import opened Wrappers

  datatype KeyEvent = KeyDown(keyCode: int) | KeyUp(keyCode: int)

  /** The three fields of an `IKeyboad` record. */
  datatype KeyState = KeyState(code: int, isDown: bool, isUp: bool)

  /** The state `createKey(keyCode)` returns. */
  function Released(keyCode: int): KeyState
  {
    KeyState(keyCode, false, true)
  }

  /** What one handler call does to the record. */
  function Handle(k: KeyState, e: KeyEvent): (r: KeyState)
    ensures r.code == k.code
    ensures e.keyCode != k.code ==> r == k
    ensures e.keyCode == k.code ==> r.isDown == e.KeyDown? && r.isUp == e.KeyUp?
  {
    if e.keyCode != k.code then k
    else match e
      case KeyDown(_) => k.(isDown := true, isUp := false)
      case KeyUp(_) => k.(isDown := false, isUp := true)
  }

  /** The record after the handlers have seen `events`, first to last. */
  function HandleAll(k: KeyState, events: seq<KeyEvent>): KeyState
    decreases |events|
  {
    if events == [] then k else HandleAll(Handle(k, events[0]), events[1..])
  }

  /** The last event in `events` for key code `code`, if any. */
  function LastFor(code: int, events: seq<KeyEvent>): Option<KeyEvent>
    decreases |events|
  {
    if events == [] then None
    else if events[|events| - 1].keyCode == code then Some(events[|events| - 1])
    else LastFor(code, events[..|events| - 1])
  }

  /** `isUp` is exactly the negation of `isDown`. */
  predicate Exclusive(k: KeyState)
  {
    k.isUp == !k.isDown
  }

  lemma {:induction false} HandleAllSnoc(k: KeyState, events: seq<KeyEvent>, e: KeyEvent)
    ensures HandleAll(k, events + [e]) == Handle(HandleAll(k, events), e)
    decreases |events|
  {
    if events == [] {
      assert HandleAll(Handle(k, e), []) == Handle(k, e);
      assert [e][1..] == [];
    } else {
      assert (events + [e])[1..] == events[1..] + [e];
      HandleAllSnoc(Handle(k, events[0]), events[1..], e);
    }
  }

  /** Whatever the events, the key code never changes and `isUp == !isDown` is kept;
      `isDown` is set exactly when the last event for this key was a key-down, and is
      as it was when no event was for this key. */
  lemma {:induction false} HandleAllState(k: KeyState, events: seq<KeyEvent>)
    ensures HandleAll(k, events).code == k.code
    ensures Exclusive(k) ==> Exclusive(HandleAll(k, events))
    ensures HandleAll(k, events).isDown ==
      match LastFor(k.code, events)
      case None => k.isDown
      case Some(e) => e.KeyDown?
    decreases |events|
  {
    if events != [] {
      var init, e := events[..|events| - 1], events[|events| - 1];
      assert events == init + [e];
      HandleAllSnoc(k, init, e);
      HandleAllState(k, init);
    }
  }

  /** Repeating an event has no further effect. */
  lemma HandleIdempotent(k: KeyState, e: KeyEvent)
    ensures Handle(Handle(k, e), e) == Handle(k, e)
  {
  }

  /** The key record of `createKey`. */
  class Key {
    var code: int
    var isDown: bool
    var isUp: bool

    function State(): KeyState
      reads this
    {
      KeyState(code, isDown, isUp)
    }

    /** `createKey(keyCode)`; registering the two window listeners is not modelled. */
    constructor (keyCode: int)
      ensures State() == Released(keyCode) && Exclusive(State())
    {
      code := keyCode;
      isDown := false;
      isUp := true;
    }

    /** `downHandler` for a key event with code `keyCode`. */
    method DownHandler(keyCode: int)
      modifies this
      ensures State() == Handle(old(State()), KeyDown(keyCode))
    {
      if keyCode == code {
        isDown := true;
        isUp := false;
      }
    }

    /** `upHandler` for a key event with code `keyCode`. */
    method UpHandler(keyCode: int)
      modifies this
      ensures State() == Handle(old(State()), KeyUp(keyCode))
    {
      if keyCode == code {
        isDown := false;
        isUp := true;
      }
    }
  }
}
