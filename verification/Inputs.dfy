/** What a viewer's keys, buttons and wheel amount to: which events a message becomes, and what becomes of the notches
    that come while a drag runs. */
module Inputs {
  import opened Wrappers
  import opened Pressed
  import Gestures

  // Which key a name means

  predicate IsButton(name: string) {
    name == "HOME" || name == "BACK" || name == "APP_SWITCH" || name == "POWER" || name == "VOLUME_UP"
    || name == "VOLUME_DOWN" || name == "MENU"
  }

  /** Two buttons never mean the same key, and no button but the home button means Android's home. */
  lemma ButtonsAreApart(a: string, b: string)
    requires IsButton(a) && IsButton(b)
    ensures ButtonCode(a) == ButtonCode(b) <==> a == b
    ensures ButtonCode(a) == Name("GoHome") <==> a == "HOME"
    ensures ButtonCode(a) == Name("GoBack") <==> a == "BACK"
    ensures ButtonCode(a) == Name("AppSwitch") <==> a == "APP_SWITCH"
    ensures ButtonCode(a) == Name("Power") <==> a == "POWER"
    ensures ButtonCode(a) == Name("AudioVolumeUp") <==> a == "VOLUME_UP"
    ensures ButtonCode(a) == Name("AudioVolumeDown") <==> a == "VOLUME_DOWN"
    ensures ButtonCode(a) == Evdev(139) <==> a == "MENU"
  {
  }

  /** A keyboard's menu and home keys are the buttons of the device; its Home key, which moves the text cursor, is not. */
  lemma KeysMeanButtons(key: string)
    ensures KeyCode(key) == ButtonCode("MENU") <==> key == "Menu" || key == "ContextMenu"
    ensures KeyCode("BrowserHome") == ButtonCode("HOME") && KeyCode("Home") != ButtonCode("HOME")
    ensures KeyCode(key) == Name(key) <==> key != "Menu" && key != "ContextMenu" && key != "BrowserHome"
  {
    assert KeyCode("BrowserHome") != Name("BrowserHome") by { assert |"GoHome"| != |"BrowserHome"|; }
    assert KeyCode("Home") != ButtonCode("HOME") by { assert |"GoHome"| != |"Home"|; }
  }

  // Typing

  predicate Printable(text: string) {
    forall i :: 0 <= i < |text| ==> ' ' <= text[i] <= '~'
  }

  /** The lane takes the down and the up of each character in turn, and everything it sends arrives. */
  function Type(k: Keyboard, text: string): (Keyboard, seq<KeyEvent>)
    decreases |text|
  {
    if text == "" then (k, [])
    else
      var (pressed, first) := Take(k, KeyTag([text[0]]), Down);
      var (released, second) := Take(pressed, KeyTag([text[0]]), Up);
      var (last, rest) := Type(released, text[1..]);
      (last, first + second + rest)
  }

  /** One key message whose send arrives, and the event that went out. */
  function Take(k: Keyboard, tag: Tag, action: Action): (Keyboard, seq<KeyEvent>) {
    var started := StartPress(k, tag, action, false);
    if started.task.Sending? then (FinishSend(started, true), [started.task.event]) else (started, [])
  }

  lemma {:induction false} NothingToDrop(held: seq<Entry>, tag: Tag)
    requires !Holds(held, tag)
    ensures Without(held, tag) == held
  {
    if held != [] {
      assert held[0] in held;
      assert forall e :: e in held[1..] ==> e in held;
      NothingToDrop(held[1..], tag);
    }
  }

  predicate TypedKeysAreUp(k: Keyboard) {
    k.task.Waiting? && forall e :: e in k.held ==> e.tag.ButtonTag? || |e.tag.name| != 1
  }

  lemma TypeOne(k: Keyboard, c: char)
    requires TypedKeysAreUp(k) && ' ' <= c <= '~'
    ensures
      var (pressed, first) := Take(k, KeyTag([c]), Down);
      var (released, second) := Take(pressed, KeyTag([c]), Up);
      first == [KeyEvent(Press, Name([c]))] && second == [] && released.held == k.held && TypedKeysAreUp(released)
  {
    var (pressed, first) := Take(k, KeyTag([c]), Down);
    assert |[c]| == 1 && !Dropped([c]);
    NothingToDrop(pressed.held, KeyTag([c]));
  }

  /** A typed text is sent as one key press for each character, in order; nothing is held afterwards that was not before. */
  lemma {:induction false} TypedTextIsSent(k: Keyboard, text: string)
    requires TypedKeysAreUp(k) && Printable(text)
    ensures
      var (last, events) := Type(k, text);
      && |events| == |text| && last.held == k.held
      && forall i :: 0 <= i < |text| ==> events[i] == KeyEvent(Press, Name([text[i]]))
    decreases |text|
  {
    if text == "" {
    } else {
      TypeOne(k, text[0]);
      var (pressed, first) := Take(k, KeyTag([text[0]]), Down);
      var (released, second) := Take(pressed, KeyTag([text[0]]), Up);
      TypedTextIsSent(released, text[1..]);
      var (last, rest) := Type(released, text[1..]);
      assert Type(k, text) == (last, first + second + rest);
      assert first + second + rest == [KeyEvent(Press, Name([text[0]]))] + rest;
    }
  }

  predicate NeverSent(key: string) {
    key == "CapsLock" || key == "Dead" || key == "Process" || key == "Unidentified"
  }

  predicate IsAscii(key: string) {
    |key| == 1 && ' ' <= key[0] <= '~'
  }

  /** Of a key that is not held, a message is sent as a key event unless the key is one of the four that are never
      sent, or the message is the up of a character, or the character is outside ASCII. */
  lemma WhatIsSent(k: Keyboard, tag: Tag, action: Action)
    requires k.task.Waiting? && !Holds(k.held, tag) && |k.held| < 32
    ensures Take(k, tag, action).1 == [] <==>
      tag.KeyTag? && (NeverSent(tag.name) || (|tag.name| == 1 && (action == Up || !IsAscii(tag.name))))
  {
  }

  /** A character outside ASCII that has a shape is pasted, with the held modifiers let go first; one without a shape
      does nothing. */
  lemma OtherCharactersArePasted(k: Keyboard, key: string, action: Action, printable: bool)
    requires k.task.Waiting? && |key| == 1 && !IsAscii(key) && action != Up
    ensures
      var r := StartPress(k, KeyTag(key), action, printable);
      && r.held == k.held && r.down == k.down
      && (printable ==> r.task.Pasting? || (r.task.Releasing? && r.task.mods == Modifiers(k.held) && Modifiers(k.held) != []))
      && (!printable ==> r.task.Waiting?)
  {
  }

  /** While a text is pasted, none of the five modifier keys is down, but for one whose release did not arrive. */
  lemma ModifiersAreUpDuringAPaste(k: Keyboard, name: string)
    requires KeysInv(k) && k.task.Pasting? && Name(name) in k.down
    requires name == "Control" || name == "Shift" || name == "Alt" || name == "AltGraph" || name == "Meta"
    ensures Name(name) in k.task.missed || Name(name) in k.lost
  {
    NoModifierDuringAPaste(k);
    assert IsModifier(Name(name));
  }

  /** A paste that is cancelled still presses the modifiers again that the client holds, and then the lane ends. */
  lemma CancelledPasteRestores(k: Keyboard, arrived: bool)
    requires k.task.Pasting? && k.task.mods == Modifiers(k.held)
    ensures
      var r := Pump(CancelLane(k, arrived), |Modifiers(k.held)|);
      r.task.Ended? && r.held == k.held && r.down == k.down + SetOf(Modifiers(k.held))
  {
    var mods := Modifiers(k.held);
    if mods != [] {
      RestoreAll(CancelLane(k, arrived), |mods|);
      assert mods[0..] == mods;
    } else {
      assert SetOf(mods) == {};
    }
  }

  // Holding

  /** A key or button that can be held: not a character, not one that is dropped. */
  predicate Holdable(tag: Tag) {
    tag.ButtonTag? || (|tag.name| != 1 && !Dropped(tag.name))
  }

  lemma DownIsSent(k: Keyboard, tag: Tag)
    requires k.task.Waiting? && Holdable(tag) && !Holds(k.held, tag) && |k.held| < 32
    ensures
      var (held, first) := Take(k, tag, Down);
      && |first| == 1 && first[0].action == Down
      && held.task.Waiting? && held.down == k.down + {first[0].code} && held.held == k.held + [Entry(tag, first[0].code)]
  {
  }

  lemma RepeatIsNot(k: Keyboard, tag: Tag)
    requires k.task.Waiting? && Holdable(tag) && Holds(k.held, tag)
    ensures
      var (held, again) := Take(k, tag, Down);
      again == [] && held.task.Waiting? && held.down == k.down && held.held == k.held
  {
  }

  lemma {:induction false} WithoutLast(held: seq<Entry>, e: Entry)
    requires !Holds(held, e.tag)
    ensures Without(held + [e], e.tag) == held
  {
    if held == [] {
    } else {
      assert held[0] in held;
      assert forall f :: f in held[1..] ==> f in held;
      assert (held + [e])[1..] == held[1..] + [e];
      WithoutLast(held[1..], e);
    }
  }

  /** A key that goes down is sent down once, however often it repeats, and up once; in between it is down in Android,
      afterwards it is up and everything else is as it was. A thirty-third key is not taken. */
  lemma HoldAndRelease(k: Keyboard, tag: Tag)
    requires k.task.Waiting? && Holdable(tag) && !Holds(k.held, tag)
    ensures |k.held| >= 32 ==> Take(k, tag, Down) == (k, [])
    ensures |k.held| < 32 ==>
      var (held, first) := Take(k, tag, Down);
      var (repeated, again) := Take(held, tag, Down);
      var (released, last) := Take(repeated, tag, Up);
      && |first| == 1 && first[0].action == Down && again == [] && last == [KeyEvent(Up, first[0].code)]
      && first[0].code in held.down && first[0].code in repeated.down
      && released.down == k.down - {first[0].code} && released.held == k.held && released.task.Waiting?
  {
    if |k.held| < 32 {
      DownIsSent(k, tag);
      var (held, first) := Take(k, tag, Down);
      assert Entry(tag, first[0].code) in held.held;
      RepeatIsNot(held, tag);
      var (repeated, again) := Take(held, tag, Down);
      WithoutLast(k.held, Entry(tag, first[0].code));
      UpIsSent(repeated, tag, k.held, first[0].code, k.down);
    }
  }

  lemma UpIsSent(k: Keyboard, tag: Tag, rest: seq<Entry>, code: Code, down: set<Code>)
    requires k.task.Waiting? && Holdable(tag) && Without(k.held, tag) == rest && k.down == down + {code}
    requires PlanOf(tag, Down, false, false) == Send(KeyEvent(Down, code))
    ensures
      var (released, last) := Take(k, tag, Up);
      last == [KeyEvent(Up, code)] && released.down == down - {code} && released.held == rest && released.task.Waiting?
  {
  }

  // The wheel

  function PendingX(g: Glass): real {
    if g.notches.Some? then g.notches.value.2 else 0.0
  }

  function PendingY(g: Glass): real {
    if g.notches.Some? then g.notches.value.3 else 0.0
  }

  predicate StartsDrag(s: Session, m: Move) {
    m.WheelLoop? && s.glass.notches.Some? && Apply(s, m).glass.wheel.Playing?
  }

  /** What the wheel was turned by in the messages of a run. */
  function Turned(moves: seq<Move>): (real, real)
    decreases |moves|
  {
    if moves == [] then (0.0, 0.0)
    else
      var (x, y) := Turned(moves[1..]);
      if moves[0].WheelMessage? then (moves[0].dx + x, moves[0].dy + y) else (x, y)
  }

  /** What the drags that started in a run were for. */
  function Scrolled(s: Session, moves: seq<Move>): (real, real)
    decreases |moves|
  {
    if moves == [] then (0.0, 0.0)
    else
      var (x, y) := Scrolled(Apply(s, moves[0]), moves[1..]);
      if StartsDrag(s, moves[0]) then (PendingX(s.glass) + x, PendingY(s.glass) + y) else (x, y)
  }

  lemma MoveKeepsNotches(s: Session, m: Move)
    requires Enabled(s, m)
    ensures
      var g := Apply(s, m).glass;
      var (x, y) := if StartsDrag(s, m) then (PendingX(s.glass), PendingY(s.glass)) else (0.0, 0.0);
      && PendingX(g) == PendingX(s.glass) + (if m.WheelMessage? then m.dx else 0.0) - x
      && PendingY(g) == PendingY(s.glass) + (if m.WheelMessage? then m.dy else 0.0) - y
  {
  }

  /** No notch is lost or counted twice: what was turned is what was scrolled and what still waits. */
  lemma {:induction false} NotchesAddUp(s: Session, moves: seq<Move>)
    requires AllEnabled(s, moves)
    ensures Scrolled(s, moves).0 + PendingX(Run(s, moves).glass) == PendingX(s.glass) + Turned(moves).0
    ensures Scrolled(s, moves).1 + PendingY(Run(s, moves).glass) == PendingY(s.glass) + Turned(moves).1
    decreases |moves|
  {
    if moves == [] {
    } else {
      MoveKeepsNotches(s, moves[0]);
      NotchesAddUp(Apply(s, moves[0]), moves[1..]);
    }
  }

  /** A drag starts from the place of the last message with all that waits, when that is enough for a drag;
      otherwise it goes on waiting. */
  lemma DragIsForWhatWaits(s: Session)
    requires Enabled(s, WheelLoop) && s.glass.notches.Some?
    ensures
      var (x, y, dx, dy) := s.glass.notches.value;
      var steps := Gestures.Wheel(s.glass.next, x, y, dx, dy);
      var g := Apply(s, WheelLoop).glass;
      && (StartsDrag(s, WheelLoop) <==> steps != [])
      && (steps != [] ==> g.wheel == Playing(s.glass.next, steps, 0) && g.notches == None)
      && (steps == [] ==> g.notches == s.glass.notches && g.wheel.NoTask?)
  {
  }

  /** A message moves the place to its own, and wakes the wheel's task if none runs. */
  lemma MessageWakesTheWheel(s: Session, x: real, y: real, dx: real, dy: real)
    requires Enabled(s, WheelMessage(x, y, dx, dy))
    ensures
      var g := Apply(s, WheelMessage(x, y, dx, dy)).glass;
      && g.notches.Some? && g.notches.value.0 == x && g.notches.value.1 == y
      && !g.wheel.NoTask? && (!s.glass.wheel.NoTask? ==> g.wheel == s.glass.wheel)
  {
  }
}
