/** session.py's input handlers, between two awaits, as methods on the session's fields. */
module SessionObject {
  import opened Wrappers
  import opened Gestures
  import opened Pressed
  import P = Pointers

  /** Without(held, tag), tag found or not, is what popping it one entry at a time leaves. */
  lemma {:induction false} WithoutAppend(held: seq<Entry>, e: Entry, tag: Tag)
    ensures Without(held + [e], tag) == Without(held, tag) + if e.tag == tag then [] else [e]
  {
    if held == [] {
    } else {
      assert (held + [e])[1..] == held[1..] + [e];
      WithoutAppend(held[1..], e, tag);
    }
  }

  lemma {:induction false} ModifiersAppend(held: seq<Entry>, e: Entry)
    ensures Modifiers(held + [e]) == Modifiers(held) + if IsModifier(e.code) then [e.code] else []
  {
    if held == [] {
    } else {
      assert (held + [e])[1..] == held[1..] + [e];
      ModifiersAppend(held[1..], e);
    }
  }

  class Session {
    var held: seq<Entry>
    var task: KeyTask
    var notches: Option<(real, real, real, real)>
    var wheel: Wheel
    const pointers: P.Pointers

    constructor (pointers: P.Pointers)
      ensures held == [] && task == Waiting && notches == None && wheel == NoTask && this.pointers == pointers
    {
      held, task, notches, wheel, this.pointers := [], Waiting, None, NoTask, pointers;
    }

    /** The lane with what the emulator has down for it. */
    ghost function Lane(down: set<Code>, lost: set<Code>): Keyboard
      reads this
    {
      Keyboard(held, task, down, lost)
    }

    method Pop(tag: Tag)
      modifies this`held
      ensures held == Without(old(held), tag)
    {
      var rest := [];
      for i := 0 to |held|
        invariant held == old(held)
        invariant rest == Without(held[..i], tag)
      {
        assert held[..i + 1] == held[..i] + [held[i]];
        WithoutAppend(held[..i], held[i], tag);
        rest := if held[i].tag == tag then rest else rest + [held[i]];
      }
      assert held[..|held|] == held;
      held := rest;
    }

    method HeldModifiers() returns (mods: seq<Code>)
      ensures mods == Modifiers(held)
    {
      mods := [];
      for i := 0 to |held|
        invariant mods == Modifiers(held[..i])
      {
        assert held[..i + 1] == held[..i] + [held[i]];
        ModifiersAppend(held[..i], held[i]);
        mods := if IsModifier(held[i].code) then mods + [held[i].code] else mods;
      }
      assert held[..|held|] == held;
    }

    method StartToPaste()
      modifies this`task
      ensures forall down, lost :: Lane(down, lost) == StartPaste(old(Lane(down, lost)))
    {
      var mods := HeldModifiers();
      task := if mods == [] then Pasting([], {}) else Releasing(mods, 0, {});
    }

    /** _press up to its first await. */
    method PressKey(tag: Tag, action: Action, printable: bool) returns (tooMany: bool)
      requires task.Waiting?
      modifies this`held, this`task
      ensures forall down, lost ::
                Keyboard(held, task, down, lost - Codes(held)) ==
                StartPress(old(Lane(down, lost)), tag, action, printable).(lost := lost - Codes(held))
      ensures tooMany ==> |old(held)| >= MAX_HELD && held == old(held) && task == Waiting
    {
      tooMany := false;
      var plan := PlanOf(tag, action, Holds(held, tag), printable);
      if action == Up {
        Pop(tag);
      }
      match plan
      case Nothing =>
      case Text => StartToPaste();
      case Send(e) =>
        if e.action == Down {
          if |held| >= MAX_HELD {
            return true;
          }
          held := held + [Entry(tag, e.code)];
        }
        task := Sending(e);
    }

    /** A wheel message: notches that come while a drag runs add up to the next one. */
    method WheelMessage(x: real, y: real, dx: real, dy: real)
      modifies this`notches, this`wheel
      ensures forall g: Glass :: g.notches == old(notches) && g.wheel == old(wheel) ==>
                Notch(g, x, y, dx, dy) == g.(notches := notches, wheel := wheel)
    {
      var (sx, sy) := if notches.Some? then (notches.value.2, notches.value.3) else (0.0, 0.0);
      notches := Some((x, y, sx + dx, sy + dy));
      if wheel.NoTask? {
        wheel := Ready;
      }
    }

    /** The head of _scroll's loop. */
    method ScrollOnce()
      requires wheel.Ready?
      modifies this`notches, this`wheel, pointers.identifiers
      ensures forall g: Glass :: g.notches == old(notches) && g.wheel == old(wheel) && g.next == old(pointers.identifiers.next) ==>
                Scroll(g) == g.(notches := notches, wheel := wheel, next := pointers.identifiers.next,
                                lost := Scroll(g).lost)
    {
      if notches.None? {
        wheel := NoTask;
        return;
      }
      var (x, y, dx, dy) := notches.value;
      var identifier := pointers.identifiers.New();
      var steps := Gestures.Wheel(identifier, x, y, dx, dy);
      if steps == [] {
        wheel := NoTask;
        return;
      }
      notches, wheel := None, Playing(identifier, steps, 0);
    }

    /** _let_go: the touches that lift every contact, and a key-up for every entry that is held. */
    method LetGoOfAll() returns (touches: seq<Contact>, events: seq<KeyEvent>)
      requires pointers.Valid()
      modifies this`held, pointers
      ensures held == [] && pointers.Valid() && pointers.contacts == map[]
      ensures P.LiftsExactly(touches, old(pointers.contacts))
      ensures |events| == |old(held)| && forall i :: 0 <= i < |events| ==> events[i] == KeyEvent(Up, old(held)[i].code)
    {
      touches := pointers.Release();
      events := [];
      for i := 0 to |held|
        invariant |events| == i && held == old(held)
        invariant forall j :: 0 <= j < i ==> events[j] == KeyEvent(Up, old(held)[j].code)
      {
        events := events + [KeyEvent(Up, held[i].code)];
      }
      held := [];
    }
  }

  /** The events of a let-go leave none of the held keys down, and touch no other key. */
  lemma {:induction false} LetGoLeavesNothing(down: set<Code>, events: seq<KeyEvent>, held: seq<Entry>)
    requires |events| == |held| && forall i :: 0 <= i < |events| ==> events[i] == KeyEvent(Up, held[i].code)
    ensures AfterAll(down, events) == down - Codes(held)
    decreases |held|
  {
    if held != [] {
      var d := DownAfter(down, EffectOf(events[0]), true);
      LetGoLeavesNothing(d, events[1..], held[1..]);
      assert held == [held[0]] + held[1..];
      assert Codes(held) == {held[0].code} + Codes(held[1..]);
    }
  }

  /** The keys that are down after events that all arrive. */
  function AfterAll(down: set<Code>, events: seq<KeyEvent>): set<Code>
    decreases |events|
  {
    if events == [] then down else AfterAll(DownAfter(down, EffectOf(events[0]), true), events[1..])
  }
}
