/** What a session holds down: session.py's keys lane, its reader and its wheel, against the keys and
    contacts that the emulator has down for it. A send that fails or is cancelled may or may not arrive. */
module Pressed {
  import opened Wrappers
  import opened Gestures
  import opened Touches
  import opened Pointers

  const MAX_HELD := 32

  // Things pressed, of any kind

  /** What a send does when it arrives. */
  datatype Effect<!T(==)> = Effect(pressed: set<T>, released: set<T>)

  /** Whatever is down is covered by the session, being released, or lost; what is lost is down and
      not covered. */
  ghost predicate Covered<T>(cover: set<T>, releasing: set<T>, down: set<T>, lost: set<T>) {
    down <= cover + releasing + lost && lost <= down && lost !! cover
  }

  function DownAfter<T(==)>(down: set<T>, e: Effect<T>, arrived: bool): set<T> {
    if arrived then down + e.pressed - e.released else down
  }

  /** A release that did not arrive is lost, unless something else covers it. */
  function LostAfter<T(==)>(cover: set<T>, down: set<T>, lost: set<T>, e: Effect<T>, arrived: bool): set<T> {
    if arrived then lost - e.released else lost + e.released * down - cover
  }

  lemma ResolveCovers<T>(cover: set<T>, before: set<T>, releasing: set<T>, down: set<T>, lost: set<T>, e: Effect<T>, arrived: bool)
    requires Covered(cover, before, down, lost) && e.pressed <= cover && before <= releasing + e.released
    ensures Covered(cover, releasing, DownAfter(down, e, arrived), LostAfter(cover, down, lost, e, arrived))
  {
  }

  lemma StartCovers<T>(cover: set<T>, now: set<T>, before: set<T>, releasing: set<T>, down: set<T>, lost: set<T>)
    requires Covered(cover, before, down, lost) && cover <= now + releasing && before <= releasing
    ensures Covered(now, releasing, down, lost - now)
  {
  }

  // Keys

  datatype Code = Name(name: string) | Evdev(code: int)

  datatype Action = Down | Up | Press

  datatype KeyEvent = KeyEvent(action: Action, code: Code)

  /** What a key or button message asks for. */
  datatype Plan = Nothing | Text | Send(event: KeyEvent)

  /** The name under which a key or button is held. */
  datatype Tag = KeyTag(name: string) | ButtonTag(name: string)

  predicate Dropped(key: string) {
    key == "CapsLock" || key == "Dead" || key == "Process" || key == "Unidentified"
  }

  predicate IsModifier(code: Code) {
    code.Name? &&
    (code.name == "Control" || code.name == "Shift" || code.name == "Alt" || code.name == "AltGraph" || code.name == "Meta")
  }

  /** Several names of the browser stand for one key of the emulator. */
  function KeyCode(key: string): Code {
    if key == "ContextMenu" || key == "Menu" then Evdev(139) else if key == "BrowserHome" then Name("GoHome") else Name(key)
  }

  function ButtonCode(name: string): Code {
    if name == "HOME" then Name("GoHome")
    else if name == "BACK" then Name("GoBack")
    else if name == "APP_SWITCH" then Name("AppSwitch")
    else if name == "POWER" then Name("Power")
    else if name == "VOLUME_UP" then Name("AudioVolumeUp")
    else if name == "VOLUME_DOWN" then Name("AudioVolumeDown")
    else Evdev(139)
  }

  /** `printable`: whether a character outside ASCII has a shape. */
  function PlanOf(tag: Tag, action: Action, repeat: bool, printable: bool): Plan {
    match tag
    case ButtonTag(name) => if action == Down && repeat then Nothing else Send(KeyEvent(action, ButtonCode(name)))
    case KeyTag(key) =>
      if Dropped(key) then Nothing
      else if |key| == 1 then
        if action == Up then Nothing
        else if ' ' <= key[0] <= '~' then Send(KeyEvent(Press, Name(key)))
        else if printable then Text else Nothing
      else if action == Down && repeat then Nothing
      else Send(KeyEvent(action, KeyCode(key)))
  }

  datatype Entry = Entry(tag: Tag, code: Code)

  /** The keys lane: what its job waits for. A paste lets the held modifiers go, pastes, and presses them
      again; `missed` are the releases that did not arrive; `ending`: the lane was cancelled. */
  datatype KeyTask =
    | Waiting
    | Sending(event: KeyEvent)
    | Releasing(mods: seq<Code>, at: nat, missed: set<Code>)
    | Pasting(mods: seq<Code>, missed: set<Code>)
    | Restoring(mods: seq<Code>, at: nat, ending: bool)
    | Ended

  datatype Keyboard = Keyboard(held: seq<Entry>, task: KeyTask, down: set<Code>, lost: set<Code>)

  function Codes(held: seq<Entry>): set<Code> {
    set e | e in held :: e.code
  }

  predicate Holds(held: seq<Entry>, tag: Tag) {
    exists e :: e in held && e.tag == tag
  }

  function Without(held: seq<Entry>, tag: Tag): (rest: seq<Entry>)
    ensures forall e :: e in rest <==> e in held && e.tag != tag
  {
    if held == [] then [] else (if held[0].tag == tag then [] else [held[0]]) + Without(held[1..], tag)
  }

  function Modifiers(held: seq<Entry>): (mods: seq<Code>)
    ensures forall c :: c in mods <==> c in Codes(held) && IsModifier(c)
  {
    if held == [] then [] else
    assert held == [held[0]] + held[1..];
    (if IsModifier(held[0].code) then [held[0].code] else []) + Modifiers(held[1..])
  }

  /** A key press brings the key up again. */
  function EffectOf(e: KeyEvent): Effect<Code> {
    if e.action == Down then Effect({e.code}, {}) else Effect({}, {e.code})
  }

  predicate InFlight(t: KeyTask) {
    t.Sending? || ((t.Releasing? || t.Restoring?) && t.at < |t.mods|)
  }

  function Flight(t: KeyTask): Effect<Code>
    requires InFlight(t)
  {
    if t.Sending? then EffectOf(t.event) else if t.Releasing? then Effect({}, {t.mods[t.at]}) else Effect({t.mods[t.at]}, {})
  }

  function ReleasingNow(t: KeyTask): set<Code> {
    if InFlight(t) then Flight(t).released else {}
  }

  /** The sent event has arrived, or never will. */
  function Resolved(k: Keyboard, arrived: bool, task: KeyTask): Keyboard
    requires InFlight(k.task)
  {
    Keyboard(k.held, task, DownAfter(k.down, Flight(k.task), arrived),
             LostAfter(Codes(k.held), k.down, k.lost, Flight(k.task), arrived))
  }

  function Hold(k: Keyboard, held: seq<Entry>, task: KeyTask): Keyboard {
    Keyboard(held, task, k.down, k.lost - Codes(held))
  }

  function StartPaste(k: Keyboard): Keyboard {
    var mods := Modifiers(k.held);
    k.(task := if mods == [] then Pasting([], {}) else Releasing(mods, 0, {}))
  }

  /** The lane takes a key or button message. */
  function StartPress(k: Keyboard, tag: Tag, action: Action, printable: bool): Keyboard {
    var plan := PlanOf(tag, action, Holds(k.held, tag), printable);
    var held := if action == Up then Without(k.held, tag) else k.held;
    match plan
    case Nothing => Hold(k, held, Waiting)
    case Text => StartPaste(k)
    case Send(e) =>
      if e.action != Down then Hold(k, held, Sending(e))
      else if |held| >= MAX_HELD then k
      else Hold(k, held + [Entry(tag, e.code)], Sending(e))
  }

  function Restore(mods: seq<Code>, ending: bool): KeyTask {
    if mods != [] then Restoring(mods, 0, ending) else if ending then Ended else Waiting
  }

  function AfterSend(t: KeyTask, arrived: bool): KeyTask
    requires InFlight(t)
  {
    if t.Releasing? then
      var missed := if arrived then t.missed else t.missed + {t.mods[t.at]};
      if t.at + 1 < |t.mods| then Releasing(t.mods, t.at + 1, missed) else Pasting(t.mods, missed)
    else if t.Restoring? then
      if t.at + 1 < |t.mods| then Restoring(t.mods, t.at + 1, t.ending) else if t.ending then Ended else Waiting
    else Waiting
  }

  /** The send of the lane returned. */
  function FinishSend(k: Keyboard, arrived: bool): Keyboard
    requires InFlight(k.task)
  {
    Resolved(k, arrived, AfterSend(k.task, arrived))
  }

  /** The cancellation of the lane reaches its job: a paste still presses its modifiers again. */
  function CancelLane(k: Keyboard, arrived: bool): Keyboard {
    match k.task
    case Releasing(mods, at, _) => if InFlight(k.task) then Resolved(k, arrived, Restore(mods, true)) else k
    case Pasting(mods, _) => k.(task := Restore(mods, true))
    case _ => if InFlight(k.task) then Resolved(k, arrived, Ended) else k.(task := Ended)
  }

  // The display

  /** What a list of touches does: the last touch of an identifier counts. */
  function EffectOfTouches(touches: seq<Contact>): Effect<int> {
    if touches == [] then Effect({}, {}) else
    var e := EffectOfTouches(touches[..|touches| - 1]);
    var t := touches[|touches| - 1];
    if t.pressure == 0 then Effect(e.pressed - {t.identifier}, e.released + {t.identifier})
    else Effect(e.pressed + {t.identifier}, e.released - {t.identifier})
  }

  datatype Reader = Reading | Touching(touches: seq<Contact>) | Done

  /** The wheel's task: at the head of its loop, sending (or waiting to send) step `at` of a drag, or
      lifting the finger of a drag that was cut off. */
  datatype Wheel = NoTask | Ready | Playing(identifier: int, steps: seq<Step>, at: nat) | Lifting(identifier: int)

  datatype Glass = Glass(contacts: Contacts, next: int, reader: Reader, notches: Option<(real, real, real, real)>,
                         wheel: Wheel, down: set<int>, lost: set<int>)

  function Identifiers(c: Contacts): set<int> {
    set k | k in c :: c[k].identifier
  }

  function WheelCover(w: Wheel): set<int> {
    if w.Playing? || w.Lifting? then {w.identifier} else {}
  }

  function Cover(g: Glass): set<int> {
    Identifiers(g.contacts) + WheelCover(g.wheel)
  }

  function ReaderFlight(r: Reader): Effect<int> {
    if r.Touching? then EffectOfTouches(r.touches) else Effect({}, {})
  }

  function StepEffect(w: Wheel): Effect<int>
    requires w.Playing? && w.at < |w.steps|
  {
    if w.steps[w.at].touch.pressure == 0 then Effect({}, {w.identifier}) else Effect({w.identifier}, {})
  }

  function StartTouches(g: Glass, points: seq<(Key, Point)>): Glass {
    var (contacts, next, touches) := ContactsOf(g.contacts, g.next, points);
    g.(contacts := contacts, next := next, reader := if touches == [] then Reading else Touching(touches),
       lost := g.lost - Identifiers(contacts))
  }

  function ReaderReturns(g: Glass, arrived: bool, reader: Reader): Glass {
    var e := ReaderFlight(g.reader);
    g.(reader := reader, down := DownAfter(g.down, e, arrived), lost := LostAfter(Cover(g), g.down, g.lost, e, arrived))
  }

  function Notch(g: Glass, x: real, y: real, dx: real, dy: real): Glass {
    var (sx, sy) := if g.notches.Some? then (g.notches.value.2, g.notches.value.3) else (0.0, 0.0);
    g.(notches := Some((x, y, sx + dx, sy + dy)), wheel := if g.wheel.NoTask? then Ready else g.wheel)
  }

  /** The head of the wheel's loop. */
  function Scroll(g: Glass): Glass {
    if g.notches.None? then g.(wheel := NoTask) else
    var (x, y, dx, dy) := g.notches.value;
    var steps := Gestures.Wheel(g.next, x, y, dx, dy);
    if steps == [] then g.(next := g.next + 1, wheel := NoTask)
    else g.(next := g.next + 1, notches := None, wheel := Playing(g.next, steps, 0), lost := g.lost - {g.next})
  }

  /** The wheel's task lets its finger go from its care: a finger that is still down is lost. */
  function WheelTask(g: Glass, e: Effect<int>, arrived: bool, wheel: Wheel): Glass {
    var down := DownAfter(g.down, e, arrived);
    var h := g.(wheel := wheel, down := down);
    h.(lost := g.lost * down + (WheelCover(g.wheel) * down - Cover(h)))
  }

  function WheelSent(g: Glass): Glass
    requires g.wheel.Playing? && g.wheel.at < |g.wheel.steps|
  {
    var w := g.wheel;
    WheelTask(g, StepEffect(w), true, if w.at + 1 < |w.steps| then w.(at := w.at + 1) else Ready)
  }

  function WheelBreaks(g: Glass, arrived: bool): Glass
    requires g.wheel.Playing? && g.wheel.at < |g.wheel.steps|
  {
    WheelTask(g, StepEffect(g.wheel), arrived, Lifting(g.wheel.identifier))
  }

  function WheelLifted(g: Glass, arrived: bool): Glass
    requires g.wheel.Lifting?
  {
    WheelTask(g, Effect({}, {g.wheel.identifier}), arrived, NoTask)
  }

  // The session

  datatype Phase = Open | Stopping | Draining | Closed

  datatype Session = Session(keyboard: Keyboard, glass: Glass, phase: Phase)

  datatype Move =
    | KeyMessage(tag: Tag, action: Action, printable: bool)
    | TextMessage
    | KeySent(arrived: bool)
    | TextPasted
    | LaneCancelled(arrived: bool)
    | TouchMessage(points: seq<(Key, Point)>)
    | TouchesSent(arrived: bool)
    | ReaderEnds(arrived: bool)
    | WheelMessage(x: real, y: real, dx: real, dy: real)
    | WheelLoop
    | WheelStep
    | WheelCutOff(arrived: bool)
    | WheelLift(arrived: bool)
    | WheelCancelled
    | BeginClose
    | BeginDrain
    | LetGo
    | OthersRelease(codes: set<Code>)
    | OthersTouch(next: int)

  ghost predicate Enabled(s: Session, m: Move) {
    var k, g := s.keyboard, s.glass;
    var lane := s.phase == Open || s.phase == Stopping;
    var open := s.phase == Open && g.reader.Reading?;
    match m
    case KeyMessage(_, _, _) => lane && k.task.Waiting?
    case TextMessage => lane && k.task.Waiting?
    case KeySent(_) => InFlight(k.task) && (lane || (s.phase == Draining && k.task.Restoring? && k.task.ending))
    case TextPasted => lane && k.task.Pasting?
    case LaneCancelled(_) => s.phase == Draining && !k.task.Ended? && !(k.task.Restoring? && k.task.ending)
    case TouchMessage(_) => open
    case TouchesSent(_) => s.phase == Open && g.reader.Touching?
    case ReaderEnds(_) => lane && !g.reader.Done?
    case WheelMessage(_, _, _, _) => open
    case WheelLoop => s.phase == Open && g.wheel.Ready?
    case WheelStep => s.phase == Open && g.wheel.Playing?
    case WheelCutOff(_) => lane && g.wheel.Playing?
    case WheelLift(_) => lane && g.wheel.Lifting?
    case WheelCancelled => s.phase == Stopping && g.wheel.Ready?
    case BeginClose => s.phase == Open
    case BeginDrain => s.phase == Stopping && g.reader.Done? && g.wheel.NoTask?
    case LetGo => s.phase == Draining && k.task.Ended?
    case OthersRelease(_) => true
    case OthersTouch(next) => next >= g.next
  }

  function ApplyKeys(k: Keyboard, m: Move): Keyboard {
    match m
    case KeyMessage(tag, action, printable) => StartPress(k, tag, action, printable)
    case TextMessage => StartPaste(k)
    case KeySent(arrived) => if InFlight(k.task) then FinishSend(k, arrived) else k
    case TextPasted => if k.task.Pasting? then k.(task := Restore(k.task.mods, false)) else k
    case LaneCancelled(arrived) => CancelLane(k, arrived)
    case LetGo => Keyboard([], k.task, k.down - Codes(k.held), k.lost)
    case OthersRelease(codes) => k.(down := k.down - codes, lost := k.lost - codes)
    case _ => k
  }

  function ApplyGlass(g: Glass, m: Move): Glass {
    match m
    case TouchMessage(points) => StartTouches(g, points)
    case TouchesSent(arrived) => ReaderReturns(g, arrived, Reading)
    case ReaderEnds(arrived) => ReaderReturns(g, arrived, Done)
    case WheelMessage(x, y, dx, dy) => Notch(g, x, y, dx, dy)
    case WheelLoop => Scroll(g)
    case WheelStep => if g.wheel.Playing? && g.wheel.at < |g.wheel.steps| then WheelSent(g) else g
    case WheelCutOff(arrived) => if g.wheel.Playing? && g.wheel.at < |g.wheel.steps| then WheelBreaks(g, arrived) else g
    case WheelLift(arrived) => if g.wheel.Lifting? then WheelLifted(g, arrived) else g
    case WheelCancelled => g.(wheel := NoTask)
    case LetGo => g.(contacts := map[], down := g.down - Identifiers(g.contacts))
    case OthersTouch(next) => g.(next := next)
    case _ => g
  }

  function Apply(s: Session, m: Move): Session {
    Session(ApplyKeys(s.keyboard, m), ApplyGlass(s.glass, m),
            match m
            case BeginClose => Stopping
            case BeginDrain => Draining
            case LetGo => Closed
            case _ => s.phase)
  }

  // The invariant

  ghost predicate TaskFits(k: Keyboard) {
    match k.task
    case Sending(e) => e.action == Down ==> e.code in Codes(k.held)
    case Releasing(mods, at, missed) => at < |mods| && mods == Modifiers(k.held) &&
      forall j :: 0 <= j < at ==> mods[j] !in k.down || mods[j] in missed
    case Pasting(mods, missed) => mods == Modifiers(k.held) &&
      forall j :: 0 <= j < |mods| ==> mods[j] !in k.down || mods[j] in missed
    case Restoring(mods, at, _) => at < |mods| && mods == Modifiers(k.held)
    case _ => true
  }

  /** Every held entry is let go by the key-up of its own name. */
  ghost predicate Named(held: seq<Entry>) {
    forall e :: e in held ==> forall repeat, printable :: PlanOf(e.tag, Up, repeat, printable) == Send(KeyEvent(Up, e.code))
  }

  ghost predicate KeysInv(k: Keyboard) {
    TaskFits(k) && Named(k.held) && |k.held| <= MAX_HELD && Covered(Codes(k.held), ReleasingNow(k.task), k.down, k.lost)
  }

  /** Each contact has an identifier of its own. */
  ghost predicate Apart(c: Contacts, next: int) {
    && (forall k :: k in c ==> c[k].identifier < next)
    && (forall j, k :: j in c && k in c && j != k ==> c[j].identifier != c[k].identifier)
  }

  /** A drag that runs is one finger of its own identifier, lifted by its last step. */
  ghost predicate WheelFits(w: Wheel) {
    w.Playing? ==> w.at < |w.steps| && OneFinger(w.steps, w.identifier)
  }

  ghost predicate GlassInv(g: Glass) {
    && Apart(g.contacts, g.next)
    && ReaderFlight(g.reader).pressed <= Identifiers(g.contacts)
    && WheelFits(g.wheel)
    && Covered(Cover(g), ReaderFlight(g.reader).released, g.down, g.lost)
  }

  ghost predicate Inv(s: Session) {
    && KeysInv(s.keyboard) && GlassInv(s.glass)
    && (s.phase == Draining || s.phase == Closed ==> s.glass.reader.Done? && s.glass.wheel.NoTask?)
    && (s.phase == Closed ==> s.keyboard.task.Ended? && s.keyboard.held == [] && s.glass.contacts == map[])
  }

  // The keys lane keeps it

  lemma CodesWithout(held: seq<Entry>, tag: Tag)
    requires Named(held)
    ensures Codes(Without(held, tag)) <= Codes(held)
    ensures Codes(held) <= Codes(Without(held, tag)) + (if Holds(held, tag) then {TagCode(tag)} else {})
    ensures Holds(held, tag) ==> forall printable :: PlanOf(tag, Up, true, printable) == Send(KeyEvent(Up, TagCode(tag)))
  {
    forall c | c in Codes(held) && c !in Codes(Without(held, tag)) ensures Holds(held, tag) && c == TagCode(tag) {
      var e :| e in held && e.code == c;
      assert PlanOf(e.tag, Up, true, true) == Send(KeyEvent(Up, e.code));
    }
  }

  function TagCode(tag: Tag): Code {
    if tag.ButtonTag? then ButtonCode(tag.name) else KeyCode(tag.name)
  }

  lemma {:induction false} WithoutIsShorter(held: seq<Entry>, tag: Tag)
    ensures |Without(held, tag)| <= |held|
  {
    if held != [] {
      WithoutIsShorter(held[1..], tag);
    }
  }

  /** An up message pops what its name holds and sends that key's release, if it pops anything. */
  lemma UpInv(k: Keyboard, tag: Tag, printable: bool)
    requires KeysInv(k) && k.task.Waiting?
    ensures KeysInv(StartPress(k, tag, Up, printable))
  {
    CodesWithout(k.held, tag);
    WithoutIsShorter(k.held, tag);
    var held := Without(k.held, tag);
    var repeat := Holds(k.held, tag);
    var plan := PlanOf(tag, Up, repeat, printable);
    assert !plan.Text?;
    if plan.Nothing? {
      StartCovers(Codes(k.held), Codes(held), {}, {}, k.down, k.lost);
    } else {
      StartCovers(Codes(k.held), Codes(held), {}, {plan.event.code}, k.down, k.lost);
      assert StartPress(k, tag, Up, printable) == Hold(k, held, Sending(plan.event));
    }
  }

  lemma DownNames(tag: Tag, repeat: bool, printable: bool)
    ensures var p := PlanOf(tag, Down, repeat, printable);
            p.Send? && p.event.action == Down ==>
              forall r, q :: PlanOf(tag, Up, r, q) == Send(KeyEvent(Up, p.event.code))
    ensures var p := PlanOf(tag, Press, repeat, printable); p.Send? ==> p.event.action == Press
  {
  }

  lemma DownInv(k: Keyboard, tag: Tag, printable: bool)
    requires KeysInv(k) && k.task.Waiting?
    ensures KeysInv(StartPress(k, tag, Down, printable))
  {
    var plan := PlanOf(tag, Down, Holds(k.held, tag), printable);
    DownNames(tag, Holds(k.held, tag), printable);
    if plan.Text? {
      PasteInv(k);
    } else if plan.Send? && plan.event.action == Down && |k.held| < MAX_HELD {
      var held := k.held + [Entry(tag, plan.event.code)];
      assert Codes(held) == Codes(k.held) + {plan.event.code};
      StartCovers(Codes(k.held), Codes(held), {}, {}, k.down, k.lost);
      assert StartPress(k, tag, Down, printable) == Hold(k, held, Sending(plan.event));
    } else {
      assert k.lost - Codes(k.held) == k.lost;
    }
  }

  lemma PressInv(k: Keyboard, tag: Tag, printable: bool)
    requires KeysInv(k) && k.task.Waiting?
    ensures KeysInv(StartPress(k, tag, Press, printable))
  {
    DownNames(tag, Holds(k.held, tag), printable);
    if PlanOf(tag, Press, Holds(k.held, tag), printable).Text? {
      PasteInv(k);
    }
    assert k.lost - Codes(k.held) == k.lost;
  }

  lemma PasteInv(k: Keyboard)
    requires KeysInv(k) && k.task.Waiting?
    ensures KeysInv(StartPaste(k))
  {
  }

  /** The pressed key of an event in flight is covered. */
  lemma FlightIsCovered(k: Keyboard)
    requires TaskFits(k) && InFlight(k.task)
    ensures Flight(k.task).pressed <= Codes(k.held)
    ensures k.task.Releasing? || k.task.Restoring? ==> Flight(k.task).released <= Codes(k.held)
  {
  }

  lemma ResolvedInv(k: Keyboard, arrived: bool, task: KeyTask)
    requires KeysInv(k) && InFlight(k.task) && ReleasingNow(task) <= Codes(k.held)
    requires TaskFits(Resolved(k, arrived, task))
    ensures KeysInv(Resolved(k, arrived, task))
  {
    FlightIsCovered(k);
    ResolveCovers(Codes(k.held), ReleasingNow(k.task), {}, k.down, k.lost, Flight(k.task), arrived);
  }

  /** While modifiers are let go, those before the current one are up or missed. */
  lemma ReleasedIsUp(k: Keyboard, arrived: bool)
    requires TaskFits(k) && k.task.Releasing?
    ensures var h := FinishSend(k, arrived);
            forall j :: 0 <= j <= k.task.at ==> k.task.mods[j] !in h.down || k.task.mods[j] in h.task.missed
  {
  }

  lemma SentFits(k: Keyboard, arrived: bool)
    requires TaskFits(k) && InFlight(k.task)
    ensures TaskFits(FinishSend(k, arrived)) && ReleasingNow(FinishSend(k, arrived).task) <= Codes(k.held)
  {
    if k.task.Releasing? {
      ReleasedIsUp(k, arrived);
    }
  }

  lemma SentInv(k: Keyboard, arrived: bool)
    requires KeysInv(k) && InFlight(k.task)
    ensures KeysInv(FinishSend(k, arrived))
  {
    SentFits(k, arrived);
    ResolvedInv(k, arrived, AfterSend(k.task, arrived));
  }

  lemma CancelInv(k: Keyboard, arrived: bool)
    requires KeysInv(k)
    ensures KeysInv(CancelLane(k, arrived))
  {
    if InFlight(k.task) {
      var task := CancelLane(k, arrived).task;
      assert CancelLane(k, arrived) == Resolved(k, arrived, task);
      ResolvedInv(k, arrived, task);
    }
  }

  lemma OthersReleaseInv(k: Keyboard, codes: set<Code>)
    requires KeysInv(k)
    ensures KeysInv(k.(down := k.down - codes, lost := k.lost - codes))
  {
  }

  // The display keeps it

  lemma PutIdentifier(c: Contacts, key: Key, h: Held)
    requires key in c ==> c[key].identifier == h.identifier
    ensures Identifiers(c[key := h]) == Identifiers(c) + {h.identifier}
  {
    var d := c[key := h];
    forall k | k in c ensures c[k].identifier in Identifiers(d) {
      assert k in d && d[k].identifier == c[k].identifier;
    }
    assert d[key] == h;
  }

  lemma DropIdentifier(c: Contacts, next: int, key: Key)
    requires Apart(c, next) && key in c
    ensures Identifiers(c - {key}) == Identifiers(c) - {c[key].identifier}
  {
    forall k | k in c && k != key ensures c[k].identifier in Identifiers(c - {key}) {
      assert k in c - {key};
    }
  }

  /** What a list of touches presses is a contact after it; what was a contact and is not is released. */
  ghost predicate Follows(c: Contacts, d: Contacts, e: Effect<int>) {
    e.pressed <= Identifiers(d) && Identifiers(c) <= Identifiers(d) + e.released
  }

  lemma EffectOfOneMore(touches: seq<Contact>, t: Contact)
    ensures var e := EffectOfTouches(touches);
            EffectOfTouches(touches + [t]) ==
            if t.pressure == 0 then Effect(e.pressed - {t.identifier}, e.released + {t.identifier})
            else Effect(e.pressed + {t.identifier}, e.released - {t.identifier})
  {
    assert (touches + [t])[..|touches|] == touches;
  }

  lemma PressFollows(c: Contacts, d: Contacts, e: Effect<int>, key: Key, h: Held)
    requires Follows(c, d, e) && (key in d ==> d[key].identifier == h.identifier)
    ensures Follows(c, d[key := h], Effect(e.pressed + {h.identifier}, e.released - {h.identifier}))
  {
    PutIdentifier(d, key, h);
  }

  lemma LiftFollows(c: Contacts, d: Contacts, next: int, e: Effect<int>, key: Key)
    requires Follows(c, d, e) && Apart(d, next) && key in d
    ensures Follows(c, d - {key}, Effect(e.pressed - {d[key].identifier}, e.released + {d[key].identifier}))
  {
    DropIdentifier(d, next, key);
  }

  lemma PointFollows(c: Contacts, d: Contacts, next: int, touches: seq<Contact>, key: Key, p: Point)
    requires Apart(d, next) && Follows(c, d, EffectOfTouches(touches)) && Taken(d, key, p.pressure)
    ensures Follows(c, ContactsAfter(d, next, key, p.x, p.y, p.pressure),
                    EffectOfTouches(touches + [TouchOf(d, next, key, p.x, p.y, p.pressure)]))
  {
    var t := TouchOf(d, next, key, p.x, p.y, p.pressure);
    EffectOfOneMore(touches, t);
    if p.pressure > 0.0 {
      PressFollows(c, d, EffectOfTouches(touches), key, Held(t.identifier, p.x, p.y));
    } else {
      LiftFollows(c, d, next, EffectOfTouches(touches), key);
    }
  }

  lemma PointKeepsApart(d: Contacts, next: int, key: Key, p: Point)
    requires Apart(d, next)
    ensures Apart(ContactsAfter(d, next, key, p.x, p.y, p.pressure), NextAfter(d, next, key, p.pressure))
  {
  }

  lemma {:induction false} TouchesFollow(c: Contacts, next: int, points: seq<(Key, Point)>)
    requires Apart(c, next)
    ensures var (d, n, touches) := ContactsOf(c, next, points);
            Apart(d, n) && next <= n && Follows(c, d, EffectOfTouches(touches))
    decreases |points|
  {
    if points != [] {
      TouchesFollow(c, next, points[..|points| - 1]);
      var (d, n, touches) := ContactsOf(c, next, points[..|points| - 1]);
      var (key, p) := points[|points| - 1];
      PointKeepsApart(d, n, key, p);
      if Taken(d, key, p.pressure) {
        PointFollows(c, d, n, touches, key, p);
      }
    }
  }

  /** The effect of a list of touches is what it does to the contacts on the screen. */
  lemma {:induction false} EffectIsOnTheScreen(shown: map<int, Contact>, touches: seq<Contact>)
    ensures ShowAll(shown, touches).Keys == DownAfter(shown.Keys, EffectOfTouches(touches), true)
    decreases |touches|
  {
    if touches != [] {
      var n := |touches| - 1;
      assert touches == touches[..n] + [touches[n]];
      ShowAllAppend(shown, touches[..n], touches[n]);
      EffectIsOnTheScreen(shown, touches[..n]);
      EffectsApart(touches[..n]);
    }
  }

  lemma {:induction false} EffectsApart(touches: seq<Contact>)
    ensures EffectOfTouches(touches).pressed !! EffectOfTouches(touches).released
    decreases |touches|
  {
    if touches != [] {
      EffectsApart(touches[..|touches| - 1]);
    }
  }

  lemma TouchInv(g: Glass, points: seq<(Key, Point)>)
    requires GlassInv(g) && g.reader.Reading?
    ensures GlassInv(StartTouches(g, points))
  {
    TouchesFollow(g.contacts, g.next, points);
    var (contacts, next, touches) := ContactsOf(g.contacts, g.next, points);
    var h := StartTouches(g, points);
    assert ReaderFlight(h.reader) == EffectOfTouches(touches);
    StartCovers(Cover(g), Cover(h), {}, EffectOfTouches(touches).released, g.down, g.lost);
    assert g.lost - Identifiers(contacts) == g.lost - Cover(h);
  }

  lemma ReaderInv(g: Glass, arrived: bool, reader: Reader)
    requires GlassInv(g) && !reader.Touching?
    ensures GlassInv(ReaderReturns(g, arrived, reader))
  {
    var e := ReaderFlight(g.reader);
    ResolveCovers(Cover(g), e.released, {}, g.down, g.lost, e, arrived);
  }

  lemma ScrollInv(g: Glass)
    requires GlassInv(g) && g.wheel.Ready?
    ensures GlassInv(Scroll(g))
  {
    if g.notches.Some? {
      var (x, y, dx, dy) := g.notches.value;
      if !TooShort(Gestures.Move(dx), Gestures.Move(dy)) {
        WheelKeepsItsLength(g.next, x, y, dx, dy);
      }
    }
  }

  lemma WheelTaskInv(g: Glass, e: Effect<int>, arrived: bool, wheel: Wheel)
    requires GlassInv(g) && e.pressed <= WheelCover(g.wheel)
    requires WheelCover(wheel) <= WheelCover(g.wheel) && WheelFits(wheel)
    ensures GlassInv(WheelTask(g, e, arrived, wheel))
  {
    var h := WheelTask(g, e, arrived, wheel);
    var releasing := ReaderFlight(g.reader).released;
    assert h.down <= Cover(h) + releasing + h.lost;
  }

  lemma GlassStep(g: Glass, m: Move)
    requires GlassInv(g) && !m.LetGo?
    requires m.TouchMessage? ==> g.reader.Reading?
    requires m.WheelLoop? || m.WheelCancelled? ==> g.wheel.Ready?
    requires m.OthersTouch? ==> g.next <= m.next
    ensures GlassInv(ApplyGlass(g, m))
  {
    match m
    case TouchMessage(points) => TouchInv(g, points);
    case TouchesSent(arrived) => ReaderInv(g, arrived, Reading);
    case ReaderEnds(arrived) => ReaderInv(g, arrived, Done);
    case WheelLoop => ScrollInv(g);
    case WheelStep => if g.wheel.Playing? {
        WheelTaskInv(g, StepEffect(g.wheel), true, ApplyGlass(g, m).wheel);
      }
    case WheelCutOff(arrived) => if g.wheel.Playing? {
        WheelTaskInv(g, StepEffect(g.wheel), arrived, Lifting(g.wheel.identifier));
      }
    case WheelLift(arrived) => if g.wheel.Lifting? {
        WheelTaskInv(g, Effect({}, {g.wheel.identifier}), arrived, NoTask);
      }
    case _ =>
  }

  // Every move keeps it

  lemma KeysStep(k: Keyboard, m: Move)
    requires KeysInv(k) && !m.LetGo?
    requires m.KeyMessage? || m.TextMessage? ==> k.task.Waiting?
    ensures KeysInv(ApplyKeys(k, m))
  {
    match m
    case KeyMessage(tag, Up, printable) => UpInv(k, tag, printable);
    case KeyMessage(tag, Down, printable) => DownInv(k, tag, printable);
    case KeyMessage(tag, Press, printable) => PressInv(k, tag, printable);
    case TextMessage => PasteInv(k);
    case KeySent(arrived) => if InFlight(k.task) { SentInv(k, arrived); }
    case TextPasted =>
    case LaneCancelled(arrived) => CancelInv(k, arrived);
    case OthersRelease(codes) => OthersReleaseInv(k, codes);
    case _ =>
  }

  lemma LetGoInv(s: Session)
    requires Inv(s) && Enabled(s, LetGo)
    ensures Inv(Apply(s, LetGo))
  {
    var k, g := s.keyboard, s.glass;
    assert Codes([]) == {};
    assert Identifiers(map[]) == {};
    assert k.down - Codes(k.held) == k.lost;
    assert g.down - Identifiers(g.contacts) == g.lost;
  }

  lemma StepInv(s: Session, m: Move)
    requires Inv(s) && Enabled(s, m)
    ensures Inv(Apply(s, m))
  {
    if m.LetGo? {
      LetGoInv(s);
    } else {
      KeysStep(s.keyboard, m);
      GlassStep(s.glass, m);
    }
  }

  // Runs

  ghost predicate AllEnabled(s: Session, moves: seq<Move>)
    decreases |moves|
  {
    moves == [] || (Enabled(s, moves[0]) && AllEnabled(Apply(s, moves[0]), moves[1..]))
  }

  function Run(s: Session, moves: seq<Move>): Session
    decreases |moves|
  {
    if moves == [] then s else Run(Apply(s, moves[0]), moves[1..])
  }

  function Fresh(next: int): Session {
    Session(Keyboard([], Waiting, {}, {}), Glass(map[], next, Reading, None, NoTask, {}, {}), Open)
  }

  lemma {:induction false} RunInv(s: Session, moves: seq<Move>)
    requires Inv(s) && AllEnabled(s, moves)
    ensures Inv(Run(s, moves))
    decreases |moves|
  {
    if moves != [] {
      StepInv(s, moves[0]);
      RunInv(Apply(s, moves[0]), moves[1..]);
    }
  }

  lemma FreshInv(next: int)
    ensures Inv(Fresh(next))
  {
    assert Codes([]) == {};
  }

  /** The move loses a release: of a key or contact that is down and that nothing else covers. */
  ghost predicate CutsOff(s: Session, m: Move) {
    var k, g := s.keyboard, s.glass;
    match m
    case KeySent(arrived) =>
      !arrived && InFlight(k.task) && Flight(k.task).released * k.down - Codes(k.held) != {}
    case LaneCancelled(arrived) =>
      !arrived && InFlight(k.task) && Flight(k.task).released * k.down - Codes(k.held) != {}
    case TouchesSent(arrived) => !arrived && ReaderFlight(g.reader).released * g.down - Cover(g) != {}
    case ReaderEnds(arrived) => !arrived && ReaderFlight(g.reader).released * g.down - Cover(g) != {}
    case WheelLift(arrived) =>
      !arrived && g.wheel.Lifting? && g.wheel.identifier in g.down && g.wheel.identifier !in Identifiers(g.contacts)
    case _ => false
  }

  ghost predicate NothingLost(s: Session) {
    s.keyboard.lost == {} && s.glass.lost == {}
  }

  lemma KeysLoseIffCutOff(s: Session, m: Move)
    requires Inv(s) && Enabled(s, m) && NothingLost(s) && (m.KeySent? || m.LaneCancelled?)
    ensures ApplyKeys(s.keyboard, m).lost == {} <==> !CutsOff(s, m)
  {
    var k := s.keyboard;
    if InFlight(k.task) {
      var task := ApplyKeys(k, m).task;
      assert ApplyKeys(k, m) == Resolved(k, m.arrived, task);
      assert Flight(k.task).released * k.down - Codes(k.held) == LostAfter(Codes(k.held), k.down, {}, Flight(k.task), false);
    }
  }

  lemma WheelLosesIffCutOff(s: Session, m: Move)
    requires Inv(s) && Enabled(s, m) && NothingLost(s) && (m.WheelStep? || m.WheelCutOff? || m.WheelLift?)
    ensures ApplyGlass(s.glass, m).lost == {} <==> !CutsOff(s, m)
  {
    var g := s.glass;
    var h := ApplyGlass(g, m);
    if m.WheelLift? {
      assert g.wheel.identifier in WheelCover(g.wheel);
    } else if m.WheelStep? && h.wheel.Ready? {
      assert StepEffect(g.wheel) == Effect({}, {g.wheel.identifier});
    }
  }

  lemma ReaderLosesIffCutOff(s: Session, m: Move)
    requires Inv(s) && Enabled(s, m) && NothingLost(s) && (m.TouchesSent? || m.ReaderEnds?)
    ensures ApplyGlass(s.glass, m).lost == {} <==> !CutsOff(s, m)
  {
    var g := s.glass;
    assert ReaderFlight(g.reader).released * g.down - Cover(g) == LostAfter(Cover(g), g.down, {}, ReaderFlight(g.reader), false);
  }

  /** A move loses something exactly when it cuts off a release of something down that nothing covers. */
  lemma LosesIffCutOff(s: Session, m: Move)
    requires Inv(s) && Enabled(s, m) && NothingLost(s)
    ensures NothingLost(Apply(s, m)) <==> !CutsOff(s, m)
  {
    match m
    case KeySent(_) => KeysLoseIffCutOff(s, m);
    case LaneCancelled(_) => KeysLoseIffCutOff(s, m);
    case TouchesSent(_) => ReaderLosesIffCutOff(s, m);
    case ReaderEnds(_) => ReaderLosesIffCutOff(s, m);
    case WheelStep => WheelLosesIffCutOff(s, m);
    case WheelCutOff(_) => WheelLosesIffCutOff(s, m);
    case WheelLift(_) => WheelLosesIffCutOff(s, m);
    case _ =>
  }

  ghost predicate NoneCutsOff(s: Session, moves: seq<Move>)
    decreases |moves|
  {
    moves == [] || (!CutsOff(s, moves[0]) && NoneCutsOff(Apply(s, moves[0]), moves[1..]))
  }

  lemma {:induction false} NothingIsLost(s: Session, moves: seq<Move>)
    requires Inv(s) && NothingLost(s) && AllEnabled(s, moves) && NoneCutsOff(s, moves)
    ensures NothingLost(Run(s, moves))
    decreases |moves|
  {
    if moves != [] {
      StepInv(s, moves[0]);
      LosesIffCutOff(s, moves[0]);
      NothingIsLost(Apply(s, moves[0]), moves[1..]);
    }
  }

  // What a session leaves

  /** At any time of any run, every key and contact that is down for the session is held, is being
      released, or had a release that did not arrive. */
  lemma EverythingDownIsCovered(next: int, moves: seq<Move>)
    requires AllEnabled(Fresh(next), moves)
    ensures var s := Run(Fresh(next), moves);
            && (forall c :: c in s.keyboard.down ==>
                  c in Codes(s.keyboard.held) || c in ReleasingNow(s.keyboard.task) || c in s.keyboard.lost)
            && (forall i :: i in s.glass.down ==>
                  i in Cover(s.glass) || i in ReaderFlight(s.glass.reader).released || i in s.glass.lost)
  {
    FreshInv(next);
    RunInv(Fresh(next), moves);
  }

  /** A session that closed has left down exactly what it lost: with no release cut off, nothing. */
  lemma CloseLeavesWhatWasLost(next: int, moves: seq<Move>)
    requires AllEnabled(Fresh(next), moves)
    requires Run(Fresh(next), moves).phase == Closed
    ensures var s := Run(Fresh(next), moves);
            && s.keyboard.down == s.keyboard.lost && s.glass.down == s.glass.lost
            && (NoneCutsOff(Fresh(next), moves) ==> s.keyboard.down == {} && s.glass.down == {})
  {
    FreshInv(next);
    RunInv(Fresh(next), moves);
    assert Codes([]) == {} && Identifiers(map[]) == {};
    if NoneCutsOff(Fresh(next), moves) {
      NothingIsLost(Fresh(next), moves);
    }
  }

  lemma FirstMove(s: Session, m: Move, rest: seq<Move>)
    requires Enabled(s, m) && AllEnabled(Apply(s, m), rest)
    ensures AllEnabled(s, [m] + rest) && Run(s, [m] + rest) == Run(Apply(s, m), rest)
  {
    assert ([m] + rest)[1..] == rest;
  }

  /** What a close does with a lane and a reader whose last sends do not arrive. */
  function CloseMoves(): seq<Move> {
    [BeginClose] + ([ReaderEnds(false)] + ([BeginDrain] + ([LaneCancelled(false)] + ([LetGo] + []))))
  }

  lemma CloseCutsOff(s: Session)
    requires s.phase == Open && s.glass.reader.Reading? && s.glass.wheel.NoTask? && s.keyboard.task.Sending?
    ensures AllEnabled(s, CloseMoves()) && Run(s, CloseMoves()).phase == Closed
    ensures Run(s, CloseMoves()).keyboard.down == s.keyboard.down - Codes(s.keyboard.held)
  {
    var s1 := Apply(s, BeginClose);
    var s2 := Apply(s1, ReaderEnds(false));
    var s3 := Apply(s2, BeginDrain);
    var s4 := Apply(s3, LaneCancelled(false));
    assert s4.keyboard.task == Ended && s4.keyboard.held == s.keyboard.held && s4.keyboard.down == s.keyboard.down;
    FirstMove(s4, LetGo, []);
    FirstMove(s3, LaneCancelled(false), [LetGo] + []);
    FirstMove(s2, BeginDrain, [LaneCancelled(false)] + ([LetGo] + []));
    FirstMove(s1, ReaderEnds(false), [BeginDrain] + ([LaneCancelled(false)] + ([LetGo] + [])));
    FirstMove(s, BeginClose, [ReaderEnds(false)] + ([BeginDrain] + ([LaneCancelled(false)] + ([LetGo] + []))));
  }

  /** The close cuts off a key-up that is on its way: the key stays down in Android. */
  lemma CutOffKeyStaysDown()
    ensures exists moves :: AllEnabled(Fresh(1), moves) && Run(Fresh(1), moves).phase == Closed
                            && Run(Fresh(1), moves).keyboard.down == {Name("Enter")}
  {
    var tag, code := KeyTag("Enter"), Name("Enter");
    var down, up := KeyMessage(tag, Down, false), KeyMessage(tag, Up, false);
    var s0 := Fresh(1);
    var s1 := Apply(s0, down);
    assert s1.keyboard == Keyboard([Entry(tag, code)], Sending(KeyEvent(Down, code)), {}, {});
    var s2 := Apply(s1, KeySent(true));
    assert s2.keyboard == Keyboard([Entry(tag, code)], Waiting, {code}, {});
    var s3 := Apply(s2, up);
    assert s3.keyboard == Keyboard([], Sending(KeyEvent(Up, code)), {code}, {});
    CloseCutsOff(s3);
    FirstMove(s2, up, CloseMoves());
    FirstMove(s1, KeySent(true), [up] + CloseMoves());
    FirstMove(s0, down, [KeySent(true)] + ([up] + CloseMoves()));
  }

  // Pastes

  /** While the text is pasted the only modifiers of the session that are down are those whose release
      did not arrive. */
  lemma NoModifierDuringAPaste(k: Keyboard)
    requires KeysInv(k) && k.task.Pasting?
    ensures forall c :: c in k.down && IsModifier(c) ==> c in k.task.missed || c in k.lost
  {
    forall c | c in k.down && IsModifier(c) && c !in k.lost ensures c in k.task.missed {
      assert c in Codes(k.held);
      assert c in Modifiers(k.held);
    }
  }

  /** `n` sends of the lane, all of which arrive. */
  function Pump(k: Keyboard, n: nat): Keyboard
    decreases n
  {
    if n == 0 || !InFlight(k.task) then k else Pump(FinishSend(k, true), n - 1)
  }

  function SetOf(s: seq<Code>): set<Code> {
    set c | c in s
  }

  lemma {:induction false} ReleaseAll(k: Keyboard, n: nat)
    requires k.task.Releasing? && k.task.at + n == |k.task.mods| && n > 0 && k.task.missed == {}
    ensures Pump(k, n).task == Pasting(k.task.mods, {}) && Pump(k, n).held == k.held
    ensures Pump(k, n).down == k.down - SetOf(k.task.mods[k.task.at..])
    decreases n
  {
    var at, mods := k.task.at, k.task.mods;
    assert mods[at..] == [mods[at]] + mods[at + 1..];
    assert SetOf(mods[at..]) == {mods[at]} + SetOf(mods[at + 1..]);
    if n > 1 {
      ReleaseAll(FinishSend(k, true), n - 1);
    } else {
      assert mods[at + 1..] == [];
    }
  }

  lemma {:induction false} RestoreAll(k: Keyboard, n: nat)
    requires k.task.Restoring? && k.task.at + n == |k.task.mods| && n > 0
    ensures Pump(k, n).task == (if k.task.ending then Ended else Waiting) && Pump(k, n).held == k.held
    ensures Pump(k, n).down == k.down + SetOf(k.task.mods[k.task.at..])
    decreases n
  {
    var at, mods := k.task.at, k.task.mods;
    assert mods[at..] == [mods[at]] + mods[at + 1..];
    assert SetOf(mods[at..]) == {mods[at]} + SetOf(mods[at + 1..]);
    if n > 1 {
      RestoreAll(FinishSend(k, true), n - 1);
    } else {
      assert mods[at + 1..] == [];
    }
  }

  /** The moves of a whole paste: the modifiers up, the text, the modifiers down. */
  function Released(k: Keyboard): Keyboard {
    Pump(StartPaste(k), |Modifiers(k.held)|)
  }

  function Pasted(k: Keyboard): Keyboard {
    Pump(ApplyKeys(Released(k), TextPasted), |Modifiers(k.held)|)
  }

  /** A paste whose sends arrive happens with every held modifier up, and afterwards exactly those are
      down again that the client holds; nothing else moved. */
  lemma PasteRestoresModifiers(k: Keyboard)
    requires k.task.Waiting?
    ensures Released(k).task.Pasting? && Released(k).down == k.down - SetOf(Modifiers(k.held))
    ensures Pasted(k).task.Waiting? && Pasted(k).held == k.held
    ensures Pasted(k).down == k.down + SetOf(Modifiers(k.held))
  {
    var mods := Modifiers(k.held);
    assert mods[0..] == mods;
    if mods != [] {
      ReleaseAll(StartPaste(k), |mods|);
      var r := Released(k);
      RestoreAll(ApplyKeys(r, TextPasted), |mods|);
      assert k.down - SetOf(mods) + SetOf(mods) == k.down + SetOf(mods);
    } else {
      assert SetOf(mods) == {};
      assert Released(k) == k.(task := Pasting([], {}));
      assert Pasted(k) == k;
    }
  }
}
