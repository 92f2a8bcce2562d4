/** Touch gestures as lists of steps, over reals; `round` is Python's, to the even neighbour. */
module Gestures {
  const WIDTH := 1080
  const HEIGHT := 1920
  const PRESSURE := 1024
  const TAP_HOLD := 0.05
  const FRAMES_PER_SECOND := 60.0
  const WHEEL_PX := 1.4
  const WHEEL_MOVE := 0.12
  const WHEEL_HOLD := 0.08
  const MAX_WHEEL_PX := 1000.0
  const MIN_WHEEL_PX := 30.0

  function Round(x: real): int {
    var low := x.Floor;
    var rest := x - low as real;
    if rest < 0.5 || (rest == 0.5 && low % 2 == 0) then low else low + 1
  }

  function Clip(size: int, n: int): int {
    if n < 0 then 0 else if n > size - 1 then size - 1 else n
  }

  function Clamp(x: real, y: real): (int, int) {
    (Clip(WIDTH, Round(x)), Clip(HEIGHT, Round(y)))
  }

  datatype Contact = Contact(x: int, y: int, identifier: int, pressure: int)

  datatype Step = Step(delay: real, touch: Contact)

  function Touch(identifier: int, x: real, y: real, down: bool): Contact {
    var (cx, cy) := Clamp(x, y);
    Contact(cx, cy, identifier, if down then PRESSURE else 0)
  }

  /** A touch point of a browser; pressure 0 is a lift. */
  function BrowserContact(identifier: int, x: real, y: real, pressure: real): (c: Contact)
    ensures c.pressure == 0 <==> pressure <= 0.0
    ensures 0 <= c.x < WIDTH && 0 <= c.y < HEIGHT && 0 <= c.pressure <= PRESSURE
  {
    var (cx, cy) := Clamp(x, y);
    var p := if pressure > 0.0 then Round((if pressure < 1.0 then pressure else 1.0) * PRESSURE as real) else 0;
    Contact(cx, cy, identifier, if pressure > 0.0 && p < 1 then 1 else p)
  }

  // Rounding

  lemma RoundIsNearest(x: real)
    ensures -0.5 <= Round(x) as real - x <= 0.5
    ensures (Round(x) as real - x == 0.5 || Round(x) as real - x == -0.5) ==> Round(x) % 2 == 0
  {
  }

  lemma RoundIsMonotone(x: real, y: real)
    requires x <= y
    ensures Round(x) <= Round(y)
  {
    assert x.Floor <= y.Floor;
  }

  lemma ClampIsMonotone(x1: real, y1: real, x2: real, y2: real)
    ensures x1 <= x2 ==> Clamp(x1, y1).0 <= Clamp(x2, y2).0
    ensures y1 <= y2 ==> Clamp(x1, y1).1 <= Clamp(x2, y2).1
  {
    if x1 <= x2 { RoundIsMonotone(x1, x2); }
    if y1 <= y2 { RoundIsMonotone(y1, y2); }
  }

  /** The nearest of the pixels 0 to `last`. */
  predicate OnPixel(n: int, x: real, last: int) {
    && (x < 0.0 ==> n == 0)
    && (x > last as real ==> n == last)
    && (0.0 <= x <= last as real ==> 0 <= n <= last && -0.5 <= n as real - x <= 0.5)
  }

  /** A contact at a point of the 1080x1920 display, or at its edge for a point outside. */
  predicate There(c: Contact, x: real, y: real) {
    OnPixel(c.x, x, 1079) && OnPixel(c.y, y, 1919)
  }

  /** Up without pressure, fully down at 1, and in between as hard as asked to within one of 1024 units. */
  predicate PressedAs(c: Contact, pressure: real) {
    && (pressure <= 0.0 ==> c.pressure == 0)
    && (pressure >= 1.0 ==> c.pressure == 1024)
    && (0.0 < pressure < 1.0 ==> 1 <= c.pressure <= 1024 && -1.0 < c.pressure as real - pressure * 1024.0 < 1.0)
  }

  lemma ClipIsOnPixel(x: real, size: int)
    requires size >= 1
    ensures OnPixel(Clip(size, Round(x)), x, size - 1)
  {
    RoundIsNearest(x);
    if x < 0.0 {
      RoundIsMonotone(x, 0.0);
    } else if x > (size - 1) as real {
      RoundIsMonotone((size - 1) as real, x);
    } else {
      RoundIsMonotone(0.0, x);
      RoundIsMonotone(x, (size - 1) as real);
    }
  }

  /** A finger of the browser is shown on the pixel where it is, as hard as it presses. */
  lemma BrowserContactIsThere(identifier: int, x: real, y: real, pressure: real)
    ensures
      var c := BrowserContact(identifier, x, y, pressure);
      c.identifier == identifier && There(c, x, y) && PressedAs(c, pressure)
  {
    ClipIsOnPixel(x, WIDTH);
    ClipIsOnPixel(y, HEIGHT);
    RoundIsNearest(pressure * 1024.0);
    if 0.0 < pressure < 1.0 {
      RoundIsMonotone(0.0, pressure * 1024.0);
      RoundIsMonotone(pressure * 1024.0, 1024.0);
    }
  }

  /** A contact of a gesture is at its point, fully down or up. */
  lemma TouchIsThere(identifier: int, x: real, y: real, down: bool)
    ensures
      var c := Touch(identifier, x, y, down);
      c.identifier == identifier && There(c, x, y) && c.pressure == if down then 1024 else 0
  {
    ClipIsOnPixel(x, WIDTH);
    ClipIsOnPixel(y, HEIGHT);
  }

  // The gestures

  function Tap(identifier: int, x: real, y: real): seq<Step> {
    [Step(0.0, Touch(identifier, x, y, true)), Step(TAP_HOLD, Touch(identifier, x, y, false))]
  }

  function LongPress(identifier: int, x: real, y: real, durationMs: nat): seq<Step> {
    [Step(0.0, Touch(identifier, x, y, true)), Step(durationMs as real / 1000.0, Touch(identifier, x, y, false))]
  }

  function Moves(duration: real): (moves: int)
    ensures moves >= 1
  {
    var n := Round(duration * FRAMES_PER_SECOND);
    if n > 1 then n else 1
  }

  /** The point `i` of `moves` on the way from `a` to `a + d`. */
  function Along(a: real, d: real, i: nat, moves: int): real
    requires moves >= 1
  {
    a + d * (i as real / moves as real)
  }

  /** A straight drag: a press at the start, `moves` points `interval` apart, and a lift `hold` later. */
  datatype Path = Path(identifier: int, x: real, y: real, dx: real, dy: real, moves: int, interval: real, hold: real) {
    ghost predicate Valid() {
      moves >= 1 && interval >= 0.0 && hold >= 0.0
    }
  }

  /** The unrounded coordinate of step `k`; the lift is where the last move was. */
  function At(a: real, d: real, k: nat, moves: int): real
    requires moves >= 1
  {
    Along(a, d, if k <= moves then k else moves, moves)
  }

  function StepOf(p: Path, k: nat): Step
    requires p.moves >= 1
  {
    Step(if k == 0 then 0.0 else if k <= p.moves then p.interval else p.hold,
         Touch(p.identifier, At(p.x, p.dx, k, p.moves), At(p.y, p.dy, k, p.moves), k <= p.moves))
  }

  function Prefix(p: Path, n: nat): (steps: seq<Step>)
    requires p.moves >= 1
  {
    seq(n, k requires 0 <= k < n => StepOf(p, k))
  }

  function Drag(p: Path): seq<Step>
    requires p.moves >= 1
  {
    Prefix(p, p.moves + 2)
  }

  function SwipePath(identifier: int, x1: real, y1: real, x2: real, y2: real, durationMs: nat): Path {
    var duration := durationMs as real / 1000.0;
    Path(identifier, x1, y1, x2 - x1, y2 - y1, Moves(duration), duration / Moves(duration) as real, 0.0)
  }

  function Swipe(identifier: int, x1: real, y1: real, x2: real, y2: real, durationMs: nat): seq<Step> {
    Drag(SwipePath(identifier, x1, y1, x2, y2, durationMs))
  }

  function Bound(d: real): real {
    if d < -MAX_WHEEL_PX then -MAX_WHEEL_PX else if d > MAX_WHEEL_PX then MAX_WHEEL_PX else d
  }

  /** Shift `start` so that the move stays inside the frame. */
  function Fit(start: real, move: real, size: int): real {
    if !(-(size as real) < move < size as real) then start else
    var shifted := if start < -move then -move else start;
    if shifted > size as real - 1.0 - move then size as real - 1.0 - move else shifted
  }

  function WheelMoves(): int {
    Moves(WHEEL_MOVE)
  }

  /** The notch turned into a move of the finger the other way. */
  function Move(d: real): real {
    Bound(-d * WHEEL_PX)
  }

  predicate TooShort(mx: real, my: real) {
    mx * mx + my * my < MIN_WHEEL_PX * MIN_WHEEL_PX
  }

  function WheelPath(identifier: int, x: real, y: real, mx: real, my: real): Path {
    var (cx, cy) := Clamp(x, y);
    Path(identifier, Fit(cx as real, mx, WIDTH), Fit(cy as real, my, HEIGHT), mx, my,
         WheelMoves(), WHEEL_MOVE / WheelMoves() as real, WHEEL_HOLD)
  }

  function Wheel(identifier: int, x: real, y: real, dx: real, dy: real): seq<Step> {
    if TooShort(Move(dx), Move(dy)) then [] else Drag(WheelPath(identifier, x, y, Move(dx), Move(dy)))
  }

  // What makes a gesture one finger's gesture

  predicate InFrame(c: Contact) {
    0 <= c.x < WIDTH && 0 <= c.y < HEIGHT
  }

  /** One identifier; a press first, the only lift last; every point in the frame. */
  ghost predicate OneFinger(steps: seq<Step>, identifier: int) {
    && |steps| >= 2
    && forall i :: 0 <= i < |steps| ==>
         && steps[i].touch.identifier == identifier && InFrame(steps[i].touch) && steps[i].delay >= 0.0
         && (steps[i].touch.pressure == if i == |steps| - 1 then 0 else PRESSURE)
  }

  /** The points go one way in each direction. */
  ghost predicate Straight(steps: seq<Step>, dx: real, dy: real) {
    forall i, j :: 0 <= i <= j < |steps| ==>
      && (dx >= 0.0 ==> steps[i].touch.x <= steps[j].touch.x) && (dx <= 0.0 ==> steps[i].touch.x >= steps[j].touch.x)
      && (dy >= 0.0 ==> steps[i].touch.y <= steps[j].touch.y) && (dy <= 0.0 ==> steps[i].touch.y >= steps[j].touch.y)
  }

  function TotalDelay(steps: seq<Step>): real {
    if steps == [] then 0.0 else TotalDelay(steps[..|steps| - 1]) + steps[|steps| - 1].delay
  }

  lemma AlongIsMonotone(a: real, d: real, i: nat, j: nat, moves: int)
    requires moves >= 1 && i <= j
    ensures d >= 0.0 ==> Along(a, d, i, moves) <= Along(a, d, j, moves)
    ensures d <= 0.0 ==> Along(a, d, i, moves) >= Along(a, d, j, moves)
  {
    var f, g := i as real / moves as real, j as real / moves as real;
    assert f <= g;
    assert d * g - d * f == d * (g - f);
  }

  lemma AlongEnds(a: real, d: real, moves: int)
    requires moves >= 1
    ensures Along(a, d, 0, moves) == a && Along(a, d, moves, moves) == a + d
  {
  }

  lemma DragIsOneFinger(p: Path)
    requires p.Valid()
    ensures OneFinger(Drag(p), p.identifier)
  {
    var steps := Drag(p);
    forall i | 0 <= i < |steps| ensures steps[i] == StepOf(p, i) {}
  }

  lemma StepsGoOneWay(p: Path, i: nat, j: nat)
    requires p.moves >= 1 && i <= j
    ensures p.dx >= 0.0 ==> StepOf(p, i).touch.x <= StepOf(p, j).touch.x
    ensures p.dx <= 0.0 ==> StepOf(p, i).touch.x >= StepOf(p, j).touch.x
    ensures p.dy >= 0.0 ==> StepOf(p, i).touch.y <= StepOf(p, j).touch.y
    ensures p.dy <= 0.0 ==> StepOf(p, i).touch.y >= StepOf(p, j).touch.y
  {
    var m, n := if i <= p.moves then i else p.moves, if j <= p.moves then j else p.moves;
    AlongIsMonotone(p.x, p.dx, m, n, p.moves);
    AlongIsMonotone(p.y, p.dy, m, n, p.moves);
    var x1, y1 := At(p.x, p.dx, i, p.moves), At(p.y, p.dy, i, p.moves);
    var x2, y2 := At(p.x, p.dx, j, p.moves), At(p.y, p.dy, j, p.moves);
    ClampIsMonotone(x1, y1, x2, y2);
    ClampIsMonotone(x2, y2, x1, y1);
  }

  lemma DragIsStraight(p: Path)
    requires p.moves >= 1
    ensures Straight(Drag(p), p.dx, p.dy)
  {
    forall i: nat, j: nat | i <= j { StepsGoOneWay(p, i, j); }
  }

  lemma {:induction false} PrefixTakes(p: Path, n: nat)
    requires p.moves >= 1 && 1 <= n <= p.moves + 1
    ensures TotalDelay(Prefix(p, n)) == (n - 1) as real * p.interval
  {
    var steps := Prefix(p, n);
    assert steps[..n - 1] == Prefix(p, n - 1);
    if n > 1 { PrefixTakes(p, n - 1); }
  }

  lemma DragTakes(p: Path)
    requires p.moves >= 1
    ensures TotalDelay(Drag(p)) == p.moves as real * p.interval + p.hold
  {
    assert Drag(p)[..p.moves + 1] == Prefix(p, p.moves + 1);
    PrefixTakes(p, p.moves + 1);
  }

  /** A drag that reaches (x2, y2) and takes `total`, as one property of its steps. */
  ghost predicate GoesTo(p: Path, x2: real, y2: real, total: real) {
    && p.Valid() && p.x + p.dx == x2 && p.y + p.dy == y2
    && p.moves as real * p.interval + p.hold == total
  }

  lemma DragIsWellFormed(p: Path, x2: real, y2: real, total: real)
    requires GoesTo(p, x2, y2, total)
    ensures OneFinger(Drag(p), p.identifier) && Straight(Drag(p), p.dx, p.dy)
    ensures TotalDelay(Drag(p)) == total
    ensures Drag(p)[0].touch == Touch(p.identifier, p.x, p.y, true)
    ensures Drag(p)[|Drag(p)| - 1].touch == Touch(p.identifier, x2, y2, false)
  {
    DragIsOneFinger(p);
    DragIsStraight(p);
    DragTakes(p);
    Ends(p);
  }

  /** A swipe is one finger that goes straight from the start to the end in its time, about sixty points a second. */
  lemma SwipeIsWellFormed(identifier: int, x1: real, y1: real, x2: real, y2: real, durationMs: nat)
    ensures var steps := Swipe(identifier, x1, y1, x2, y2, durationMs);
            && OneFinger(steps, identifier) && Straight(steps, x2 - x1, y2 - y1)
            && TotalDelay(steps) == durationMs as real / 1000.0
            && steps[0].delay == 0.0 && There(steps[0].touch, x1, y1)
            && steps[|steps| - 1].delay == 0.0 && There(steps[|steps| - 1].touch, x2, y2)
            && -0.5 <= (|steps| - 2) as real - 0.06 * durationMs as real <= 1.0
  {
    RoundIsNearest(durationMs as real / 1000.0 * FRAMES_PER_SECOND);
    TouchIsThere(identifier, x1, y1, true);
    TouchIsThere(identifier, x2, y2, false);
    Ends(SwipePath(identifier, x1, y1, x2, y2, durationMs));
    SwipeTakesItsTime(identifier, x1, y1, x2, y2, durationMs);
    DragIsWellFormed(SwipePath(identifier, x1, y1, x2, y2, durationMs), x2, y2, durationMs as real / 1000.0);
  }

  lemma SwipeTakesItsTime(identifier: int, x1: real, y1: real, x2: real, y2: real, durationMs: nat)
    ensures GoesTo(SwipePath(identifier, x1, y1, x2, y2, durationMs), x2, y2, durationMs as real / 1000.0)
  {
    var duration := durationMs as real / 1000.0;
    Share(duration, Moves(duration));
  }

  /** A time shared out equally adds up again. */
  lemma Share(duration: real, moves: int)
    requires moves >= 1 && duration >= 0.0
    ensures duration / moves as real >= 0.0
    ensures moves as real * (duration / moves as real) == duration
  {
  }

  lemma Ends(p: Path)
    requires p.moves >= 1
    ensures |Drag(p)| == p.moves + 2
    ensures Drag(p)[0].touch == Touch(p.identifier, p.x, p.y, true)
    ensures Drag(p)[p.moves + 1].touch == Touch(p.identifier, p.x + p.dx, p.y + p.dy, false)
  {
    AlongEnds(p.x, p.dx, p.moves);
    AlongEnds(p.y, p.dy, p.moves);
  }

  /** A press and a lift at the one point: pressed at once, lifted after `hold`. */
  ghost predicate PressesAt(steps: seq<Step>, identifier: int, x: real, y: real, hold: real) {
    && |steps| == 2 && OneFinger(steps, identifier)
    && There(steps[0].touch, x, y) && There(steps[1].touch, x, y)
    && steps[0].delay == 0.0 && steps[1].delay == hold && TotalDelay(steps) == hold
  }

  lemma TapAndPressAreWellFormed(identifier: int, x: real, y: real, durationMs: nat)
    ensures PressesAt(Tap(identifier, x, y), identifier, x, y, 0.05)
    ensures PressesAt(LongPress(identifier, x, y, durationMs), identifier, x, y, durationMs as real / 1000.0)
  {
    TouchIsThere(identifier, x, y, true);
    TouchIsThere(identifier, x, y, false);
    PairTakes(Tap(identifier, x, y));
    PairTakes(LongPress(identifier, x, y, durationMs));
  }

  lemma PairTakes(steps: seq<Step>)
    requires |steps| == 2
    ensures TotalDelay(steps) == steps[0].delay + steps[1].delay
  {
    var first := steps[..1];
    assert TotalDelay(first) == TotalDelay([]) + steps[0].delay by { assert first[..0] == []; }
  }

  lemma FitStaysInside(start: real, move: real, size: int)
    requires 0.0 <= start <= size as real - 1.0 && -(size as real - 1.0) <= move <= size as real - 1.0
    ensures var f := Fit(start, move, size); 0.0 <= f <= size as real - 1.0 && 0.0 <= f + move <= size as real - 1.0
    ensures 0.0 <= start + move <= size as real - 1.0 ==> Fit(start, move, size) == start
  {
  }

  lemma AlongStaysInside(a: real, d: real, k: nat, moves: int, size: int)
    requires moves >= 1 && k <= moves && 0.0 <= a <= size as real - 1.0 && 0.0 <= a + d <= size as real - 1.0
    ensures 0.0 <= Along(a, d, k, moves) <= size as real - 1.0
  {
    AlongEnds(a, d, moves);
    AlongIsMonotone(a, d, 0, k, moves);
    AlongIsMonotone(a, d, k, moves, moves);
  }

  lemma InsideIsNotClipped(x: real, y: real)
    requires 0.0 <= x <= WIDTH as real - 1.0 && 0.0 <= y <= HEIGHT as real - 1.0
    ensures Clamp(x, y) == (Round(x), Round(y))
  {
    RoundIsMonotone(0.0, x);
    RoundIsMonotone(x, WIDTH as real - 1.0);
    RoundIsMonotone(0.0, y);
    RoundIsMonotone(y, HEIGHT as real - 1.0);
  }

  lemma WheelStaysInside(identifier: int, x: real, y: real, mx: real, my: real, k: nat)
    requires -MAX_WHEEL_PX <= mx <= MAX_WHEEL_PX && -MAX_WHEEL_PX <= my <= MAX_WHEEL_PX
    ensures var p := WheelPath(identifier, x, y, mx, my);
            var px, py := At(p.x, mx, k, p.moves), At(p.y, my, k, p.moves);
            && 0.0 <= px <= WIDTH as real - 1.0 && 0.0 <= py <= HEIGHT as real - 1.0
            && StepOf(p, k).touch.x == Round(px) && StepOf(p, k).touch.y == Round(py)
  {
    var p := WheelPath(identifier, x, y, mx, my);
    var (cx, cy) := Clamp(x, y);
    FitStaysInside(cx as real, mx, WIDTH);
    FitStaysInside(cy as real, my, HEIGHT);
    var n := if k <= p.moves then k else p.moves;
    AlongStaysInside(p.x, mx, n, p.moves, WIDTH);
    AlongStaysInside(p.y, my, n, p.moves, HEIGHT);
    InsideIsNotClipped(At(p.x, mx, k, p.moves), At(p.y, my, k, p.moves));
  }

  /** No point of a wheel drag is clipped at an edge: each is the rounded point of a path that lies in
      the frame as a whole. */
  lemma WheelPointsAreInside(identifier: int, x: real, y: real, dx: real, dy: real, k: nat)
    requires k < |Wheel(identifier, x, y, dx, dy)|
    ensures var p := WheelPath(identifier, x, y, Move(dx), Move(dy));
            var px, py := At(p.x, p.dx, k, p.moves), At(p.y, p.dy, k, p.moves);
            && 0.0 <= px <= WIDTH as real - 1.0 && 0.0 <= py <= HEIGHT as real - 1.0
            && Wheel(identifier, x, y, dx, dy)[k].touch.x == Round(px)
            && Wheel(identifier, x, y, dx, dy)[k].touch.y == Round(py)
  {
    WheelStaysInside(identifier, x, y, Move(dx), Move(dy), k);
  }

  lemma RoundedLength(a: real, d: real)
    ensures -1.0 <= (Round(a + d) - Round(a)) as real - d <= 1.0
  {
    RoundIsNearest(a);
    RoundIsNearest(a + d);
  }

  /** A wheel drag is one straight finger and keeps the whole length of the notch, up to the rounding of
      its two ends, wherever on the display it starts. */
  lemma WheelKeepsItsLength(identifier: int, x: real, y: real, dx: real, dy: real)
    requires !TooShort(Move(dx), Move(dy))
    ensures var steps := Wheel(identifier, x, y, dx, dy);
            && OneFinger(steps, identifier) && Straight(steps, -dx, -dy)
            && Travels(Move(dx), dx) && Travels(Move(dy), dy)
            && var last := |steps| - 1;
               && -1.0 <= (steps[last].touch.x - steps[0].touch.x) as real - Move(dx) <= 1.0
               && -1.0 <= (steps[last].touch.y - steps[0].touch.y) as real - Move(dy) <= 1.0
  {
    MoveTravels(dx);
    MoveTravels(dy);
    var p := WheelPath(identifier, x, y, Move(dx), Move(dy));
    DragIsOneFinger(p);
    DragIsStraight(p);
    WheelPointsAreInside(identifier, x, y, dx, dy, 0);
    WheelPointsAreInside(identifier, x, y, dx, dy, p.moves + 1);
    AlongEnds(p.x, p.dx, p.moves);
    AlongEnds(p.y, p.dy, p.moves);
    RoundedLength(p.x, p.dx);
    RoundedLength(p.y, p.dy);
  }

  /** How far the finger goes for a notch of `d`, in plain arithmetic: 1.4 pixels a unit the other way, at most 1000. */
  predicate Travels(move: real, d: real) {
    && (-714.0 <= d <= 714.0 ==> move == -1.4 * d)
    && (d > 0.0 ==> -1000.0 <= move < 0.0) && (d < 0.0 ==> 0.0 < move <= 1000.0)
    && (d >= 715.0 ==> move == -1000.0) && (d <= -715.0 ==> move == 1000.0)
  }

  lemma MoveTravels(d: real)
    ensures Travels(Move(d), d)
  {
  }

  /** A wheel drag ends after 0.2 seconds, the last 0.08 of them at rest. It starts where the pointer is if the
      whole drag fits on the display from there. */
  lemma WheelIsTimed(identifier: int, x: real, y: real, dx: real, dy: real)
    requires Wheel(identifier, x, y, dx, dy) != []
    ensures var steps := Wheel(identifier, x, y, dx, dy);
            && TotalDelay(steps) == 0.12 + 0.08 && steps[0].delay == 0.0 && steps[|steps| - 1].delay == 0.08
            && |steps| == 9
  {
    var p := WheelPath(identifier, x, y, Move(dx), Move(dy));
    assert WheelMoves() == 7;
    Share(WHEEL_MOVE, WheelMoves());
    DragTakes(p);
    Ends(p);
  }

  lemma WheelStartsAtThePointer(identifier: int, x: real, y: real, dx: real, dy: real)
    requires Wheel(identifier, x, y, dx, dy) != []
    requires 0.0 <= x <= 1079.0 && 0.0 <= y <= 1919.0
    requires 1.0 <= x + Move(dx) <= 1078.0 && 1.0 <= y + Move(dy) <= 1918.0
    ensures There(Wheel(identifier, x, y, dx, dy)[0].touch, x, y)
  {
    var (cx, cy) := Clamp(x, y);
    ClipIsOnPixel(x, WIDTH);
    ClipIsOnPixel(y, HEIGHT);
    FitStaysInside(cx as real, Move(dx), WIDTH);
    FitStaysInside(cy as real, Move(dy), HEIGHT);
    var p := WheelPath(identifier, x, y, Move(dx), Move(dy));
    assert p.x == cx as real && p.y == cy as real;
    Ends(p);
    RoundIsNearest(cx as real);
    RoundIsNearest(cy as real);
    InsideIsNotClipped(cx as real, cy as real);
  }

  /** A notch is too short for a drag exactly when the finger would go less than 30 pixels. */
  lemma WheelIffFarEnough(identifier: int, x: real, y: real, dx: real, dy: real)
    requires -714.0 <= dx <= 714.0 && -714.0 <= dy <= 714.0
    ensures Wheel(identifier, x, y, dx, dy) == [] <==> 1.96 * (dx * dx + dy * dy) < 900.0
  {
    MoveTravels(dx);
    MoveTravels(dy);
    WheelIsEmptyIff(identifier, x, y, dx, dy);
    SquaresOfMoves(Move(dx), Move(dy), dx, dy);
  }

  lemma SquaresOfMoves(mx: real, my: real, dx: real, dy: real)
    requires mx == -1.4 * dx && my == -1.4 * dy
    ensures TooShort(mx, my) <==> 1.96 * (dx * dx + dy * dy) < 900.0
  {
    SquareOfMove(mx, dx);
    SquareOfMove(my, dy);
    Distribute(dx * dx, dy * dy);
  }

  lemma WheelIsEmptyIff(identifier: int, x: real, y: real, dx: real, dy: real)
    ensures Wheel(identifier, x, y, dx, dy) == [] <==> TooShort(Move(dx), Move(dy))
  {
    if !TooShort(Move(dx), Move(dy)) {
      Ends(WheelPath(identifier, x, y, Move(dx), Move(dy)));
    }
  }

  lemma SquareOfMove(move: real, d: real)
    requires move == -1.4 * d
    ensures move * move == 1.96 * (d * d)
  {
  }

  lemma Distribute(a: real, b: real)
    ensures 1.96 * a + 1.96 * b == 1.96 * (a + b)
  {
  }

  // The loops of swipe and wheel

  function MoveStep(p: Path, i: nat): Step
    requires p.moves >= 1
  {
    Step(p.interval, Touch(p.identifier, Along(p.x, p.dx, i, p.moves), Along(p.y, p.dy, i, p.moves), true))
  }

  function LastStep(p: Path): Step {
    Step(p.hold, Touch(p.identifier, p.x + p.dx, p.y + p.dy, false))
  }

  lemma PrefixGrows(p: Path, n: nat)
    requires p.moves >= 1
    ensures Prefix(p, n + 1) == Prefix(p, n) + [StepOf(p, n)]
  {
  }

  lemma FirstAndLast(p: Path)
    requires p.moves >= 1
    ensures StepOf(p, 0) == Step(0.0, Touch(p.identifier, p.x, p.y, true))
    ensures StepOf(p, p.moves + 1) == LastStep(p)
  {
    AlongEnds(p.x, p.dx, p.moves);
    AlongEnds(p.y, p.dy, p.moves);
  }

  lemma PrefixMoves(p: Path, n: nat)
    requires 1 <= n <= p.moves
    ensures Prefix(p, n + 1) == Prefix(p, n) + [MoveStep(p, n)]
  {
    PrefixGrows(p, n);
  }

  lemma PrefixEnds(p: Path)
    requires p.moves >= 1
    ensures Prefix(p, 1) == [Step(0.0, Touch(p.identifier, p.x, p.y, true))]
    ensures Drag(p) == Prefix(p, p.moves + 1) + [LastStep(p)]
  {
    FirstAndLast(p);
    PrefixGrows(p, 0);
    PrefixGrows(p, p.moves + 1);
  }

  method PlanDrag(p: Path) returns (steps: seq<Step>)
    requires p.moves >= 1
    ensures steps == Drag(p)
  {
    PrefixEnds(p);
    steps := [Step(0.0, Touch(p.identifier, p.x, p.y, true))];
    for i := 1 to p.moves + 1
      invariant steps == Prefix(p, i)
    {
      PrefixMoves(p, i);
      steps := steps + [MoveStep(p, i)];
    }
    steps := steps + [LastStep(p)];
  }
}
