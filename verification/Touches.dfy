/** The browser's table of fingers: touches.js, and the pointer handlers that send its messages. */
module Touches {
  import opened Wrappers

  const MAX_CONTACTS := 10

  /** A finger of the table, in the order of the Map that holds it. */
  datatype Finger = Finger(pointer: int, id: int, x: real, y: real, pressure: real)

  type Table = seq<Finger>

  /** One point of a message; pressure 0 lifts it. */
  datatype Point = Point(id: int, x: real, y: real, pressure: real)

  function TouchPressure(pressure: real): (p: real)
    ensures 0.0 < p <= 1.0
    ensures 0.0 < pressure <= 1.0 ==> p == pressure
  {
    if pressure > 0.0 then (if pressure < 1.0 then pressure else 1.0) else 1.0
  }

  function IdsOf(t: Table): set<int> {
    set f | f in t :: f.id
  }

  ghost predicate Valid(t: Table) {
    && (forall i :: 0 <= i < |t| ==> 1 <= t[i].id <= MAX_CONTACTS && 0.0 < t[i].pressure <= 1.0)
    && (forall i, j :: 0 <= i < j < |t| ==> t[i].id != t[j].id && t[i].pointer != t[j].pointer)
  }

  /** The place of a pointer in the table, or the length of the table. */
  function IndexOf(t: Table, pointer: int): (i: nat)
    ensures i <= |t|
    ensures i < |t| ==> t[i].pointer == pointer
    ensures forall j :: 0 <= j < i ==> t[j].pointer != pointer
  {
    if t == [] || t[0].pointer == pointer then 0 else 1 + IndexOf(t[1..], pointer)
  }

  predicate Has(t: Table, pointer: int) {
    IndexOf(t, pointer) < |t|
  }

  /** The lowest id from `from` on that no finger uses. */
  function FreeFrom(t: Table, from: int): (id: Option<int>)
    requires 1 <= from <= MAX_CONTACTS + 1
    ensures id.Some? ==> from <= id.value <= MAX_CONTACTS && id.value !in IdsOf(t)
    ensures forall k :: from <= k <= MAX_CONTACTS && (id.Some? ==> k < id.value) ==> k in IdsOf(t)
    decreases MAX_CONTACTS - from
  {
    if from > MAX_CONTACTS then None else if from !in IdsOf(t) then Some(from) else FreeFrom(t, from + 1)
  }

  function FreeId(t: Table): Option<int> {
    FreeFrom(t, 1)
  }

  function PointOf(f: Finger): Point {
    Point(f.id, f.x, f.y, f.pressure)
  }

  function LiftOf(f: Finger): Point {
    Point(f.id, f.x, f.y, 0.0)
  }

  function Listing(t: Table): (m: seq<Point>)
    ensures |m| == |t| && forall i :: 0 <= i < |t| ==> m[i] == PointOf(t[i])
  {
    seq(|t|, i requires 0 <= i < |t| => PointOf(t[i]))
  }

  function Lifts(t: Table): (m: seq<Point>)
    ensures |m| == |t| && forall i :: 0 <= i < |t| ==> m[i] == LiftOf(t[i])
  {
    seq(|t|, i requires 0 <= i < |t| => LiftOf(t[i]))
  }

  /** Map.set: a known key keeps its place. */
  function Put(t: Table, f: Finger): Table {
    if Has(t, f.pointer) then t[IndexOf(t, f.pointer) := f] else t + [f]
  }

  function Without(t: Table, i: nat): Table
    requires i < |t|
  {
    t[..i] + t[i + 1..]
  }

  function Down(t: Table, pointer: int, x: real, y: real, pressure: real): Table {
    var id := FreeId(t);
    if id.None? then t else Put(t, Finger(pointer, id.value, x, y, pressure))
  }

  function Move(t: Table, pointer: int, x: real, y: real, pressure: real): Table {
    var i := IndexOf(t, pointer);
    if i == |t| then t else t[i := t[i].(x := x, y := y, pressure := pressure)]
  }

  function Lifted(f: Finger, at: Option<(real, real)>): Finger {
    if at.Some? then f.(x := at.value.0, y := at.value.1) else f
  }

  function Up(t: Table, pointer: int): Table {
    var i := IndexOf(t, pointer);
    if i == |t| then t else Without(t, i)
  }

  /** The fingers that stay, and the one that goes once more. */
  function UpMessage(t: Table, pointer: int, at: Option<(real, real)>): seq<Point>
    requires Has(t, pointer)
  {
    Listing(Up(t, pointer)) + [LiftOf(Lifted(t[IndexOf(t, pointer)], at))]
  }

  // The table keeps ids apart

  lemma {:induction false} DistinctIdsCount(t: Table)
    requires Valid(t)
    ensures |IdsOf(t)| == |t|
  {
    if t == [] {
      assert IdsOf(t) == {};
    } else {
      var n := |t| - 1;
      assert IdsOf(t) == IdsOf(t[..n]) + {t[n].id} by { assert t == t[..n] + [t[n]]; }
      assert t[n].id !in IdsOf(t[..n]);
      DistinctIdsCount(t[..n]);
    }
  }

  lemma {:induction false} RangeCount(s: set<int>, n: nat)
    requires forall k :: k in s ==> 1 <= k <= n
    ensures |s| <= n && (|s| == n ==> forall k :: 1 <= k <= n ==> k in s)
  {
    if n == 0 {
      assert forall k :: k !in s;
    } else if n in s {
      RangeCount(s - {n}, n - 1);
    } else {
      RangeCount(s, n - 1);
    }
  }

  lemma {:induction false} FullRangeCount(s: set<int>, n: nat)
    requires forall k :: 1 <= k <= n ==> k in s
    ensures |s| >= n
  {
    if n > 0 {
      FullRangeCount(s - {n}, n - 1);
    }
  }

  /** At most ten fingers; an id is free exactly when there are fewer. */
  lemma FreeIffRoom(t: Table)
    requires Valid(t)
    ensures |t| <= MAX_CONTACTS
    ensures FreeId(t).Some? <==> |t| < MAX_CONTACTS
  {
    DistinctIdsCount(t);
    RangeCount(IdsOf(t), MAX_CONTACTS);
    if FreeId(t).None? {
      FullRangeCount(IdsOf(t), MAX_CONTACTS);
    }
  }

  lemma PutKeepsValid(t: Table, f: Finger)
    requires Valid(t) && 1 <= f.id <= MAX_CONTACTS && f.id !in IdsOf(t) && 0.0 < f.pressure <= 1.0
    ensures Valid(Put(t, f))
    ensures f in Put(t, f)
    ensures !Has(t, f.pointer) ==> IdsOf(Put(t, f)) == IdsOf(t) + {f.id}
    ensures Has(t, f.pointer) ==> IdsOf(Put(t, f)) == IdsOf(t) - {t[IndexOf(t, f.pointer)].id} + {f.id}
  {
    var i := IndexOf(t, f.pointer);
    var u := Put(t, f);
    assert i < |t| ==> forall j :: 0 <= j < |t| && j != i ==> u[j] == t[j] && t[j].pointer != f.pointer;
    if i < |t| {
      forall id | id in IdsOf(t) - {t[i].id} + {f.id} ensures id in IdsOf(u) {
        if id == f.id {
          assert u[i] == f;
        } else {
          var j :| 0 <= j < |t| && t[j].id == id;
          assert u[j] == t[j];
        }
      }
      assert IdsOf(u) == IdsOf(t) - {t[i].id} + {f.id};
    }
  }

  lemma DownKeepsValid(t: Table, pointer: int, x: real, y: real, pressure: real)
    requires Valid(t) && 0.0 < pressure <= 1.0
    ensures Valid(Down(t, pointer, x, y, pressure))
  {
    if FreeId(t).Some? {
      PutKeepsValid(t, Finger(pointer, FreeId(t).value, x, y, pressure));
    }
  }

  lemma MoveKeepsValid(t: Table, pointer: int, x: real, y: real, pressure: real)
    requires Valid(t) && 0.0 < pressure <= 1.0
    ensures Valid(Move(t, pointer, x, y, pressure)) && IdsOf(Move(t, pointer, x, y, pressure)) == IdsOf(t)
  {
    var i := IndexOf(t, pointer);
    var u := Move(t, pointer, x, y, pressure);
    assert forall j :: 0 <= j < |t| ==> u[j].id == t[j].id && u[j].pointer == t[j].pointer;
    assert forall id :: id in IdsOf(t) ==> exists j :: 0 <= j < |t| && u[j].id == id;
  }

  lemma WithoutKeepsValid(t: Table, i: nat)
    requires Valid(t) && i < |t|
    ensures Valid(Without(t, i))
  {
    var u := Without(t, i);
    assert forall j :: 0 <= j < i ==> u[j] == t[j];
    assert forall j :: i <= j < |u| ==> u[j] == t[j + 1];
  }

  lemma WithoutDropsOneId(t: Table, i: nat)
    requires Valid(t) && i < |t|
    ensures IdsOf(Without(t, i)) == IdsOf(t) - {t[i].id}
  {
    assert t == t[..i] + [t[i]] + t[i + 1..];
    assert IdsOf(t) == IdsOf(t[..i]) + {t[i].id} + IdsOf(t[i + 1..]);
    assert t[i].id !in IdsOf(t[..i]) + IdsOf(t[i + 1..]);
    assert IdsOf(Without(t, i)) == IdsOf(t[..i]) + IdsOf(t[i + 1..]);
  }

  /** What the daemon takes: at most ten points, each id once. */
  ghost predicate Short(m: seq<Point>) {
    && |m| <= MAX_CONTACTS
    && (forall i, j :: 0 <= i < j < |m| ==> m[i].id != m[j].id)
    && (forall i :: 0 <= i < |m| ==> 1 <= m[i].id <= MAX_CONTACTS && 0.0 <= m[i].pressure <= 1.0)
  }

  lemma ListingIsShort(t: Table)
    requires Valid(t)
    ensures Short(Listing(t)) && Short(Lifts(t))
  {
    FreeIffRoom(t);
  }

  lemma OneMoreIsShort(m: seq<Point>, p: Point)
    requires Short(m) && |m| < MAX_CONTACTS && 1 <= p.id <= MAX_CONTACTS && 0.0 <= p.pressure <= 1.0
    requires forall i :: 0 <= i < |m| ==> m[i].id != p.id
    ensures Short(m + [p])
  {
  }

  lemma UpMessageIsShort(t: Table, pointer: int, at: Option<(real, real)>)
    requires Valid(t) && Has(t, pointer)
    ensures Short(UpMessage(t, pointer, at))
  {
    var i := IndexOf(t, pointer);
    var u := Without(t, i);
    WithoutKeepsValid(t, i);
    WithoutDropsOneId(t, i);
    ListingIsShort(u);
    FreeIffRoom(t);
    forall j | 0 <= j < |u| ensures Listing(u)[j].id != t[i].id {
      assert u[j].id in IdsOf(u);
    }
    OneMoreIsShort(Listing(u), LiftOf(Lifted(t[i], at)));
  }

  /** Every message of the table is one the daemon takes. */
  lemma MessagesAreShort(t: Table, pointer: int, x: real, y: real, pressure: real, at: Option<(real, real)>)
    requires Valid(t) && 0.0 < pressure <= 1.0
    ensures Short(Listing(t)) && Short(Lifts(t)) && Short(Listing(Down(t, pointer, x, y, pressure)))
    ensures Has(t, pointer) ==> Short(UpMessage(t, pointer, at))
  {
    ListingIsShort(t);
    DownKeepsValid(t, pointer, x, y, pressure);
    ListingIsShort(Down(t, pointer, x, y, pressure));
    if Has(t, pointer) {
      UpMessageIsShort(t, pointer, at);
    }
  }

  // The class

  class TouchTable {
    var contacts: Table

    constructor ()
      ensures contacts == []
    {
      contacts := [];
    }

    method FreshId() returns (id: Option<int>)
      ensures id == FreeId(contacts)
    {
      var used := IdsOf(contacts);
      for k := 1 to MAX_CONTACTS + 1
        invariant FreeFrom(contacts, k) == FreeId(contacts)
      {
        if k !in used {
          return Some(k);
        }
      }
      id := None;
    }

    method Press(pointer: int, x: real, y: real, pressure: real) returns (message: Option<seq<Point>>)
      modifies this
      ensures contacts == Down(old(contacts), pointer, x, y, pressure)
      ensures message == if FreeId(old(contacts)).None? then None else Some(Listing(contacts))
    {
      var id := FreshId();
      if id.None? {
        return None;
      }
      contacts := Put(contacts, Finger(pointer, id.value, x, y, pressure));
      message := Some(Listing(contacts));
    }

    method MoveTo(pointer: int, x: real, y: real, pressure: real) returns (changed: bool)
      modifies this
      ensures contacts == Move(old(contacts), pointer, x, y, pressure)
      ensures changed <==> contacts != old(contacts)
    {
      var i := IndexOf(contacts, pointer);
      if i == |contacts| || (contacts[i].x == x && contacts[i].y == y && contacts[i].pressure == pressure) {
        assert i < |contacts| ==> contacts[i := contacts[i].(x := x, y := y, pressure := pressure)] == contacts;
        return false;
      }
      ghost var before := contacts;
      contacts := contacts[i := contacts[i].(x := x, y := y, pressure := pressure)];
      assert contacts[i] != before[i];
      changed := true;
    }

    method Snapshot() returns (message: Option<seq<Point>>)
      ensures message == if contacts == [] then None else Some(Listing(contacts))
    {
      message := if |contacts| > 0 then Some(Listing(contacts)) else None;
    }

    method Lift(pointer: int, at: Option<(real, real)>) returns (message: Option<seq<Point>>)
      modifies this
      ensures contacts == Up(old(contacts), pointer)
      ensures message == if Has(old(contacts), pointer) then Some(UpMessage(old(contacts), pointer, at)) else None
    {
      var i := IndexOf(contacts, pointer);
      if i == |contacts| {
        return None;
      }
      var contact := contacts[i];
      contacts := Without(contacts, i);
      message := Some(Listing(contacts) + [LiftOf(Lifted(contact, at))]);
    }

    method ReleaseAll() returns (message: Option<seq<Point>>)
      modifies this
      ensures contacts == []
      ensures message == if old(contacts) == [] then None else Some(Lifts(old(contacts)))
    {
      if |contacts| == 0 {
        return None;
      }
      message := Some(Lifts(contacts));
      contacts := [];
    }
  }
}
