/** The daemon's side of the fingers: input.py's Pointers, and what they leave on the emulator's screen. */
module Pointers {
  import opened Wrappers
  import opened Gestures
  import opened Touches

  datatype Key = Touched(id: int) | Mouse

  /** A contact of the session: its emulator identifier and where it was last seen. */
  datatype Held = Held(identifier: int, x: real, y: real)

  type Contacts = map<Key, Held>

  /** The emulator: the next identifier of its input stream, the contacts that are down, and which of
      them this session asked for. */
  datatype Screen = Screen(next: int, owner: map<int, Key>, shown: map<int, Contact>)

  datatype World = World(contacts: Contacts, screen: Screen)

  /** Whether a point of this key makes a touch, and the identifier that it has. */
  predicate Taken(c: Contacts, key: Key, pressure: real) {
    key in c || (pressure > 0.0 && |c| < MAX_CONTACTS)
  }

  function IdentifierOf(c: Contacts, next: int, key: Key): int {
    if key in c then c[key].identifier else next
  }

  function TouchOf(c: Contacts, next: int, key: Key, x: real, y: real, pressure: real): Contact {
    BrowserContact(IdentifierOf(c, next, key), x, y, if pressure > 0.0 then pressure else 0.0)
  }

  function ContactsAfter(c: Contacts, next: int, key: Key, x: real, y: real, pressure: real): Contacts {
    if !Taken(c, key, pressure) then c
    else if pressure > 0.0 then c[key := Held(IdentifierOf(c, next, key), x, y)]
    else c - {key}
  }

  function NextAfter(c: Contacts, next: int, key: Key, pressure: real): int {
    if key !in c && Taken(c, key, pressure) then next + 1 else next
  }

  /** What the emulator shows after one touch: pressure 0 lifts it. */
  function Press(shown: map<int, Contact>, touch: Contact): map<int, Contact> {
    if touch.pressure == 0 then shown - {touch.identifier} else shown[touch.identifier := touch]
  }

  function ShowAll(shown: map<int, Contact>, touches: seq<Contact>): map<int, Contact>
    decreases |touches|
  {
    if touches == [] then shown else ShowAll(Press(shown, touches[0]), touches[1..])
  }

  /** One point from the browser to the screen. */
  function Take(w: World, key: Key, x: real, y: real, pressure: real): World {
    if !Taken(w.contacts, key, pressure) then w else
    var touch := TouchOf(w.contacts, w.screen.next, key, x, y, pressure);
    World(ContactsAfter(w.contacts, w.screen.next, key, x, y, pressure),
          Screen(NextAfter(w.contacts, w.screen.next, key, pressure), w.screen.owner[touch.identifier := key],
                 Press(w.screen.shown, touch)))
  }

  function TakeAll(w: World, points: seq<Point>): World
    decreases |points|
  {
    if points == [] then w else
    TakeAll(Take(w, Touched(points[0].id), points[0].x, points[0].y, points[0].pressure), points[1..])
  }

  // The session's contacts and the screen belong together

  ghost predicate Linked(w: World) {
    && (forall k :: k in w.contacts ==>
          && w.contacts[k].identifier in w.screen.owner && w.screen.owner[w.contacts[k].identifier] == k
          && w.contacts[k].identifier in w.screen.shown)
    && (forall i :: i in w.screen.owner ==> i < w.screen.next)
    && (forall i :: i in w.screen.owner && i in w.screen.shown ==>
          w.screen.owner[i] in w.contacts && w.contacts[w.screen.owner[i]].identifier == i)
  }

  /** Everything else on the screen is as it was. */
  ghost predicate OthersStay(w: World, v: World) {
    forall i :: i !in v.screen.owner && i < w.screen.next ==>
      && i !in w.screen.owner && (i in w.screen.shown <==> i in v.screen.shown)
      && (i in w.screen.shown ==> w.screen.shown[i] == v.screen.shown[i])
  }

  /** A contact of `w` is the same contact in `v`. */
  ghost predicate Same(w: World, v: World, k: Key)
    requires k in w.contacts && k in v.contacts
  {
    && v.contacts[k] == w.contacts[k]
    && (w.contacts[k].identifier in w.screen.shown && v.contacts[k].identifier in v.screen.shown)
    && v.screen.shown[v.contacts[k].identifier] == w.screen.shown[w.contacts[k].identifier]
  }

  /** The screen shows the key where the browser put it. */
  ghost predicate Shows(w: World, key: Key, x: real, y: real, pressure: real) {
    && key in w.contacts && w.contacts[key].x == x && w.contacts[key].y == y
    && w.contacts[key].identifier in w.screen.shown
    && w.screen.shown[w.contacts[key].identifier] == BrowserContact(w.contacts[key].identifier, x, y, pressure)
  }

  lemma TakeKeepsLinked(w: World, key: Key, x: real, y: real, pressure: real)
    requires Linked(w)
    ensures Linked(Take(w, key, x, y, pressure)) && OthersStay(w, Take(w, key, x, y, pressure))
    ensures w.screen.next <= Take(w, key, x, y, pressure).screen.next
    ensures w.screen.owner.Keys <= Take(w, key, x, y, pressure).screen.owner.Keys
  {
  }

  lemma TakeShows(w: World, key: Key, x: real, y: real, pressure: real)
    requires Linked(w) && pressure > 0.0 && (key in w.contacts || |w.contacts| < MAX_CONTACTS)
    ensures var v := Take(w, key, x, y, pressure);
            v.contacts.Keys == w.contacts.Keys + {key} && Shows(v, key, x, y, pressure)
  {
  }

  lemma TakeKeepsOthers(w: World, key: Key, x: real, y: real, pressure: real)
    requires Linked(w) && pressure > 0.0
    ensures forall k :: k in w.contacts && k != key ==>
              k in Take(w, key, x, y, pressure).contacts && Same(w, Take(w, key, x, y, pressure), k)
  {
    var i := IdentifierOf(w.contacts, w.screen.next, key);
    forall k | k in w.contacts && k != key ensures w.contacts[k].identifier != i {
      assert w.screen.owner[w.contacts[k].identifier] == k;
    }
  }

  lemma TakePresses(w: World, key: Key, x: real, y: real, pressure: real)
    requires Linked(w) && pressure > 0.0 && (key in w.contacts || |w.contacts| < MAX_CONTACTS)
    ensures var v := Take(w, key, x, y, pressure);
            && v.contacts.Keys == w.contacts.Keys + {key} && Shows(v, key, x, y, pressure)
            && forall k :: k in w.contacts && k != key ==> Same(w, v, k)
  {
    TakeShows(w, key, x, y, pressure);
    TakeKeepsOthers(w, key, x, y, pressure);
  }

  lemma TakeLifts(w: World, key: Key, x: real, y: real)
    requires Linked(w)
    ensures var v := Take(w, key, x, y, 0.0);
            && v.contacts.Keys == w.contacts.Keys - {key}
            && forall k :: k in w.contacts && k != key ==> Same(w, v, k)
  {
  }

  lemma {:induction false} TakeAllKeepsLinked(w: World, points: seq<Point>)
    requires Linked(w)
    ensures Linked(TakeAll(w, points)) && OthersStay(w, TakeAll(w, points))
    ensures w.screen.next <= TakeAll(w, points).screen.next
    ensures w.screen.owner.Keys <= TakeAll(w, points).screen.owner.Keys
    decreases |points|
  {
    if points != [] {
      var p := points[0];
      TakeKeepsLinked(w, Touched(p.id), p.x, p.y, p.pressure);
      TakeAllKeepsLinked(Take(w, Touched(p.id), p.x, p.y, p.pressure), points[1..]);
    }
  }

  lemma {:induction false} TakeAllAppend(w: World, a: seq<Point>, b: seq<Point>)
    ensures TakeAll(w, a + b) == TakeAll(TakeAll(w, a), b)
    decreases |a|
  {
    if a == [] {
      assert a + b == b;
    } else {
      assert (a + b)[1..] == a[1..] + b;
      TakeAllAppend(Take(w, Touched(a[0].id), a[0].x, a[0].y, a[0].pressure), a[1..], b);
    }
  }

  // A message that lists a table

  function KeysOf(t: Table): set<Key> {
    set f | f in t :: Touched(f.id)
  }

  /** The screen shows every finger of the table where the browser has it. */
  ghost predicate Exact(w: World, t: Table) {
    forall f :: f in t ==> Shows(w, Touched(f.id), f.x, f.y, f.pressure)
  }

  lemma ShowsStays(w: World, v: World, key: Key, x: real, y: real, pressure: real)
    requires Shows(w, key, x, y, pressure) && key in v.contacts && Same(w, v, key)
    ensures Shows(v, key, x, y, pressure)
  {
  }

  /** From `w` to `v` the keys of `t` were pressed and nothing else of the session changed. */
  ghost predicate Pressed(w: World, v: World, keys: set<Key>) {
    v.contacts.Keys == w.contacts.Keys + keys && KeptBut(w, v, keys)
  }

  ghost predicate KeptBut(w: World, v: World, keys: set<Key>) {
    forall k :: k in w.contacts && k !in keys ==> k in v.contacts && Same(w, v, k)
  }

  lemma KeptButTransitive(w: World, u: World, v: World, a: set<Key>, b: set<Key>)
    requires KeptBut(w, u, a) && KeptBut(u, v, b)
    ensures KeptBut(w, v, a + b)
  {
  }

  lemma TakeAllUnfolds(w: World, t: Table)
    requires t != []
    ensures TakeAll(w, Listing(t)) ==
            TakeAll(Take(w, Touched(t[0].id), t[0].x, t[0].y, t[0].pressure), Listing(t[1..]))
    ensures TakeAll(w, Lifts(t)) == TakeAll(Take(w, Touched(t[0].id), t[0].x, t[0].y, 0.0), Lifts(t[1..]))
  {
    assert Listing(t)[1..] == Listing(t[1..]);
    assert Lifts(t)[1..] == Lifts(t[1..]);
  }

  lemma KeysUnfold(t: Table)
    requires t != []
    ensures KeysOf(t) == {Touched(t[0].id)} + KeysOf(t[1..])
    ensures Valid(t) ==> Valid(t[1..]) && Touched(t[0].id) !in KeysOf(t[1..])
  {
    assert t == [t[0]] + t[1..];
  }

  lemma ExactCons(u: World, v: World, t: Table)
    requires t != [] && Shows(u, Touched(t[0].id), t[0].x, t[0].y, t[0].pressure)
    requires Exact(v, t[1..]) && KeptBut(u, v, KeysOf(t[1..])) && Touched(t[0].id) !in KeysOf(t[1..])
    ensures Exact(v, t)
  {
    assert t == [t[0]] + t[1..];
    ShowsStays(u, v, Touched(t[0].id), t[0].x, t[0].y, t[0].pressure);
  }

  ghost predicate Fits(w: World, t: Table) {
    Linked(w) && |w.contacts.Keys + KeysOf(t)| <= MAX_CONTACTS
  }

  lemma FirstOfAListing(w: World, t: Table)
    requires Fits(w, t) && Valid(t) && t != []
    ensures var u := Take(w, Touched(t[0].id), t[0].x, t[0].y, t[0].pressure);
            && Fits(u, t[1..]) && Pressed(w, u, {Touched(t[0].id)})
            && Shows(u, Touched(t[0].id), t[0].x, t[0].y, t[0].pressure)
  {
    var key := Touched(t[0].id);
    KeysUnfold(t);
    RoomForOne(w.contacts.Keys, KeysOf(t), key);
    PressesOne(w, key, t[0].x, t[0].y, t[0].pressure);
    RoomForRest(w, Take(w, key, t[0].x, t[0].y, t[0].pressure), t);
  }

  lemma RoomForOne(a: set<Key>, b: set<Key>, key: Key)
    requires key in b && |a + b| <= MAX_CONTACTS
    ensures key in a || |a| < MAX_CONTACTS
  {
    if key !in a {
      Smaller(a, a + b, key);
    }
  }

  lemma RoomForRest(w: World, u: World, t: Table)
    requires t != [] && |w.contacts.Keys + KeysOf(t)| <= MAX_CONTACTS
    requires Linked(u) && Pressed(w, u, {Touched(t[0].id)})
    ensures Fits(u, t[1..])
  {
    KeysUnfold(t);
    assert u.contacts.Keys + KeysOf(t[1..]) == w.contacts.Keys + KeysOf(t);
  }

  lemma PressedTransitive(w: World, u: World, v: World, a: set<Key>, b: set<Key>)
    requires Pressed(w, u, a) && Pressed(u, v, b)
    ensures Pressed(w, v, a + b)
  {
    KeptButTransitive(w, u, v, a, b);
  }

  lemma {:induction false} ListingPresses(w: World, t: Table)
    requires Fits(w, t) && Valid(t)
    ensures Pressed(w, TakeAll(w, Listing(t)), KeysOf(t))
    decreases |t|
  {
    if t == [] {
    } else {
      var key := Touched(t[0].id);
      var u := Take(w, key, t[0].x, t[0].y, t[0].pressure);
      KeysUnfold(t);
      TakeAllUnfolds(w, t);
      FirstOfAListing(w, t);
      ListingPresses(u, t[1..]);
      PressedTransitive(w, u, TakeAll(u, Listing(t[1..])), {key}, KeysOf(t[1..]));
    }
  }

  /** A listing brings exactly its fingers to the screen. */
  lemma {:induction false} ListingShows(w: World, t: Table)
    requires Fits(w, t) && Valid(t)
    ensures Exact(TakeAll(w, Listing(t)), t)
    decreases |t|
  {
    if t == [] {
    } else {
      var u := Take(w, Touched(t[0].id), t[0].x, t[0].y, t[0].pressure);
      KeysUnfold(t);
      TakeAllUnfolds(w, t);
      FirstOfAListing(w, t);
      ListingShows(u, t[1..]);
      ListingPresses(u, t[1..]);
      ExactCons(u, TakeAll(u, Listing(t[1..])), t);
    }
  }

  lemma PressesOne(w: World, key: Key, x: real, y: real, pressure: real)
    requires Linked(w) && pressure > 0.0 && (key in w.contacts || |w.contacts.Keys| < MAX_CONTACTS)
    ensures var v := Take(w, key, x, y, pressure);
            Linked(v) && Pressed(w, v, {key}) && Shows(v, key, x, y, pressure)
  {
    assert |w.contacts| == |w.contacts.Keys|;
    TakePresses(w, key, x, y, pressure);
    TakeKeepsLinked(w, key, x, y, pressure);
  }

  lemma Smaller<T>(a: set<T>, b: set<T>, x: T)
    requires a <= b && x in b && x !in a
    ensures |a| < |b|
  {
    assert |b| == |a| + |b - a|;
    assert x in b - a;
  }

  lemma {:induction false} LiftsLift(w: World, t: Table)
    requires Linked(w)
    ensures var v := TakeAll(w, Lifts(t));
            v.contacts.Keys == w.contacts.Keys - KeysOf(t) && KeptBut(w, v, KeysOf(t))
    decreases |t|
  {
    if t == [] {
    } else {
      var f, rest := t[0], t[1..];
      KeysUnfold(t);
      TakeAllUnfolds(w, t);
      var u := Take(w, Touched(f.id), f.x, f.y, 0.0);
      LiftsOne(w, Touched(f.id), f.x, f.y);
      LiftsLift(u, rest);
      KeptButTransitive(w, u, TakeAll(u, Lifts(rest)), {Touched(f.id)}, KeysOf(rest));
    }
  }

  lemma LiftsOne(w: World, key: Key, x: real, y: real)
    requires Linked(w)
    ensures var v := Take(w, key, x, y, 0.0);
            Linked(v) && v.contacts.Keys == w.contacts.Keys - {key} && KeptBut(w, v, {key})
  {
    TakeLifts(w, key, x, y);
    TakeKeepsLinked(w, key, x, y, 0.0);
  }

  // Release

  /** The lift of a contact where it was last seen. */
  function LiftTouch(h: Held): Contact {
    BrowserContact(h.identifier, h.x, h.y, 0.0)
  }

  /** A lift names its contact, at the place where it was last seen. */
  lemma LiftIsWhereItWas(h: Held)
    ensures LiftTouch(h).identifier == h.identifier && There(LiftTouch(h), h.x, h.y) && LiftTouch(h).pressure == 0
  {
    BrowserContactIsThere(h.identifier, h.x, h.y, 0.0);
  }

  ghost predicate LiftsExactly(touches: seq<Contact>, c: Contacts) {
    && (forall i :: 0 <= i < |touches| ==> touches[i].pressure == 0)
    && (forall k :: k in c ==> LiftTouch(c[k]) in touches)
    && (forall i :: 0 <= i < |touches| ==> LiftsOneOf(touches[i], c))
  }

  ghost predicate LiftsOneOf(touch: Contact, c: Contacts) {
    exists k :: k in c && touch == LiftTouch(c[k])
  }

  lemma {:induction false} ShowLifts(shown: map<int, Contact>, touches: seq<Contact>)
    requires forall i :: 0 <= i < |touches| ==> touches[i].pressure == 0
    ensures ShowAll(shown, touches) == shown - IdentifiersOf(touches)
    decreases |touches|
  {
    if touches != [] {
      ShowLifts(Press(shown, touches[0]), touches[1..]);
      assert touches == [touches[0]] + touches[1..];
      assert IdentifiersOf(touches) == {touches[0].identifier} + IdentifiersOf(touches[1..]);
    }
  }

  function IdentifiersOf(touches: seq<Contact>): set<int> {
    set t | t in touches :: t.identifier
  }

  lemma LiftsOfAll(c: Contacts, touches: seq<Contact>, k: Key)
    requires LiftsExactly(touches, c) && k in c
    ensures c[k].identifier in IdentifiersOf(touches)
  {
    var t := LiftTouch(c[k]);
    assert t in touches;
    assert t.identifier == c[k].identifier;
  }

  lemma LiftsOfNoOther(c: Contacts, touches: seq<Contact>, t: Contact) returns (k: Key)
    requires LiftsExactly(touches, c) && t in touches
    ensures k in c && t.identifier == c[k].identifier
  {
    var i :| 0 <= i < |touches| && touches[i] == t;
    assert LiftsOneOf(touches[i], c);
    k :| k in c && t == LiftTouch(c[k]);
  }

  lemma LiftedIdentifiers(w: World, touches: seq<Contact>)
    requires Linked(w) && LiftsExactly(touches, w.contacts)
    ensures forall k :: k in w.contacts ==> w.contacts[k].identifier in IdentifiersOf(touches)
    ensures IdentifiersOf(touches) <= w.screen.owner.Keys
  {
    forall k | k in w.contacts ensures w.contacts[k].identifier in IdentifiersOf(touches) {
      LiftsOfAll(w.contacts, touches, k);
    }
    forall t | t in touches ensures t.identifier in w.screen.owner {
      var k := LiftsOfNoOther(w.contacts, touches, t);
    }
  }

  /** After a release the screen shows nothing of this session, and everything of the others. */
  lemma ReleaseLeavesNothing(w: World, touches: seq<Contact>)
    requires Linked(w) && LiftsExactly(touches, w.contacts)
    ensures var shown := ShowAll(w.screen.shown, touches);
            && (forall i :: i in w.screen.owner ==> i !in shown)
            && (forall i :: i !in w.screen.owner && i in w.screen.shown ==> i in shown && shown[i] == w.screen.shown[i])
  {
    LiftedIdentifiers(w, touches);
    ShowLifts(w.screen.shown, touches);
  }

  // The class

  /** The identifiers of one input stream (grpc_client.py): no gesture gets one twice. */
  class Identifiers {
    var next: int

    constructor ()
      ensures next == 1
    {
      next := 1;
    }

    method New() returns (identifier: int)
      modifies this
      ensures identifier == old(next) && next == old(next) + 1
    {
      identifier := next;
      next := next + 1;
    }
  }

  /** The contacts, the next identifier and the touches after a list of points. */
  function ContactsOf(c: Contacts, next: int, points: seq<(Key, Point)>): (Contacts, int, seq<Contact>)
    decreases |points|
  {
    if points == [] then (c, next, []) else
    var (before, n, touches) := ContactsOf(c, next, points[..|points| - 1]);
    var (key, p) := points[|points| - 1];
    (ContactsAfter(before, n, key, p.x, p.y, p.pressure), NextAfter(before, n, key, p.pressure),
     if Taken(before, key, p.pressure) then touches + [TouchOf(before, n, key, p.x, p.y, p.pressure)] else touches)
  }

  /** The keys of a dictionary in the order of their insertion, after one point. */
  function OrderAfter(order: seq<Key>, c: Contacts, key: Key, pressure: real): seq<Key> {
    if !Taken(c, key, pressure) then order
    else if pressure > 0.0 then (if key in c then order else order + [key])
    else Drop(order, key)
  }

  function Drop(order: seq<Key>, key: Key): (rest: seq<Key>)
    ensures forall k :: k in rest <==> k in order && k != key
    ensures forall i :: 0 <= i < |rest| ==> rest[i] in order
    ensures Distinct(order) ==> Distinct(rest)
  {
    if order == [] then [] else
    assert order == [order[0]] + order[1..];
    (if order[0] == key then [] else [order[0]]) + Drop(order[1..], key)
  }

  predicate Distinct(order: seq<Key>) {
    forall i, j :: 0 <= i < j < |order| ==> order[i] != order[j]
  }

  function OrderOf(order: seq<Key>, c: Contacts, next: int, points: seq<(Key, Point)>): seq<Key>
    decreases |points|
  {
    if points == [] then order else
    var n := |points| - 1;
    var (before, _, _) := ContactsOf(c, next, points[..n]);
    OrderAfter(OrderOf(order, c, next, points[..n]), before, points[n].0, points[n].1.pressure)
  }

  lemma OneMorePoint(order: seq<Key>, c: Contacts, next: int, points: seq<(Key, Point)>, i: nat)
    requires i < |points|
    ensures var (before, n, touches) := ContactsOf(c, next, points[..i]);
            var (key, p) := points[i];
            && OrderOf(order, c, next, points[..i + 1]) ==
               OrderAfter(OrderOf(order, c, next, points[..i]), before, key, p.pressure)
            && ContactsOf(c, next, points[..i + 1]) ==
               (ContactsAfter(before, n, key, p.x, p.y, p.pressure), NextAfter(before, n, key, p.pressure),
                if Taken(before, key, p.pressure) then touches + [TouchOf(before, n, key, p.x, p.y, p.pressure)] else touches)
  {
    assert points[..i + 1][..i] == points[..i];
  }

  /** The order lists the keys, each once. */
  ghost predicate Lists(order: seq<Key>, c: Contacts) {
    Distinct(order) && forall k :: k in order <==> k in c
  }

  lemma OrderLists(order: seq<Key>, c: Contacts, next: int, key: Key, x: real, y: real, pressure: real)
    requires Lists(order, c)
    ensures Lists(OrderAfter(order, c, key, pressure), ContactsAfter(c, next, key, x, y, pressure))
  {
  }

  function LiftsInOrder(order: seq<Key>, c: Contacts): (touches: seq<Contact>)
    requires forall k :: k in order ==> k in c
    ensures |touches| == |order| && forall i :: 0 <= i < |touches| ==> touches[i] == LiftTouch(c[order[i]])
  {
    seq(|order|, i requires 0 <= i < |order| => LiftTouch(c[order[i]]))
  }

  lemma LiftIsOne(c: Contacts, k: Key)
    requires k in c
    ensures LiftsOneOf(LiftTouch(c[k]), c) && LiftTouch(c[k]).pressure == 0
  {
  }

  lemma OrderedLiftsLiftExactly(order: seq<Key>, c: Contacts)
    requires Lists(order, c)
    ensures LiftsExactly(LiftsInOrder(order, c), c)
  {
    var touches := LiftsInOrder(order, c);
    forall i | 0 <= i < |touches| ensures touches[i].pressure == 0 && LiftsOneOf(touches[i], c) {
      assert order[i] in c;
      LiftIsOne(c, order[i]);
    }
    forall k | k in c ensures LiftTouch(c[k]) in touches {
      var i :| 0 <= i < |order| && order[i] == k;
      assert touches[i] == LiftTouch(c[k]);
    }
  }

  method LiftAll(order: seq<Key>, c: Contacts) returns (touches: seq<Contact>)
    requires forall k :: k in order ==> k in c
    ensures touches == LiftsInOrder(order, c)
  {
    touches := [];
    for i := 0 to |order|
      invariant |touches| == i && forall j :: 0 <= j < i ==> touches[j] == LiftTouch(c[order[j]])
    {
      assert order[i] in c;
      touches := touches + [LiftTouch(c[order[i]])];
    }
  }

  function Keyed(points: seq<Point>): (m: seq<(Key, Point)>)
    ensures |m| == |points| && forall i :: 0 <= i < |m| ==> m[i] == (Touched(points[i].id), points[i])
  {
    seq(|points|, i requires 0 <= i < |points| => (Touched(points[i].id), points[i]))
  }

  lemma {:induction false} ShowAllAppend(shown: map<int, Contact>, touches: seq<Contact>, t: Contact)
    ensures ShowAll(shown, touches + [t]) == Press(ShowAll(shown, touches), t)
    decreases |touches|
  {
    if touches == [] {
      assert (touches + [t])[1..] == [];
    } else {
      assert (touches + [t])[1..] == touches[1..] + [t];
      ShowAllAppend(Press(shown, touches[0]), touches[1..], t);
    }
  }

  /** One event for a whole message does to the screen what its points do one after another. */
  lemma {:induction false} OneEventForAMessage(w: World, points: seq<Point>)
    ensures var (contacts, next, touches) := ContactsOf(w.contacts, w.screen.next, Keyed(points));
            var v := TakeAll(w, points);
            v.contacts == contacts && v.screen.next == next && v.screen.shown == ShowAll(w.screen.shown, touches)
    decreases |points|
  {
    if points != [] {
      var n := |points| - 1;
      var p := points[n];
      assert points == points[..n] + [p];
      assert Keyed(points)[..n] == Keyed(points[..n]);
      OneEventForAMessage(w, points[..n]);
      TakeAllAppend(w, points[..n], [p]);
      var u := TakeAll(w, points[..n]);
      assert TakeAll(u, [p]) == Take(u, Touched(p.id), p.x, p.y, p.pressure);
      var (contacts, next, touches) := ContactsOf(w.contacts, w.screen.next, Keyed(points[..n]));
      ShowAllAppend(w.screen.shown, touches, TouchOf(contacts, next, Touched(p.id), p.x, p.y, p.pressure));
    }
  }

  /** The left button of the mouse as a finger. */
  function LeftButton(x: real, y: real, left: bool): seq<(Key, Point)> {
    [(Mouse, Point(0, x, y, if left then 1.0 else 0.0))]
  }

  /** A mouse message with the left button down is one touch at the mouse, fully pressed, if the session has room for
      it; without the button it lifts what the mouse had pressed and is nothing otherwise. */
  lemma MouseIsAFinger(c: Contacts, next: int, x: real, y: real, left: bool)
    ensures
      var (contacts, n, touches) := ContactsOf(c, next, LeftButton(x, y, left));
      && (Mouse in contacts <==> left && (Mouse in c || |c| < 10))
      && (forall k :: k != Mouse ==> (k in contacts <==> k in c) && (k in c ==> contacts[k] == c[k]))
      && |touches| == (if Mouse in c || (left && |c| < 10) then 1 else 0)
      && (touches != [] ==> There(touches[0], x, y) && touches[0].pressure == if left then 1024 else 0)
      && (touches != [] && Mouse in c ==> touches[0].identifier == c[Mouse].identifier)
      && (Mouse in contacts ==> contacts[Mouse] == Held(touches[0].identifier, x, y))
  {
    var points := LeftButton(x, y, left);
    assert points[..0] == [];
    assert ContactsOf(c, next, points[..0]) == (c, next, []);
    BrowserContactIsThere(IdentifierOf(c, next, Mouse), x, y, if left then 1.0 else 0.0);
  }

  class Pointers {
    var contacts: Contacts
    var order: seq<Key>
    var right: bool
    const identifiers: Identifiers

    /** `order` is the insertion order of the dictionary `contacts`. */
    ghost predicate Valid()
      reads this
    {
      Lists(order, contacts)
    }

    constructor (identifiers: Identifiers)
      ensures Valid() && contacts == map[] && order == [] && !right && this.identifiers == identifiers
    {
      contacts, order, right, this.identifiers := map[], [], false, identifiers;
    }

    method TakePoint(key: Key, x: real, y: real, pressure: real) returns (touch: Option<Contact>)
      requires Valid()
      modifies this`contacts, this`order, identifiers
      ensures Valid() && order == OrderAfter(old(order), old(contacts), key, pressure)
      ensures contacts == ContactsAfter(old(contacts), old(identifiers.next), key, x, y, pressure)
      ensures identifiers.next == NextAfter(old(contacts), old(identifiers.next), key, pressure)
      ensures touch == if Taken(old(contacts), key, pressure)
                       then Some(TouchOf(old(contacts), old(identifiers.next), key, x, y, pressure)) else None
    {
      OrderLists(order, contacts, identifiers.next, key, x, y, pressure);
      if pressure <= 0.0 {
        if key !in contacts {
          return None;
        }
        var known := contacts[key];
        contacts, order := contacts - {key}, Drop(order, key);
        return Some(BrowserContact(known.identifier, x, y, 0.0));
      }
      var identifier;
      if key in contacts {
        identifier := contacts[key].identifier;
      } else {
        if |contacts| >= MAX_CONTACTS {
          return None;
        }
        identifier := identifiers.New();
        order := order + [key];
      }
      contacts := contacts[key := Held(identifier, x, y)];
      touch := Some(BrowserContact(identifier, x, y, pressure));
    }

    method TakeMessage(points: seq<(Key, Point)>) returns (touches: seq<Contact>)
      requires Valid()
      modifies this`contacts, this`order, identifiers
      ensures Valid() && order == OrderOf(old(order), old(contacts), old(identifiers.next), points)
      ensures (contacts, identifiers.next, touches) == ContactsOf(old(contacts), old(identifiers.next), points)
    {
      touches := [];
      for i := 0 to |points|
        invariant Valid()
        invariant order == OrderOf(old(order), old(contacts), old(identifiers.next), points[..i])
        invariant (contacts, identifiers.next, touches) == ContactsOf(old(contacts), old(identifiers.next), points[..i])
      {
        var (key, p) := points[i];
        OneMorePoint(old(order), old(contacts), old(identifiers.next), points, i);
        var touch := TakePoint(key, p.x, p.y, p.pressure);
        touches := if touch.Some? then touches + [touch.value] else touches;
      }
      assert points[..|points|] == points;
    }

    /** The left button is a finger; the right one is Back, once for each press. */
    method TakeMouse(x: real, y: real, left: bool, rightDown: bool) returns (touches: seq<Contact>, back: bool)
      requires Valid()
      modifies this, identifiers
      ensures Valid()
      ensures (contacts, identifiers.next, touches) ==
              ContactsOf(old(contacts), old(identifiers.next), LeftButton(x, y, left))
      ensures right == rightDown && (back <==> rightDown && !old(right))
    {
      touches := TakeMessage(LeftButton(x, y, left));
      back := rightDown && !right;
      right := rightDown;
    }

    /** Lifts every contact where it was last seen, in the order of the dictionary. */
    method Release() returns (touches: seq<Contact>)
      requires Valid()
      modifies this
      ensures Valid() && contacts == map[] && order == [] && !right
      ensures touches == LiftsInOrder(old(order), old(contacts))
      ensures LiftsExactly(touches, old(contacts))
    {
      OrderedLiftsLiftExactly(order, contacts);
      touches := LiftAll(order, contacts);
      Forget();
    }

    method Forget()
      modifies this
      ensures Valid() && contacts == map[] && order == [] && !right
    {
      contacts, order, right := map[], [], false;
    }
  }
}
