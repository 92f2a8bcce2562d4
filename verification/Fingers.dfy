/** From the browser's fingers to the emulator's contacts: input.js over the table, the daemon's
    contacts, and the screen, for whole runs. Messages arrive in order. */
module Fingers {
  import opened Wrappers
  import Gestures
  import opened Touches
  import opened Pointers

  /** `moved`: a move waits for the next animation frame. */
  datatype Hand = Hand(table: Table, moved: bool, world: World)

  datatype Step =
    | PointerDown(pointer: int, x: real, y: real, pressure: real)
    | PointerMove(pointer: int, x: real, y: real, pressure: real)
    | Frame
    | PointerUp(pointer: int, at: Option<(real, real)>)
    | LetGo
    | Others(next: int, shown: map<int, Gestures.Contact>)

  function Send(s: Hand, table: Table, message: seq<Point>): Hand {
    Hand(table, false, TakeAll(s.world, message))
  }

  /** The animation frame, or a press or lift that comes before it. */
  function Flush(s: Hand): Hand {
    if s.moved then Send(s, s.table, Listing(s.table)) else s
  }

  function DoDown(s: Hand, pointer: int, x: real, y: real, pressure: real): Hand {
    if FreeId(s.table).None? then s else
    var t := Down(s.table, pointer, x, y, TouchPressure(pressure));
    Send(s, t, Listing(t))
  }

  function DoMove(s: Hand, pointer: int, x: real, y: real, pressure: real): Hand {
    var t := Move(s.table, pointer, x, y, TouchPressure(pressure));
    s.(table := t, moved := s.moved || t != s.table)
  }

  function DoUp(s: Hand, pointer: int, at: Option<(real, real)>): Hand
    requires Has(s.table, pointer)
  {
    Send(s, Up(s.table, pointer), UpMessage(s.table, pointer, at))
  }

  function Do(s: Hand, step: Step): Hand {
    match step
    case PointerDown(pointer, x, y, pressure) => DoDown(Flush(s), pointer, x, y, pressure)
    case PointerMove(pointer, x, y, pressure) => DoMove(s, pointer, x, y, pressure)
    case Frame => Flush(s)
    case PointerUp(pointer, at) => if Has(s.table, pointer) then DoUp(Flush(s), pointer, at) else s
    case LetGo => Send(s, [], Lifts(s.table))
    case Others(next, shown) => s.(world := s.world.(screen := s.world.screen.(next := next, shown := shown)))
  }

  /** A browser presses a pointer that is up; other sessions leave this one's contacts alone. */
  ghost predicate Allowed(s: Hand, step: Step) {
    match step
    case PointerDown(pointer, _, _, _) => !Has(s.table, pointer)
    case Others(next, shown) =>
      && next >= s.world.screen.next
      && forall i :: i in s.world.screen.owner ==>
           && (i in shown <==> i in s.world.screen.shown)
           && (i in shown ==> shown[i] == s.world.screen.shown[i])
    case _ => true
  }

  /** The daemon holds a contact for each finger of the table, and for nothing else. */
  ghost predicate Matched(s: Hand) {
    s.world.contacts.Keys == KeysOf(s.table)
  }

  ghost predicate Inv(s: Hand) {
    Valid(s.table) && Linked(s.world) && Matched(s) && (!s.moved ==> Exact(s.world, s.table))
  }

  // Each step

  lemma KeysCount(t: Table)
    requires Valid(t)
    ensures |KeysOf(t)| == |t| <= MAX_CONTACTS
  {
    FreeIffRoom(t);
    KeysCountIds(t);
  }

  lemma {:induction false} KeysCountIds(t: Table)
    requires Valid(t)
    ensures |KeysOf(t)| == |t|
  {
    if t == [] {
      assert KeysOf(t) == {};
    } else {
      KeysUnfold(t);
      KeysCountIds(t[1..]);
    }
  }

  /** A listing of a table that covers what is down makes the three layers agree. */
  lemma SendListing(s: Hand, t: Table)
    requires Linked(s.world) && Valid(t) && s.world.contacts.Keys <= KeysOf(t)
    ensures Inv(Send(s, t, Listing(t)))
  {
    KeysCount(t);
    assert s.world.contacts.Keys + KeysOf(t) == KeysOf(t);
    TakeAllKeepsLinked(s.world, Listing(t));
    ListingPresses(s.world, t);
    ListingShows(s.world, t);
  }

  lemma FlushInv(s: Hand)
    requires Inv(s)
    ensures Inv(Flush(s)) && !Flush(s).moved && Flush(s).table == s.table
  {
    if s.moved {
      SendListing(s, s.table);
    }
  }

  /** The fingers' keys are their ids. */
  lemma SameKeys(t: Table, ids: set<int>)
    requires IdsOf(t) == ids
    ensures KeysOf(t) == set id | id in ids :: Touched(id)
  {
    assert forall f :: f in t ==> f.id in ids;
    assert forall id :: id in ids ==> exists f :: f in t && f.id == id;
  }

  /** The id that a press of a known pointer gives up. */
  function Lost(t: Table, pointer: int): set<int> {
    if Has(t, pointer) then {t[IndexOf(t, pointer)].id} else {}
  }

  lemma DownKeys(t: Table, pointer: int, x: real, y: real, pressure: real)
    requires Valid(t) && 0.0 < pressure <= 1.0 && FreeId(t).Some?
    ensures Valid(Down(t, pointer, x, y, pressure))
    ensures KeysOf(Down(t, pointer, x, y, pressure)) ==
            set id | id in IdsOf(t) - Lost(t, pointer) + {FreeId(t).value} :: Touched(id)
  {
    PutKeepsValid(t, Finger(pointer, FreeId(t).value, x, y, pressure));
    SameKeys(Down(t, pointer, x, y, pressure), IdsOf(t) - Lost(t, pointer) + {FreeId(t).value});
  }

  lemma DownInv(s: Hand, pointer: int, x: real, y: real, pressure: real)
    requires Inv(s) && !Has(s.table, pointer)
    ensures Inv(DoDown(s, pointer, x, y, pressure))
  {
    if FreeId(s.table).Some? {
      DownKeys(s.table, pointer, x, y, TouchPressure(pressure));
      SameKeys(s.table, IdsOf(s.table));
      SendListing(s, Down(s.table, pointer, x, y, TouchPressure(pressure)));
    }
  }

  lemma MoveInv(s: Hand, pointer: int, x: real, y: real, pressure: real)
    requires Inv(s)
    ensures Inv(DoMove(s, pointer, x, y, pressure))
  {
    MoveKeepsValid(s.table, pointer, x, y, TouchPressure(pressure));
    SameKeys(s.table, IdsOf(s.table));
    SameKeys(DoMove(s, pointer, x, y, pressure).table, IdsOf(s.table));
  }

  lemma ExactStays(w: World, v: World, t: Table, keys: set<Key>)
    requires Exact(w, t) && KeptBut(w, v, keys) && KeysOf(t) !! keys
    ensures Exact(v, t)
  {
    forall f | f in t ensures Shows(v, Touched(f.id), f.x, f.y, f.pressure) {
      assert Touched(f.id) in KeysOf(t);
      ShowsStays(w, v, Touched(f.id), f.x, f.y, f.pressure);
    }
  }

  lemma UpKeys(t: Table, pointer: int)
    requires Valid(t) && Has(t, pointer)
    ensures Valid(Up(t, pointer))
    ensures KeysOf(Up(t, pointer)) == KeysOf(t) - {Touched(t[IndexOf(t, pointer)].id)}
  {
    WithoutKeepsValid(t, IndexOf(t, pointer));
    WithoutDropsOneId(t, IndexOf(t, pointer));
    SameKeys(t, IdsOf(t));
    SameKeys(Up(t, pointer), IdsOf(t) - {t[IndexOf(t, pointer)].id});
  }

  lemma UpInv(s: Hand, pointer: int, at: Option<(real, real)>)
    requires Inv(s) && Has(s.table, pointer)
    ensures Inv(DoUp(s, pointer, at))
  {
    var t := Up(s.table, pointer);
    var f := Lifted(s.table[IndexOf(s.table, pointer)], at);
    UpKeys(s.table, pointer);
    KeysCount(s.table);
    assert s.world.contacts.Keys + KeysOf(t) == KeysOf(s.table);
    TakeAllKeepsLinked(s.world, Listing(t));
    ListingPresses(s.world, t);
    ListingShows(s.world, t);
    var u := TakeAll(s.world, Listing(t));
    TakeAllAppend(s.world, Listing(t), [LiftOf(f)]);
    LastLift(u, LiftOf(f));
    ExactStays(u, TakeAll(u, [LiftOf(f)]), t, {Touched(f.id)});
  }

  lemma LastLift(w: World, p: Point)
    requires Linked(w) && p.pressure == 0.0
    ensures var v := TakeAll(w, [p]);
            Linked(v) && v.contacts.Keys == w.contacts.Keys - {Touched(p.id)} && KeptBut(w, v, {Touched(p.id)})
  {
    assert TakeAll(w, [p]) == Take(w, Touched(p.id), p.x, p.y, 0.0);
    LiftsOne(w, Touched(p.id), p.x, p.y);
  }

  lemma LetGoInv(s: Hand)
    requires Inv(s)
    ensures Inv(Do(s, LetGo)) && Do(s, LetGo).world.contacts == map[]
  {
    LetGoEmpties(s.world, s.table);
    NothingDown(TakeAll(s.world, Lifts(s.table)));
  }

  lemma LetGoEmpties(w: World, t: Table)
    requires Linked(w) && w.contacts.Keys == KeysOf(t)
    ensures Linked(TakeAll(w, Lifts(t))) && TakeAll(w, Lifts(t)).contacts.Keys == {}
  {
    TakeAllKeepsLinked(w, Lifts(t));
    LiftsLift(w, t);
  }

  lemma NothingDown(w: World)
    requires Linked(w) && w.contacts.Keys == {}
    ensures Inv(Hand([], false, w)) && w.contacts == map[]
  {
  }

  lemma OthersInv(s: Hand, next: int, shown: map<int, Gestures.Contact>)
    requires Inv(s) && Allowed(s, Others(next, shown))
    ensures Inv(Do(s, Others(next, shown)))
  {
  }

  lemma StepInv(s: Hand, step: Step)
    requires Inv(s) && Allowed(s, step)
    ensures Inv(Do(s, step))
  {
    FlushInv(s);
    match step
    case PointerDown(pointer, x, y, pressure) => DownInv(Flush(s), pointer, x, y, pressure);
    case PointerMove(pointer, x, y, pressure) => MoveInv(s, pointer, x, y, pressure);
    case Frame =>
    case PointerUp(pointer, at) => if Has(s.table, pointer) { UpInv(Flush(s), pointer, at); }
    case LetGo => LetGoInv(s);
    case Others(next, shown) => OthersInv(s, next, shown);
  }

  // Runs

  ghost predicate AllAllowed(s: Hand, steps: seq<Step>)
    decreases |steps|
  {
    steps == [] || (Allowed(s, steps[0]) && AllAllowed(Do(s, steps[0]), steps[1..]))
  }

  function Run(s: Hand, steps: seq<Step>): Hand
    decreases |steps|
  {
    if steps == [] then s else Run(Do(s, steps[0]), steps[1..])
  }

  function Fresh(next: int, shown: map<int, Gestures.Contact>): Hand {
    Hand([], false, World(map[], Screen(next, map[], shown)))
  }

  lemma {:induction false} RunInv(s: Hand, steps: seq<Step>)
    requires Inv(s) && AllAllowed(s, steps)
    ensures Inv(Run(s, steps))
    decreases |steps|
  {
    if steps != [] {
      StepInv(s, steps[0]);
      RunInv(Do(s, steps[0]), steps[1..]);
    }
  }

  /** The identifier of the contact that a finger has on the screen. */
  ghost function ContactOf(s: Hand, f: Finger): int
    requires Matched(s) && f in s.table
  {
    assert Touched(f.id) in KeysOf(s.table);
    s.world.contacts[Touched(f.id)].identifier
  }

  /** After any run the session's contacts on the screen are the fingers of the table, one each; unless a
      move waits for its frame, each is where its finger is and pressed as hard. */
  lemma FingersAreOnTheScreen(next: int, shown: map<int, Gestures.Contact>, steps: seq<Step>)
    requires AllAllowed(Fresh(next, shown), steps)
    ensures var s := Run(Fresh(next, shown), steps);
            && Matched(s)
            && (forall f :: f in s.table ==> ContactOf(s, f) in s.world.screen.owner && ContactOf(s, f) in s.world.screen.shown)
            && (forall f, g :: f in s.table && g in s.table && f != g ==> ContactOf(s, f) != ContactOf(s, g))
            && (forall i :: i in s.world.screen.owner && i in s.world.screen.shown ==>
                  exists f :: f in s.table && ContactOf(s, f) == i)
            && (!s.moved ==> forall f :: f in s.table ==> DrawnAs(s.world.screen.shown, ContactOf(s, f), f))
  {
    RunInv(Fresh(next, shown), steps);
    var s := Run(Fresh(next, shown), steps);
    ContactsAreFingers(s);
    FingersHaveContacts(s);
    forall f | f in s.table && !s.moved ensures DrawnAs(s.world.screen.shown, ContactOf(s, f), f) {
      Gestures.BrowserContactIsThere(ContactOf(s, f), f.x, f.y, f.pressure);
    }
  }

  /** The contact `i` is on the pixel of the finger, pressed as hard. */
  predicate DrawnAs(shown: map<int, Gestures.Contact>, i: int, f: Finger) {
    i in shown && shown[i].identifier == i && Gestures.There(shown[i], f.x, f.y) && Gestures.PressedAs(shown[i], f.pressure)
  }

  lemma FingerHasAContact(s: Hand, f: Finger)
    requires Inv(s) && f in s.table
    ensures ContactOf(s, f) in s.world.screen.owner && s.world.screen.owner[ContactOf(s, f)] == Touched(f.id)
    ensures ContactOf(s, f) in s.world.screen.shown
    ensures !s.moved ==>
              s.world.screen.shown[ContactOf(s, f)] == Gestures.BrowserContact(ContactOf(s, f), f.x, f.y, f.pressure)
  {
    assert Touched(f.id) in KeysOf(s.table);
    assert !s.moved ==> Shows(s.world, Touched(f.id), f.x, f.y, f.pressure);
  }

  lemma FingersDiffer(t: Table, f: Finger, g: Finger)
    requires Valid(t) && f in t && g in t && f != g
    ensures f.id != g.id
  {
    var i :| 0 <= i < |t| && t[i] == f;
    var j :| 0 <= j < |t| && t[j] == g;
    assert i < j || j < i;
  }

  lemma FingersHaveContacts(s: Hand)
    requires Inv(s)
    ensures forall f :: f in s.table ==> ContactOf(s, f) in s.world.screen.owner && ContactOf(s, f) in s.world.screen.shown
    ensures forall f, g :: f in s.table && g in s.table && f != g ==> ContactOf(s, f) != ContactOf(s, g)
    ensures !s.moved ==> forall f :: f in s.table ==>
              s.world.screen.shown[ContactOf(s, f)] == Gestures.BrowserContact(ContactOf(s, f), f.x, f.y, f.pressure)
  {
    forall f | f in s.table
      ensures ContactOf(s, f) in s.world.screen.owner && ContactOf(s, f) in s.world.screen.shown
      ensures !s.moved ==>
                s.world.screen.shown[ContactOf(s, f)] == Gestures.BrowserContact(ContactOf(s, f), f.x, f.y, f.pressure)
    {
      FingerHasAContact(s, f);
    }
    forall f, g | f in s.table && g in s.table && f != g ensures ContactOf(s, f) != ContactOf(s, g) {
      FingerHasAContact(s, f);
      FingerHasAContact(s, g);
      FingersDiffer(s.table, f, g);
    }
  }

  lemma ContactsAreFingers(s: Hand)
    requires Inv(s)
    ensures forall i :: i in s.world.screen.owner && i in s.world.screen.shown ==>
              exists f :: f in s.table && ContactOf(s, f) == i
  {
    forall i | i in s.world.screen.owner && i in s.world.screen.shown ensures exists f :: f in s.table && ContactOf(s, f) == i {
      assert s.world.screen.owner[i] in KeysOf(s.table);
      var f :| f in s.table && Touched(f.id) == s.world.screen.owner[i];
      assert ContactOf(s, f) == i;
    }
  }

  // A pointer that is pressed twice

  /** A press of a pointer that is in the table already gives it a new id and forgets the old one, whose
      contact then stays down: the layers agree after a press exactly when the pointer was up or no id is free. */
  lemma DownMatchesIffNew(s: Hand, pointer: int, x: real, y: real, pressure: real)
    requires Inv(s)
    ensures Matched(Do(s, PointerDown(pointer, x, y, pressure))) <==> !Has(s.table, pointer) || |s.table| == MAX_CONTACTS
  {
    FlushInv(s);
    FreeIffRoom(s.table);
    var u := Flush(s);
    if !Has(s.table, pointer) {
      DownInv(u, pointer, x, y, pressure);
    } else if FreeId(s.table).Some? {
      DownTwiceLosesAnId(u, pointer, x, y, pressure);
    }
  }

  lemma KeysOfTwice(t: Table, pointer: int, x: real, y: real, pressure: real)
    requires Valid(t) && 0.0 < pressure <= 1.0 && Has(t, pointer) && FreeId(t).Some?
    ensures var u := Down(t, pointer, x, y, pressure);
            var lost := Touched(t[IndexOf(t, pointer)].id);
            Valid(u) && lost in KeysOf(t) && lost !in KeysOf(u) && |KeysOf(t) + KeysOf(u)| <= MAX_CONTACTS
  {
    DownKeys(t, pointer, x, y, pressure);
    SameKeys(t, IdsOf(t));
    FreeIffRoom(t);
    KeysCount(t);
    var u := Down(t, pointer, x, y, pressure);
    assert KeysOf(t) + KeysOf(u) == KeysOf(t) + {Touched(FreeId(t).value)};
  }

  lemma DownTwiceLosesAnId(s: Hand, pointer: int, x: real, y: real, pressure: real)
    requires Inv(s) && Has(s.table, pointer) && FreeId(s.table).Some?
    ensures var v := DoDown(s, pointer, x, y, pressure);
            var lost := Touched(s.table[IndexOf(s.table, pointer)].id);
            lost in v.world.contacts.Keys && lost !in KeysOf(v.table)
  {
    KeysOfTwice(s.table, pointer, x, y, TouchPressure(pressure));
    ListingPresses(s.world, Down(s.table, pointer, x, y, TouchPressure(pressure)));
  }

  lemma PressedTwiceStaysDown()
    ensures var s := Run(Fresh(1, map[]), [PointerDown(7, 10.0, 10.0, 0.5), PointerDown(7, 20.0, 20.0, 0.5), PointerUp(7, None)]);
            s.table == [] && s.world.contacts.Keys == {Touched(1)}
  {
    var s0 := Fresh(1, map[]);
    var s1 := Do(s0, PointerDown(7, 10.0, 10.0, 0.5));
    assert IndexOf([], 7) == 0;
    assert s1.table == [Finger(7, 1, 10.0, 10.0, 0.5)];
    assert s1.world.contacts == map[Touched(1) := Held(1, 10.0, 10.0)];
    var s2 := Do(s1, PointerDown(7, 20.0, 20.0, 0.5));
    assert FreeId(s1.table) == Some(2);
    assert s2.table == [Finger(7, 2, 20.0, 20.0, 0.5)];
    assert s2.world.contacts == s1.world.contacts[Touched(2) := Held(2, 20.0, 20.0)];
    var s3 := Do(s2, PointerUp(7, None));
  }

  // The table against what the browser reported

  /** Where a pointer was last, and how hard it pressed. */
  datatype Spot = Spot(x: real, y: real, pressure: real)

  /** A reported pressure counts as far as it lies between 0 and 1; none at all is a full press. */
  function Strength(pressure: real): real {
    if 0.0 < pressure < 1.0 then pressure else 1.0
  }

  /** The pointers that are down after one event, as a browser would list them; the eleventh is ignored. */
  function Seen(down: map<int, Spot>, step: Step): map<int, Spot> {
    match step
    case PointerDown(pointer, x, y, pressure) =>
      if |down| >= 10 then down else down[pointer := Spot(x, y, Strength(pressure))]
    case PointerMove(pointer, x, y, pressure) =>
      if pointer in down then down[pointer := Spot(x, y, Strength(pressure))] else down
    case PointerUp(pointer, _) => down - {pointer}
    case LetGo => map[]
    case _ => down
  }

  function SeenAll(down: map<int, Spot>, steps: seq<Step>): map<int, Spot>
    decreases |steps|
  {
    if steps == [] then down else SeenAll(Seen(down, steps[0]), steps[1..])
  }

  /** The table lists these pointers, each once, where they are. */
  ghost predicate Lists(t: Table, down: map<int, Spot>) {
    && |t| == |down|
    && (forall f :: f in t ==> f.pointer in down && down[f.pointer] == Spot(f.x, f.y, f.pressure))
    && (forall pointer :: pointer in down ==> Has(t, pointer))
  }

  lemma InTable(t: Table, pointer: int)
    ensures Has(t, pointer) <==> exists f :: f in t && f.pointer == pointer
  {
    if f :| f in t && f.pointer == pointer {
      var j :| 0 <= j < |t| && t[j] == f;
    }
  }

  lemma DownLists(t: Table, down: map<int, Spot>, pointer: int, x: real, y: real, pressure: real)
    requires Valid(t) && Lists(t, down) && !Has(t, pointer)
    ensures Lists(Down(t, pointer, x, y, TouchPressure(pressure)), Seen(down, PointerDown(pointer, x, y, pressure)))
  {
    FreeIffRoom(t);
    InTable(t, pointer);
    if FreeId(t).Some? {
      var u := Down(t, pointer, x, y, TouchPressure(pressure));
      assert u == t + [Finger(pointer, FreeId(t).value, x, y, TouchPressure(pressure))];
      assert pointer !in down;
      forall other | other in Seen(down, PointerDown(pointer, x, y, pressure)) ensures Has(u, other) {
        InTable(u, other);
        InTable(t, other);
        if other == pointer { assert u[|t|].pointer == pointer && u[|t|] in u; }
      }
    }
  }

  lemma MoveLists(t: Table, down: map<int, Spot>, pointer: int, x: real, y: real, pressure: real)
    requires Valid(t) && Lists(t, down)
    ensures Lists(Move(t, pointer, x, y, TouchPressure(pressure)), Seen(down, PointerMove(pointer, x, y, pressure)))
  {
    var i := IndexOf(t, pointer);
    InTable(t, pointer);
    if i < |t| {
      var u := Move(t, pointer, x, y, TouchPressure(pressure));
      assert t[i] in t && pointer in down;
      var seen := Seen(down, PointerMove(pointer, x, y, pressure));
      forall f | f in u ensures f.pointer in down && seen[f.pointer] == Spot(f.x, f.y, f.pressure) {
        var j :| 0 <= j < |u| && u[j] == f;
        if j != i { assert t[j] in t && t[j].pointer != pointer; }
      }
      forall other | other in down ensures Has(u, other) {
        assert t[IndexOf(t, other)].pointer == other;
        assert u[IndexOf(t, other)].pointer == other;
      }
    }
  }

  lemma OneLess(down: map<int, Spot>, pointer: int)
    requires pointer in down
    ensures |down - {pointer}| == |down| - 1
  {
    assert (down - {pointer}).Keys == down.Keys - {pointer};
    assert |down| == |down.Keys| && |down - {pointer}| == |(down - {pointer}).Keys|;
  }

  /** The fingers of the rest are the others. */
  lemma OthersStayListed(t: Table, pointer: int)
    requires Valid(t) && Has(t, pointer)
    ensures forall f :: f in Up(t, pointer) ==> f in t && f.pointer != pointer
    ensures forall other :: other != pointer && Has(t, other) ==> Has(Up(t, pointer), other)
  {
    var i := IndexOf(t, pointer);
    var u := Up(t, pointer);
    forall f | f in u ensures f in t && f.pointer != pointer {
      var j :| 0 <= j < |u| && u[j] == f;
      assert f == t[if j < i then j else j + 1];
    }
    forall other | other != pointer && Has(t, other) ensures Has(u, other) {
      var j := IndexOf(t, other);
      assert u[if j < i then j else j - 1] == t[j];
      InTable(u, other);
    }
  }

  lemma UpLists(t: Table, down: map<int, Spot>, pointer: int)
    requires Valid(t) && Lists(t, down) && Has(t, pointer)
    ensures Lists(Up(t, pointer), down - {pointer})
  {
    assert pointer in down by {
      assert t[IndexOf(t, pointer)] in t;
    }
    OneLess(down, pointer);
    OthersStayListed(t, pointer);
  }

  /** What a step makes of the table. */
  lemma TableAfter(s: Hand, step: Step)
    requires Inv(s)
    ensures
      Do(s, step).table ==
        match step
        case PointerDown(pointer, x, y, pressure) => Down(s.table, pointer, x, y, TouchPressure(pressure))
        case PointerMove(pointer, x, y, pressure) => Move(s.table, pointer, x, y, TouchPressure(pressure))
        case PointerUp(pointer, _) => Up(s.table, pointer)
        case LetGo => []
        case _ => s.table
  {
    FlushInv(s);
  }

  lemma UpSeen(t: Table, down: map<int, Spot>, pointer: int)
    requires Valid(t) && Lists(t, down)
    ensures Lists(Up(t, pointer), down - {pointer})
  {
    if Has(t, pointer) {
      UpLists(t, down, pointer);
    } else {
      assert pointer !in down;
      assert down - {pointer} == down;
    }
  }

  lemma StepLists(s: Hand, step: Step, down: map<int, Spot>)
    requires Inv(s) && Allowed(s, step) && Lists(s.table, down)
    ensures Lists(Do(s, step).table, Seen(down, step))
  {
    TableAfter(s, step);
    match step
    case PointerDown(pointer, x, y, pressure) => DownLists(s.table, down, pointer, x, y, pressure);
    case PointerMove(pointer, x, y, pressure) => MoveLists(s.table, down, pointer, x, y, pressure);
    case PointerUp(pointer, _) => UpSeen(s.table, down, pointer);
    case Frame =>
    case LetGo =>
    case Others(_, _) =>
  }

  /** Over every run the table lists exactly the pointers that are down, where the browser last reported them. */
  lemma {:induction false} TableFollowsThePointers(s: Hand, steps: seq<Step>, down: map<int, Spot>)
    requires Inv(s) && AllAllowed(s, steps) && Lists(s.table, down)
    ensures Lists(Run(s, steps).table, SeenAll(down, steps))
    decreases |steps|
  {
    if steps == [] {
    } else {
      StepInv(s, steps[0]);
      StepLists(s, steps[0], down);
      TableFollowsThePointers(Do(s, steps[0]), steps[1..], Seen(down, steps[0]));
    }
  }

  /** A move that changed the table is on the screen after the next frame. */
  lemma FrameShowsTheMove(s: Hand)
    requires Inv(s)
    ensures !Do(s, Frame).moved && Do(s, Frame).table == s.table && Exact(Do(s, Frame).world, s.table)
  {
    FlushInv(s);
  }

  /** A lift is the last point of its message, at the place it is lifted from. */
  lemma LiftIsLast(t: Table, pointer: int, at: Option<(real, real)>)
    requires Valid(t) && Has(t, pointer)
    ensures
      var f, message := t[IndexOf(t, pointer)], UpMessage(t, pointer, at);
      && |message| == |t|
      && message[|t| - 1] == Point(f.id, if at.Some? then at.value.0 else f.x, if at.Some? then at.value.1 else f.y, 0.0)
      && forall i :: 0 <= i < |t| - 1 ==> message[i].pressure > 0.0 && message[i].id != f.id
  {
    UpKeys(t, pointer);
    var message := UpMessage(t, pointer, at);
    forall i | 0 <= i < |t| - 1 ensures message[i].pressure > 0.0 && message[i].id != t[IndexOf(t, pointer)].id {
      assert Touched(Up(t, pointer)[i].id) in KeysOf(Up(t, pointer));
    }
  }
}
