/** First-boot data safety: the record of the AVD in memory, its copy on disk and the marker file
    inside the AVD directory. The daemon can be killed between any two writes, saves can fail, and
    a user can put another directory in place of the AVD. */
module FirstBoot {
  import opened Wrappers

  /** The file `appliance-first-boot`; a kill in the middle of its write leaves it torn. */
  datatype MarkerFile = NoMarker | TornMarker | Marker(m: nat)

  /** An AVD directory that holds files. The last four fields are its history: the marker that
      `create` gave to it when it was empty, whether a guest completed its boot on it, whether
      `_booted` persisted that or removed the marker, and whether it was adopted. */
  datatype Dir = Dir(config: bool, marker: MarkerFile, other: bool,
                     origin: Option<nat>, booted: bool, kept: bool, adopted: bool)

  datatype Record = Record(name: nat, created: bool, booted: bool, marker: Option<nat>)

  /** Where the daemon is: down, between starts, at one of the writes of `_prepare`, in a boot, or
      at one of the writes of `_booted`. */
  datatype Place =
    | Down | Ready
    | Deleting(m: nat) | Removing | Creating(empty: bool) | Renaming(empty: bool) | Marking | Signing(m: nat)
    | Recording(record: Record) | Persisting
    | Launched | BootSaving | BootUnlinking

  datatype World = World(dirs: map<nat, Dir>, disk: Option<Record>, mem: Option<Record>, cfg: nat,
                         issued: nat, place: Place, deleted: seq<Dir>)

  const EMPTY := World(map[], None, None, 0, 0, Down, [])

  predicate Exists(w: World) {
    w.cfg in w.dirs && w.dirs[w.cfg].config
  }

  predicate HasMarker(w: World, m: nat) {
    w.cfg in w.dirs && w.dirs[w.cfg].marker == Marker(m)
  }

  /** The record that `_prepare` finds for the configured name. */
  function Found(w: World): Option<Record> {
    if w.mem.Some? && w.mem.value.name == w.cfg then w.mem else None
  }

  /** A record that calls for a fresh first boot. */
  predicate Unbooted(record: Option<Record>) {
    record.Some? && record.value.created && !record.value.booted
  }

  /** No file is in the directory; a removal that was cut off can leave it so. */
  predicate Empty(dir: Dir) {
    !dir.config && dir.marker == NoMarker && !dir.other
  }

  /** `create` finds no directory, or an empty one. */
  predicate Fresh(w: World) {
    w.cfg !in w.dirs || Empty(w.dirs[w.cfg])
  }

  function SetDir(w: World, dir: Dir): World {
    w.(dirs := w.dirs[w.cfg := dir])
  }

  /** The first decision of `_prepare`: delete, create, adopt or keep. */
  function Decide(w: World): World {
    var record := Found(w);
    if Exists(w) && Unbooted(record) then
      if record.value.marker.Some? && HasMarker(w, record.value.marker.value) then
        w.(place := Deleting(record.value.marker.value))
      else
        Adopt(w)
    else if !Exists(w) then w.(place := Creating(Fresh(w)))
    else if record.None? then Adopt(w)
    else w.(place := Recording(record.value))
  }

  function Adopt(w: World): World
    requires Exists(w)
  {
    SetDir(w, w.dirs[w.cfg].(adopted := true)).(place := Recording(Record(w.cfg, false, true, None)))
  }

  /** The next write of `_prepare`. */
  function Proceed(w: World): World {
    match w.place
    case Deleting(m) =>
      if HasMarker(w, m) then w.(place := Removing, deleted := w.deleted + [w.dirs[w.cfg]]) else w.(place := Ready)
    case Removing => w.(dirs := w.dirs - {w.cfg}, place := Creating(true))
    case Creating(empty) =>
      // the temporary file of config.ini
      var dir := if !empty && w.cfg in w.dirs then w.dirs[w.cfg].(other := true) else Dir(false, NoMarker, true, None, false, false, false);
      SetDir(w, dir).(place := Renaming(empty))
    case Renaming(empty) =>
      if w.cfg !in w.dirs then w else
      SetDir(w, w.dirs[w.cfg].(config := true)).(place := if empty then Marking else Recording(Record(w.cfg, false, false, None)))
    case Marking =>
      if w.cfg !in w.dirs then w else
      SetDir(w, w.dirs[w.cfg].(marker := TornMarker)).(issued := w.issued + 1, place := Signing(w.issued))
    case Signing(m) =>
      if w.cfg !in w.dirs then w else
      SetDir(w, w.dirs[w.cfg].(marker := Marker(m), origin := Some(m))).(place := Recording(Record(w.cfg, true, false, Some(m))))
    case Recording(record) => w.(mem := Some(record), place := Persisting)
    case _ => w
  }

  /** `StateStore.save`; a record that says "booted" protects the directory once it is on disk. */
  function Saved(w: World, ok: bool): World {
    if !ok then w else
    var w := w.(disk := w.mem);
    if w.mem.Some? && w.mem.value.booted && w.mem.value.name == w.cfg && w.cfg in w.dirs then
      SetDir(w, w.dirs[w.cfg].(kept := true))
    else
      w
  }

  /** The guest reports its boot: `_booted` up to its first write. */
  function GuestBoots(w: World): World {
    var w := if w.cfg in w.dirs then SetDir(w, w.dirs[w.cfg].(booted := true)) else w;
    if w.mem.Some? && !w.mem.value.booted then
      w.(mem := Some(w.mem.value.(booted := true, marker := None)), place := BootSaving)
    else
      w.(place := Ready)
  }

  function Unlinked(w: World, ok: bool): World {
    if ok && w.cfg in w.dirs then SetDir(w, w.dirs[w.cfg].(marker := NoMarker, kept := true)) else w
  }

  /** A part of the files goes before the rest. */
  function RemoveSome(w: World, config: bool, marker: bool, other: bool): World {
    if w.cfg !in w.dirs then w else
    var dir := w.dirs[w.cfg];
    SetDir(w, dir.(config := dir.config && config, marker := if marker then dir.marker else NoMarker, other := dir.other && other))
  }

  datatype Step =
    | StartDaemon(name: nat) | Kill | LoseStateFile | Save(ok: bool)
    | Prepare | Next | RemovePart(config: bool, marker: bool, other: bool) | PrepareFails
    | Persist(ok: bool, launches: bool)
    | BootGivesUp | BootCompletes | BootSaved(ok: bool) | BootUnlinked(ok: bool)
    | UserReplaces(name: nat, dir: Option<Dir>)

  predicate InPrepare(place: Place) {
    !place.Down? && !place.Ready? && !place.Persisting? && !place.Launched? && !place.BootSaving? && !place.BootUnlinking?
  }

  predicate Live(record: Option<Record>, m: nat) {
    Unbooted(record) && record.value.marker == Some(m)
  }

  /** The marker of a record in memory or on disk that still calls for a first boot. */
  predicate Recorded(w: World, m: nat) {
    Live(w.mem, m) || Live(w.disk, m)
  }

  predicate Enabled(w: World, step: Step) {
    match step
    case StartDaemon(_) => w.place.Down?
    case Kill => !w.place.Down?
    case LoseStateFile => true
    case Save(_) => w.place.Ready? || w.place.Launched?
    case Prepare => w.place.Ready?
    case Next => InPrepare(w.place)
    case RemovePart(_, _, _) => w.place.Removing?
    case PrepareFails => InPrepare(w.place)
    case Persist(_, _) => w.place.Persisting?
    case BootGivesUp => w.place.Launched?
    case BootCompletes => w.place.Launched?
    case BootSaved(_) => w.place.BootSaving?
    case BootUnlinked(_) => w.place.BootUnlinking?
    case UserReplaces(name, dir) =>
      // The marker of another AVD is not a recorded one, and nobody guesses the next one.
      && !InPrepare(w.place)
      && (dir.Some? && dir.value.marker.Marker? ==> dir.value.marker.m < w.issued && !Recorded(w, dir.value.marker.m))
  }

  function Apply(w: World, step: Step): World
    requires Enabled(w, step)
  {
    match step
    case StartDaemon(name) => w.(cfg := name, mem := w.disk, place := Ready)
    case Kill => w.(mem := None, place := Down)
    case LoseStateFile => w.(disk := None)
    case Save(ok) => Saved(w, ok)
    case Prepare => Decide(w)
    case Next => Proceed(w)
    case RemovePart(config, marker, other) => RemoveSome(w, config, marker, other)
    case PrepareFails => w.(place := Ready)
    case Persist(ok, launches) => Saved(w, ok).(place := if launches then Launched else Ready)
    case BootGivesUp => w.(place := Ready)
    case BootCompletes => GuestBoots(w)
    case BootSaved(ok) => Saved(w, ok).(place := BootUnlinking)
    case BootUnlinked(ok) => Unlinked(w, ok).(place := Ready)
    case UserReplaces(name, dir) => w.(dirs := if dir.Some? then w.dirs[name := dir.value] else w.dirs - {name})
  }

  // The invariant

  /** What a live record promises about the directory that carries its marker. */
  predicate Matches(name: nat, n: nat, dir: Dir, m: nat) {
    dir.marker == Marker(m) ==> n == name && dir.origin == Some(m) && !dir.kept && !dir.adopted
  }

  ghost predicate RecordInv(w: World, record: Option<Record>) {
    Unbooted(record) && record.value.marker.Some? ==>
      && record.value.marker.value < w.issued
      && forall n :: n in w.dirs ==> Matches(record.value.name, n, w.dirs[n], record.value.marker.value)
  }

  /** The configured directory does not carry the marker that is still live on disk. */
  ghost predicate Orphaned(w: World) {
    w.cfg in w.dirs && Unbooted(w.disk) && w.disk.value.name == w.cfg && w.disk.value.marker.Some? ==>
      w.dirs[w.cfg].marker != Marker(w.disk.value.marker.value)
  }

  /** Memory is the disk, or newer than it: then a directory that the disk would delete is either
      gone or known in memory as one to keep. */
  ghost predicate MemInv(w: World) {
    || w.mem == w.disk
    || Orphaned(w)
    || (w.mem.Some? && w.mem.value.name == w.cfg && !Unbooted(w.mem))
  }

  ghost predicate PlaceInv(w: World) {
    match w.place
    case Deleting(m) => HasMarker(w, m) && Live(w.mem, m)
    case Removing => w.cfg in w.dirs && Unbooted(w.mem)
    case Creating(empty) => !Exists(w) && (empty ==> Fresh(w))
    case Renaming(empty) => w.cfg in w.dirs && (empty ==> w.dirs[w.cfg].marker == NoMarker && New(w.dirs[w.cfg]))
    case Marking => w.cfg in w.dirs && w.dirs[w.cfg].marker == NoMarker && New(w.dirs[w.cfg])
    case Signing(m) => w.cfg in w.dirs && w.dirs[w.cfg].marker == TornMarker && New(w.dirs[w.cfg]) && m < w.issued && Unseen(w, m)
    case Recording(record) => RecordingInv(w, record)
    case Down => true
    case Ready => true
    case _ => w.mem.Some? && w.mem.value.name == w.cfg
  }

  predicate New(dir: Dir) {
    !dir.booted && !dir.kept && !dir.adopted
  }

  ghost predicate Unseen(w: World, m: nat) {
    && !Recorded(w, m)
    && forall n :: n in w.dirs ==> w.dirs[n].marker != Marker(m)
  }

  ghost predicate RecordingInv(w: World, record: Record) {
    && record.name == w.cfg
    && RecordInv(w, Some(record))
    && (Unbooted(Some(record)) ==> Orphaned(w) || w.disk == Some(record))
  }

  ghost predicate Inv(w: World) {
    && (forall n :: n in w.dirs && w.dirs[n].marker.Marker? ==> w.dirs[n].marker.m < w.issued)
    && RecordInv(w, w.mem) && RecordInv(w, w.disk)
    && (if w.place.Down? then w.mem.None? else MemInv(w))
    && PlaceInv(w)
    && (forall i :: 0 <= i < |w.deleted| ==> SafeToDelete(w.deleted[i]))
  }

  /** What is deleted was made by `create`, was never adopted, and never protected by `_booted`. */
  predicate SafeToDelete(dir: Dir) {
    dir.origin.Some? && dir.marker == Marker(dir.origin.value) && !dir.kept && !dir.adopted
  }

  lemma DecideInv(w: World)
    requires Inv(w) && w.place.Ready?
    ensures Inv(Decide(w))
  {
  }

  lemma DeletingInv(w: World)
    requires Inv(w) && (w.place.Deleting? || w.place.Removing?)
    ensures Inv(Proceed(w))
  {
  }

  lemma CreatingInv(w: World)
    requires Inv(w) && (w.place.Creating? || w.place.Renaming? || w.place.Marking?)
    ensures Inv(Proceed(w))
  {
  }

  lemma SigningInv(w: World)
    requires Inv(w) && (w.place.Signing? || w.place.Recording?)
    ensures Inv(Proceed(w))
  {
  }

  lemma SavedInv(w: World, ok: bool, place: Place)
    requires Inv(w) && !w.place.Down? && !InPrepare(w.place)
    requires !InPrepare(place) && !place.Down? && (place.Ready? || !w.place.Ready?)
    ensures Inv(Saved(w, ok).(place := place))
  {
  }

  lemma StepInv(w: World, step: Step)
    requires Inv(w) && Enabled(w, step)
    ensures Inv(Apply(w, step))
  {
    match step {
      case Save(ok) => SavedInv(w, ok, w.place);
      case Prepare => DecideInv(w);
      case Next =>
        if w.place.Deleting? || w.place.Removing? {
          DeletingInv(w);
        } else if w.place.Signing? || w.place.Recording? {
          SigningInv(w);
        } else {
          CreatingInv(w);
        }
      case Persist(ok, launches) => SavedInv(w, ok, if launches then Launched else Ready);
      case BootSaved(ok) => SavedInv(w, ok, BootUnlinking);
      case StartDaemon(_) => DaemonInv(w, step);
      case Kill => DaemonInv(w, step);
      case LoseStateFile => DaemonInv(w, step);
      case BootGivesUp => DaemonInv(w, step);
      case PrepareFails => DaemonInv(w, step);
      case RemovePart(_, _, _) => RemovePartInv(w, step);
      case BootCompletes => BootCompletesInv(w);
      case BootUnlinked(ok) => UnlinkedInv(w, ok);
      case UserReplaces(_, _) => UserReplacesInv(w, step);
    }
  }

  lemma DaemonInv(w: World, step: Step)
    requires Inv(w) && Enabled(w, step)
    requires step.StartDaemon? || step.Kill? || step.LoseStateFile? || step.BootGivesUp? || step.PrepareFails?
    ensures Inv(Apply(w, step))
  {
  }

  lemma RemovePartInv(w: World, step: Step)
    requires Inv(w) && Enabled(w, step) && step.RemovePart?
    ensures Inv(Apply(w, step))
  {
  }

  lemma BootCompletesInv(w: World)
    requires Inv(w) && w.place.Launched?
    ensures Inv(GuestBoots(w))
  {
  }

  lemma UnlinkedInv(w: World, ok: bool)
    requires Inv(w) && w.place.BootUnlinking?
    ensures Inv(Unlinked(w, ok).(place := Ready))
  {
  }

  lemma UserReplacesInv(w: World, step: Step)
    requires Inv(w) && Enabled(w, step) && step.UserReplaces?
    ensures Inv(Apply(w, step))
  {
  }

  // Whole runs

  ghost predicate Run(w: World, steps: seq<Step>, r: World)
    decreases |steps|
  {
    if steps == [] then r == w else Enabled(w, steps[0]) && Run(Apply(w, steps[0]), steps[1..], r)
  }

  lemma {:induction false} RunInv(w: World, steps: seq<Step>, r: World)
    requires Inv(w) && Run(w, steps, r)
    ensures Inv(r)
    decreases |steps|
  {
    if steps != [] {
      StepInv(w, steps[0]);
      RunInv(Apply(w, steps[0]), steps[1..], r);
    }
  }

  lemma {:induction false} RunAppend(w: World, first: seq<Step>, m: World, second: seq<Step>, r: World)
    requires Run(w, first, m) && Run(m, second, r)
    ensures Run(w, first + second, r)
    decreases |first|
  {
    if first == [] {
      assert first + second == second;
    } else {
      assert (first + second)[1..] == first[1..] + second;
      RunAppend(Apply(w, first[0]), first[1..], m, second, r);
    }
  }

  /** An installation before its first start: whatever directories there are, no record exists. */
  ghost predicate Untouched(w: World) {
    && w.place.Down? && w.mem.None? && w.disk.None? && w.deleted == []
    && forall n :: n in w.dirs && w.dirs[n].marker.Marker? ==> w.dirs[n].marker.m < w.issued
  }

  /** The safety of the first boot, over every run with kills, failing saves and replacements. */
  lemma DeletesOnlyItsOwn(w: World, steps: seq<Step>, r: World, i: nat)
    requires Untouched(w) && Run(w, steps, r) && i < |r.deleted|
    ensures SafeToDelete(r.deleted[i])
  {
    RunInv(w, steps, r);
  }

  // One boot at a time

  /** What goes wrong in a `_prepare`: the removal fails with these parts left, or `create` gets no further
      than so many writes. */
  datatype Faults = Faults(left: Option<(bool, bool, bool)>, writes: nat)

  const NO_FAULTS := Faults(None, 4)

  /** The writes of `avd.create`: a file and its name, and the marker in two parts for an empty directory. */
  function Needed(w: World): nat
    requires w.place.Creating?
  {
    if w.place.empty then 4 else 2
  }

  /** The first `n` writes, of at most three. */
  function Begun(w: World, n: nat): World {
    if n == 0 then w
    else if n == 1 then Proceed(w)
    else if n == 2 then Proceed(Proceed(w))
    else Proceed(Proceed(Proceed(w)))
  }

  /** `avd.create`; it fails after `n` writes when it needs more. */
  function Created(w: World, n: nat): World
    requires w.place.Creating?
  {
    if n < Needed(w) then Begun(w, n).(place := Ready)
    else if w.place.empty then Proceed(Begun(w, 3))
    else Begun(w, 2)
  }

  /** `avd.delete` of a directory that has the marker; a removal that fails leaves these parts. */
  function Removed(w: World, left: Option<(bool, bool, bool)>): World
    requires w.cfg in w.dirs
  {
    var w := w.(deleted := w.deleted + [w.dirs[w.cfg]]);
    match left
    case None => w.(dirs := w.dirs - {w.cfg}, place := Creating(true))
    case Some(parts) => RemoveSome(w, parts.0, parts.1, parts.2).(place := Ready)
  }

  /** `_prepare` up to the record that it will store, or up to its failure. */
  function Decided(w: World, f: Faults): World {
    var d := Decide(w);
    var d := if d.place.Deleting? && d.cfg in d.dirs then Removed(d, f.left) else d;
    if d.place.Creating? then Created(d, f.writes) else d
  }

  /** A `_prepare` that nobody kills; it launches unless something fails. */
  function Prepared(w: World, f: Faults, ok: bool, configured: bool): World {
    var d := Decided(w, f);
    if d.place.Ready? then d else Saved(Proceed(d), ok).(place := if configured then Launched else Ready)
  }

  function Nexts(n: nat): seq<Step> {
    if n == 0 then [] else if n == 1 then [Next] else if n == 2 then [Next, Next] else [Next, Next, Next]
  }

  /** Each of the first writes of `create` leads to the next one. */
  lemma WriteFollowsWrite(w: World)
    requires w.place.Creating? || ((w.place.Renaming? || w.place.Marking? || w.place.Signing?) && w.cfg in w.dirs)
    ensures Enabled(w, Next) && Run(w, [Next], Proceed(w)) && w.cfg in Proceed(w).dirs && Proceed(w).cfg == w.cfg
    ensures w.place.Creating? ==> Proceed(w).place == Renaming(w.place.empty)
    ensures w.place.Renaming? ==> if w.place.empty then Proceed(w).place.Marking? else Proceed(w).place.Recording?
    ensures w.place.Marking? ==> Proceed(w).place.Signing?
    ensures w.place.Signing? ==> Proceed(w).place.Recording?
  {
    assert [Next][1..] == [];
  }

  lemma BegunIsARun(w: World, n: nat)
    requires w.place.Creating? && n <= 3 && n <= Needed(w)
    ensures Run(w, Nexts(n), Begun(w, n)) && (n < Needed(w) ==> InPrepare(Begun(w, n).place))
    ensures n == 2 && !w.place.empty ==> Begun(w, n).place.Recording?
    ensures n == 3 ==> Begun(w, n).place.Signing? && w.cfg in Begun(w, n).dirs && Begun(w, n).cfg == w.cfg
  {
    if n > 0 {
      WriteFollowsWrite(w);
      if n > 1 {
        var v := Proceed(w);
        WriteFollowsWrite(v);
        RunAppend(w, [Next], v, [Next], Proceed(v));
        assert [Next] + [Next] == [Next, Next];
        if n > 2 {
          WriteFollowsWrite(Proceed(v));
          RunAppend(w, [Next, Next], Proceed(v), [Next], Proceed(Proceed(v)));
          assert [Next, Next] + [Next] == [Next, Next, Next];
        }
      }
    }
  }

  lemma CreatedIsARun(w: World, n: nat) returns (steps: seq<Step>)
    requires w.place.Creating?
    ensures Run(w, steps, Created(w, n))
    ensures if n < Needed(w) then Created(w, n).place.Ready? else Created(w, n).place.Recording?
  {
    if n < Needed(w) {
      BegunIsARun(w, n);
      RunAppend(w, Nexts(n), Begun(w, n), [PrepareFails], Created(w, n));
      steps := Nexts(n) + [PrepareFails];
    } else if w.place.empty {
      BegunIsARun(w, 3);
      WriteFollowsWrite(Begun(w, 3));
      RunAppend(w, Nexts(3), Begun(w, 3), [Next], Created(w, n));
      steps := Nexts(3) + [Next];
    } else {
      BegunIsARun(w, 2);
      steps := Nexts(2);
    }
  }

  lemma RemovedIsARun(w: World, left: Option<(bool, bool, bool)>) returns (steps: seq<Step>)
    requires w.place.Deleting? && HasMarker(w, w.place.m)
    ensures Run(w, steps, Removed(w, left)) && (Removed(w, left).place.Creating? || Removed(w, left).place.Ready?)
  {
    match left
    case None =>
      steps := [Next, Next];
      assert steps[1..] == [Next] && steps[1..][1..] == [];
    case Some(parts) =>
      var part := RemovePart(parts.0, parts.1, parts.2);
      steps := [Next, part, PrepareFails];
      var r := Apply(Apply(Proceed(w), part), PrepareFails);
      assert r == Removed(w, left);
      assert Run(Apply(Proceed(w), part), [PrepareFails], r);
      assert [part, PrepareFails][1..] == [PrepareFails];
      assert Run(Proceed(w), [part, PrepareFails], r);
      assert steps[1..] == [part, PrepareFails];
  }

  lemma DecidedIsARun(w: World, f: Faults) returns (steps: seq<Step>)
    requires w.place.Ready?
    ensures Run(w, steps, Decided(w, f)) && (Decided(w, f).place.Recording? || Decided(w, f).place.Ready?)
  {
    var d := Decide(w);
    steps := [Prepare];
    assert Run(w, steps, d);
    if d.place.Deleting? {
      var more := RemovedIsARun(d, f.left);
      RunAppend(w, steps, d, more, Removed(d, f.left));
      d, steps := Removed(d, f.left), steps + more;
    }
    if d.place.Creating? {
      var more := CreatedIsARun(d, f.writes);
      RunAppend(w, steps, d, more, Created(d, f.writes));
      steps := steps + more;
    }
  }

  /** A `_prepare`, whatever fails in it, is a run of the protocol. */
  lemma PreparedIsARun(w: World, f: Faults, ok: bool, configured: bool) returns (steps: seq<Step>)
    requires w.place.Ready?
    ensures Run(w, steps, Prepared(w, f, ok, configured))
  {
    steps := DecidedIsARun(w, f);
    if Decided(w, f).place.Recording? {
      var last := [Next, Persist(ok, configured)];
      assert last[1..] == [Persist(ok, configured)];
      RunAppend(w, steps, Decided(w, f), last, Prepared(w, f, ok, configured));
      steps := steps + last;
    }
  }

  /** An interrupted first boot is thrown away and created anew, with a marker of its own. */
  lemma InterruptedBootIsRecreated(w: World, ok: bool)
    requires Inv(w) && w.place.Ready? && Exists(w) && Unbooted(Found(w))
    requires w.mem.value.marker.Some? && HasMarker(w, w.mem.value.marker.value)
    ensures var r := Prepared(w, NO_FAULTS, ok, true);
            && r.deleted == w.deleted + [w.dirs[w.cfg]]
            && r.cfg in r.dirs && New(r.dirs[r.cfg]) && r.dirs[r.cfg].config
            && r.dirs[r.cfg].marker == Marker(w.issued)
            && r.mem == Some(Record(w.cfg, true, false, Some(w.issued)))
            && (forall n :: n in w.dirs && n != w.cfg ==> n in r.dirs && r.dirs[n] == w.dirs[n])
  {
    var d := Decide(w);
    assert d == w.(place := Deleting(w.mem.value.marker.value));
    CreatedAnew(Removed(d, None));
  }

  /** `avd.create` where no file is: a fresh directory with a marker that was never used. */
  lemma CreatedAnew(w: World)
    requires w.place == Creating(true)
    ensures var r := Created(w, 4);
            && r.cfg in r.dirs && New(r.dirs[r.cfg]) && r.dirs[r.cfg].config && r.dirs[r.cfg].marker == Marker(w.issued)
            && r.place == Recording(Record(w.cfg, true, false, Some(w.issued)))
            && r.cfg == w.cfg && r.deleted == w.deleted && r.issued == w.issued + 1 && r.disk == w.disk
            && r.dirs.Keys == w.dirs.Keys + {w.cfg}
            && (forall n :: n in w.dirs && n != w.cfg ==> n in r.dirs && r.dirs[n] == w.dirs[n])
  {
  }

  predicate SameFiles(a: Dir, b: Dir) {
    && a.config == b.config && a.marker == b.marker && a.other == b.other
    && a.origin == b.origin && a.booted == b.booted
  }

  /** The daemon launches; it deleted nothing and touched no file of any AVD. */
  predicate LaunchesUntouched(w: World, r: World) {
    && r.place.Launched? && r.cfg == w.cfg && r.deleted == w.deleted && r.issued == w.issued
    && r.dirs.Keys == w.dirs.Keys && forall n :: n in w.dirs ==> SameFiles(r.dirs[n], w.dirs[n])
  }

  /** The record is in memory, and on disk if the save succeeded. */
  predicate Stores(w: World, r: World, record: Record, ok: bool) {
    r.mem == Some(record) && r.disk == if ok then Some(record) else w.disk
  }

  /** An AVD that exists and that the daemon did not create, or cannot tell from one that it did not create, is
      adopted: it starts as it is, and is recorded as one that booted. */
  lemma ExistingAvdIsAdopted(w: World, ok: bool)
    requires w.place.Ready? && Exists(w)
    requires || w.mem.None? || w.mem.value.name != w.cfg
             || (Unbooted(w.mem) && (w.mem.value.marker.None? || !HasMarker(w, w.mem.value.marker.value)))
    ensures var r := Prepared(w, NO_FAULTS, ok, true);
            LaunchesUntouched(w, r) && Stores(w, r, Record(w.cfg, false, true, None), ok)
  {
  }

  /** An AVD with any other record starts as it is, and keeps its record. */
  lemma RecordedAvdStarts(w: World, ok: bool)
    requires w.place.Ready? && Exists(w) && w.mem.Some? && w.mem.value.name == w.cfg && !Unbooted(w.mem)
    ensures var r := Prepared(w, NO_FAULTS, ok, true);
            LaunchesUntouched(w, r) && Stores(w, r, w.mem.value, ok)
  {
  }

  /** Where there are files but no AVD, one is written around them: they stay, and it is never one to delete. */
  lemma FilesAreKept(w: World, ok: bool)
    requires w.place.Ready? && !Exists(w) && !Fresh(w)
    ensures var r := Prepared(w, NO_FAULTS, ok, true);
            && r.place.Launched? && r.cfg == w.cfg && r.deleted == w.deleted && r.dirs.Keys == w.dirs.Keys
            && r.dirs[w.cfg].config && SameFiles(r.dirs[w.cfg], w.dirs[w.cfg].(config := true, other := true))
            && (forall n :: n in w.dirs && n != w.cfg ==> r.dirs[n] == w.dirs[n])
            && Stores(w, r, Record(w.cfg, false, false, None), ok)
  {
  }

  /** Where there is no file, an AVD is created with a marker of its own, and recorded with it. */
  lemma NewAvdIsCreated(w: World, ok: bool)
    requires w.place.Ready? && Fresh(w)
    ensures var r := Prepared(w, NO_FAULTS, ok, true);
            && r.place.Launched? && r.cfg == w.cfg && r.deleted == w.deleted && r.dirs.Keys == w.dirs.Keys + {w.cfg}
            && r.dirs[w.cfg].config && New(r.dirs[w.cfg]) && HasMarker(r, w.issued) && r.issued == w.issued + 1
            && (forall n :: n in w.dirs && n != w.cfg ==> r.dirs[n] == w.dirs[n])
            && Stores(w, r, Record(w.cfg, true, false, Some(w.issued)), ok)
  {
    var d := w.(place := Creating(true));
    assert Decide(w) == d;
    CreatedAnew(d);
    assert Decided(w, NO_FAULTS) == Created(d, 4);
  }

  /** A boot of an AVD that was not recorded as booted is recorded on disk, when its two writes succeed, and no marker
      is left. A boot of one that was changes neither record nor marker. */
  lemma CompletedBootIsRecorded(w: World)
    requires w.place.Launched? && w.mem.Some? && w.mem.value.name == w.cfg
    ensures !w.mem.value.booted ==>
      var r := Apply(Apply(Apply(w, BootCompletes), BootSaved(true)), BootUnlinked(true));
      && r.mem == Some(w.mem.value.(booted := true, marker := None)) && r.disk == r.mem && r.place.Ready?
      && r.dirs.Keys == w.dirs.Keys && (w.cfg in w.dirs ==> r.dirs[w.cfg].marker == NoMarker)
    ensures w.mem.value.booted ==>
      var r := Apply(w, BootCompletes);
      && r.mem == w.mem && r.disk == w.disk && r.place.Ready?
      && r.dirs.Keys == w.dirs.Keys && (w.cfg in w.dirs ==> r.dirs[w.cfg].marker == w.dirs[w.cfg].marker)
  {
  }

  // A completed boot while its daemon lives

  /** The daemon lives on, and the user leaves the configured AVD alone. */
  predicate Stays(cfg: nat, step: Step) {
    !step.Kill? && !step.StartDaemon? && !(step.UserReplaces? && step.name == cfg)
  }

  /** The step writes the state file, loses it, or removes the marker. */
  predicate Reaches(step: Step) {
    match step
    case Save(ok) => ok
    case BootSaved(ok) => ok
    case Persist(ok, _) => ok
    case BootUnlinked(ok) => ok
    case LoseStateFile => true
    case _ => false
  }

  /** The daemon knows that the configured AVD has booted, and is nowhere near deleting it. */
  predicate Kept(w: World) {
    && Exists(w) && w.dirs[w.cfg].booted
    && w.mem.Some? && w.mem.value.name == w.cfg && w.mem.value.booted
    && (w.place.Ready? || w.place.Launched? || w.place.Persisting? || w.place.BootSaving? || w.place.BootUnlinking?
        || w.place == Recording(w.mem.value))
  }

  lemma KeptStays(w: World, step: Step)
    requires Kept(w) && Enabled(w, step) && Stays(w.cfg, step)
    ensures var r := Apply(w, step);
            && Kept(r) && r.cfg == w.cfg && r.mem == w.mem && r.deleted == w.deleted
            && (!Reaches(step) ==> r.disk == w.disk && r.dirs[w.cfg].marker == w.dirs[w.cfg].marker)
            && (Reaches(step) ==> r.disk == None || r.disk == w.mem || r.dirs[w.cfg].marker == NoMarker)
            && (w.disk == None || w.disk == w.mem ==> r.disk == None || r.disk == w.mem)
            && (w.dirs[w.cfg].marker == NoMarker ==> r.dirs[w.cfg].marker == NoMarker)
  {
  }

  ghost predicate AllStay(cfg: nat, steps: seq<Step>) {
    forall i :: 0 <= i < |steps| ==> Stays(cfg, steps[i])
  }

  ghost predicate SomeReaches(steps: seq<Step>) {
    exists i :: 0 <= i < |steps| && Reaches(steps[i])
  }

  /** Either the disk no longer has the record of before the boot, or the marker is gone. */
  predicate Safe(w: World) {
    Kept(w) && (w.disk == None || w.disk == w.mem || w.dirs[w.cfg].marker == NoMarker)
  }

  /** As long as the daemon lives, a booted AVD stays, and what the disk says changes with the first step
      that reaches it, for good. */
  lemma {:induction false} KeptRun(w: World, steps: seq<Step>, r: World)
    requires Kept(w) && Run(w, steps, r) && AllStay(w.cfg, steps)
    ensures Kept(r) && r.cfg == w.cfg && r.mem == w.mem && r.deleted == w.deleted
    ensures !SomeReaches(steps) ==> r.disk == w.disk && r.dirs[w.cfg].marker == w.dirs[w.cfg].marker
    ensures SomeReaches(steps) || Safe(w) ==> Safe(r)
    decreases |steps|
  {
    if steps != [] {
      var rest := steps[1..];
      assert forall i :: 0 <= i < |rest| ==> rest[i] == steps[i + 1];
      KeptStays(w, steps[0]);
      KeptRun(Apply(w, steps[0]), rest, r);
      assert SomeReaches(steps) <==> Reaches(steps[0]) || SomeReaches(rest) by {
        if Reaches(steps[0]) || SomeReaches(rest) {
          var i :| 0 <= i < |steps| && Reaches(steps[i]);
        }
      }
    }
  }

  /** The daemon is killed, started again for the same AVD, and prepares its start. */
  function NextStart(w: World): World
    requires !w.place.Down?
  {
    Apply(Apply(Apply(w, Kill), StartDaemon(w.cfg)), Prepare)
  }

  /** The record of the first boot is on disk, and the AVD carries its marker. */
  predicate Pending(w: World) {
    Unbooted(w.mem) && w.disk == w.mem && w.mem.value.marker.Some? && HasMarker(w, w.mem.value.marker.value)
  }

  /** The guest completed its first boot. Whatever the daemon does until it is killed, its next start deletes
      the AVD exactly when the record of the first boot was on disk with its marker in the AVD and, until the
      kill, no save succeeded, the state file was not lost and the marker was not removed. */
  lemma LostIffNothingReachedTheDisk(w: World, steps: seq<Step>, r: World)
    requires Inv(w) && w.place.Launched? && Unbooted(w.mem) && Exists(w)
    requires Run(w, [BootCompletes] + steps, r) && AllStay(w.cfg, steps)
    ensures !r.place.Down? && w.cfg in r.dirs && r.dirs[w.cfg].booted && r.deleted == w.deleted
    ensures NextStart(r).place.Deleting? <==> Pending(w) && !SomeReaches(steps)
  {
    var b := Apply(w, BootCompletes);
    assert ([BootCompletes] + steps)[1..] == steps;
    KeptRun(b, steps, r);
    assert b.disk == w.disk && b.dirs[w.cfg].marker == w.dirs[w.cfg].marker;
    RestartDecides(r);
    if SomeReaches(steps) {
      assert Safe(r);
    }
  }

  /** What a restart deletes follows from the disk and the marker alone. */
  lemma RestartDecides(w: World)
    requires Exists(w) && !w.place.Down?
    ensures NextStart(w).place.Deleting? <==>
            && Unbooted(w.disk) && w.disk.value.name == w.cfg
            && w.disk.value.marker.Some? && HasMarker(w, w.disk.value.marker.value)
  {
  }

  /** A completed first boot that is lost: both writes fail, and the daemon is killed at once. */
  lemma BothWritesFail(w: World) returns (r: World)
    requires Inv(w) && w.place.Launched? && Exists(w) && Pending(w)
    ensures Run(w, [BootCompletes] + [BootSaved(false), BootUnlinked(false)], r)
    ensures !r.place.Down? && NextStart(r).place.Deleting? && w.cfg in r.dirs && r.dirs[w.cfg].booted
  {
    var steps := [BootSaved(false), BootUnlinked(false)];
    var b := Apply(w, BootCompletes);
    r := Apply(Apply(b, steps[0]), steps[1]);
    assert steps[1..] == [BootUnlinked(false)] && steps[1..][1..] == [];
    assert Run(b, steps, r);
    assert ([BootCompletes] + steps)[1..] == steps;
    LostIffNothingReachedTheDisk(w, steps, r);
  }

  datatype Deletion = Refused | Gone | Partly

  /** The supervisor's part and avd.py on the files that they change. */
  class Appliance {
    var dirs: map<nat, Dir>
    var disk: Option<Record>
    var mem: Option<Record>
    var cfg: nat
    var issued: nat
    ghost var deleted: seq<Dir>

    ghost function Model(place: Place): World
      reads this
    {
      World(dirs, disk, mem, cfg, issued, place, deleted)
    }

    constructor (dirs: map<nat, Dir>, cfg: nat, issued: nat)
      ensures Model(Ready) == World(dirs, None, None, cfg, issued, Ready, [])
    {
      this.dirs, this.cfg, this.issued := dirs, cfg, issued;
      disk, mem, deleted := None, None, [];
    }

    /** Returns the first-boot marker, or None when the directory already held files; it fails when a write
        does. */
    method Create(writes: nat) returns (made: bool, marker: Option<nat>)
      modifies this`dirs, this`issued
      ensures var from := old(Model(Creating(Fresh(Model(Ready)))));
              && (made <==> writes >= Needed(from))
              && Model(if made then Recording(Record(cfg, marker.Some?, false, marker)) else Ready) == Created(from, writes)
      ensures made ==> (marker.Some? <==> old(Fresh(Model(Ready))))
    {
      var empty := !(cfg in dirs) || (!dirs[cfg].config && dirs[cfg].marker == NoMarker && !dirs[cfg].other);
      WriteConfig(empty, writes);
      if writes < 2 {
        return false, None;
      }
      if !empty {
        return true, None;
      }
      made, marker := WriteMarker(writes - 2);
    }

    /** The file of the configuration, and then its name. */
    method WriteConfig(empty: bool, writes: nat)
      requires empty <==> Fresh(Model(Ready))
      modifies this`dirs
      ensures dirs == Begun(old(Model(Creating(empty))), if writes < 2 then writes else 2).dirs
    {
      if writes > 0 {
        dirs := dirs[cfg := if empty then Dir(false, NoMarker, true, None, false, false, false) else dirs[cfg].(other := true)];
        if writes > 1 {
          dirs := dirs[cfg := dirs[cfg].(config := true)];
        }
      }
    }

    /** The marker file, opened and then written. */
    method WriteMarker(writes: nat) returns (made: bool, marker: Option<nat>)
      requires cfg in dirs
      modifies this`dirs, this`issued
      ensures made <==> writes >= 2
      ensures !made ==> marker == None && Model(Ready) == Begun(old(Model(Marking)), writes).(place := Ready)
      ensures made ==> marker == Some(old(issued)) && Model(Signing(old(issued))).(place := Recording(Record(cfg, true, false, marker)))
                                                      == Begun(old(Model(Marking)), 2)
    {
      marker := None;
      if writes == 0 {
        return false, None;
      }
      var m := issued;
      dirs := dirs[cfg := dirs[cfg].(marker := TornMarker)];
      issued := issued + 1;
      if writes == 1 {
        return false, None;
      }
      dirs := dirs[cfg := dirs[cfg].(marker := Marker(m), origin := Some(m))];
      return true, Some(m);
    }

    /** Refuses a directory that does not carry the marker; a removal that fails leaves some parts. */
    method Delete(marker: nat, left: Option<(bool, bool, bool)>) returns (done: Deletion)
      modifies this`dirs, this`deleted
      ensures done.Refused? <==> !old(cfg in dirs && dirs[cfg].marker == Marker(marker))
      ensures done.Refused? ==> Model(Ready) == old(Model(Ready))
      ensures done.Gone? ==> left.None? && Model(Creating(true)) == Removed(old(Model(Ready)), None)
      ensures done.Partly? ==> left.Some? && Model(Ready) == Removed(old(Model(Ready)), left)
    {
      if !(cfg in dirs && dirs[cfg].marker == Marker(marker)) {
        return Refused;
      }
      var dir := dirs[cfg];
      deleted := deleted + [dir];
      match left
      case None =>
        dirs := dirs - {cfg};
        return Gone;
      case Some(parts) =>
        var rest := dir.(config := dir.config && parts.0, marker := if parts.1 then dir.marker else NoMarker,
                         other := dir.other && parts.2);
        dirs := dirs[cfg := rest];
        return Partly;
    }

    method SaveStore(ok: bool)
      modifies this`disk, this`dirs
      ensures Model(Ready) == Saved(old(Model(Ready)), ok)
    {
      if ok {
        disk := mem;
        if mem.Some? && mem.value.booted && mem.value.name == cfg && cfg in dirs {
          dirs := dirs[cfg := dirs[cfg].(kept := true)];
        }
      }
    }

    method FirstBootDone(ok: bool)
      modifies this`dirs
      ensures Model(Ready) == Unlinked(old(Model(Ready)), ok)
    {
      if ok && cfg in dirs {
        dirs := dirs[cfg := dirs[cfg].(marker := NoMarker, kept := true)];
      }
    }

    /** Delete, create, adopt or keep the AVD; returns the record to store, or None after a failure. */
    method ChooseRecord(f: Faults) returns (record: Option<Record>)
      modifies this`dirs, this`issued, this`deleted
      ensures Model(if record.Some? then Recording(record.value) else Ready) == Decided(old(Model(Ready)), f)
    {
      var found := if mem.Some? && mem.value.name == cfg then mem else None;
      if cfg in dirs && dirs[cfg].config && found.Some? && found.value.created && !found.value.booted {
        if found.value.marker.Some? && dirs[cfg].marker == Marker(found.value.marker.value) {
          var done := Delete(found.value.marker.value, f.left);
          if done.Partly? {
            return None;
          }
        } else {
          found := None;
        }
      }
      if !(cfg in dirs && dirs[cfg].config) {
        var made, marker := Create(f.writes);
        return if made then Some(Record(cfg, marker.Some?, false, marker)) else None;
      }
      if found.None? {
        dirs := dirs[cfg := dirs[cfg].(adopted := true)];
        return Some(Record(cfg, false, true, None));
      }
      return found;
    }

    /** `configured`: whether `avd.configure` succeeds after the save. */
    method PrepareAvd(f: Faults, ok: bool, configured: bool) returns (launches: bool)
      modifies this
      ensures Model(if launches then Launched else Ready) == Prepared(old(Model(Ready)), f, ok, configured)
    {
      var record := ChooseRecord(f);
      if record.None? {
        return false;
      }
      mem := record;
      SaveStore(ok);
      launches := configured;
    }

    method Booted(saved: bool, unlinked: bool)
      modifies this
      ensures var b := GuestBoots(old(Model(Launched)));
              Model(Ready) == if b.place.BootSaving? then Unlinked(Saved(b, saved), unlinked).(place := Ready) else b
    {
      if cfg in dirs {
        dirs := dirs[cfg := dirs[cfg].(booted := true)];
      }
      if mem.Some? && !mem.value.booted {
        mem := Some(mem.value.(booted := true, marker := None));
        SaveStore(saved);
        FirstBootDone(unlinked);
      }
    }
  }
}
