/**
 Writing the portable defaults into a project, all or nothing
 (src/symphony/cli/eject.py).
 */
module Eject {
  import opened FileTree
  import opened Prelude

  datatype Target = Target(path: Path, content: nat, script: bool)

  // ---------------------------------------------------------------------
  // Undoing
  // ---------------------------------------------------------------------

  /**
   Files newest first, then directories newest first: every `rmdir` finds an
   empty directory, and the tree is as it was.
   */
  method RollBack(disk: Disk, files: seq<Path>, dirs: seq<Path>, ghost before: Tree)
    requires WellFormed(before) && Grown(before, disk.tree, files, dirs)
    modifies disk
    ensures disk.tree == before
  {
    hide Grown, WellFormed;
    assert files[..|files|] == files;
    for i := |files| downto 0
      invariant Grown(before, disk.tree, files[..i], dirs)
    {
      FileUndone(before, disk.tree, files[..i + 1], dirs);
      assert files[..i + 1][..i] == files[..i];
      disk.Unlink(files[i]);
    }
    assert dirs[..|dirs|] == dirs && files[..0] == [];
    for i := |dirs| downto 0
      invariant Grown(before, disk.tree, [], dirs[..i])
    {
      LastDirEmpty(before, disk.tree, dirs[..i + 1]);
      assert dirs[..i + 1][..i] == dirs[..i];
      var removed := disk.RemoveDir(dirs[i]);
      assert removed;
    }
    assert dirs[..0] == [];
    NothingGrown(before, disk.tree);
  }

  // ---------------------------------------------------------------------
  // Ejecting
  // ---------------------------------------------------------------------

  /** A target or one of its ancestors. */
  ghost predicate Covered(p: Path, targets: seq<Target>) {
    exists t :: t in targets && p <= t.path
  }

  ghost predicate Holds(t: Tree, target: Target) {
    target.path in t && t[target.path] == File(target.content, target.script)
  }

  ghost predicate Placed(before: Tree, now: Tree, targets: seq<Target>) {
    && (forall p :: p in now ==> p in before || Covered(p, targets))
    && (forall t :: t in targets ==> t.path !in before && Holds(now, t))
    && (forall p :: p in before ==> p in now && now[p] == before[p])
  }

  /** The only changes: the targets, their new parent directories, and the workflow file. */
  ghost predicate Ejected(before: Tree, now: Tree, targets: seq<Target>, workflow: Path, content: nat)
    requires workflow in before && before[workflow].File?
  {
    && (forall p :: p in now <==> p in before || Covered(p, targets))
    && (forall t :: t in targets ==> t.path !in before && Holds(now, t))
    && (forall p :: p in now && p !in before ==> now[p] == Dir || exists t :: t in targets && p == t.path)
    && (forall p :: p in before && p != workflow ==> p in now && now[p] == before[p])
    && workflow in now && now[workflow] == before[workflow].(content := content)
  }

  /** Nothing is at the destination yet, and what there is between it and the base are directories. */
  ghost predicate Acceptable(t: Tree, base: Path, target: Target) {
    && target.path !in t
    && forall n: nat :: |base| < n < |target.path| && target.path[..n] in t ==> t[target.path[..n]] == Dir
  }

  /** Refuse existing destinations, and parents that are not directories. */
  method Preflight(disk: Disk, base: Path, targets: seq<Target>) returns (ok: bool)
    requires forall t :: t in targets ==> base < t.path
    ensures ok <==> forall t :: t in targets ==> Acceptable(disk.tree, base, t)
  {
    for i := 0 to |targets|
      invariant forall j :: 0 <= j < i ==> Acceptable(disk.tree, base, targets[j])
    {
      var path := targets[i].path;
      assert targets[i] in targets;
      if path in disk.tree { return false; }
      for n := |path| - 1 downto |base|
        invariant forall m: nat :: n < m < |path| && path[..m] in disk.tree ==> disk.tree[path[..m]] == Dir
      {
        var parent := path[..n + 1];
        if n + 1 < |path| && parent in disk.tree && disk.tree[parent] != Dir {
          assert !Acceptable(disk.tree, base, targets[i]);
          return false;
        }
      }
    }
    ok := true;
  }

  lemma ParentIsDir(was: Tree, now: Tree, p: Path)
    requires DirsTo(was, p) && p in now && (p in was ==> now[p] == was[p]) && (p !in was ==> now[p] == Dir)
    ensures now[p] == Dir
  {
    assert p[..|p|] == p;
  }

  method PlaceTarget(disk: Disk, t: Target, ghost before: Tree, written: seq<Path>, dirs: seq<Path>)
    returns (written': seq<Path>, dirs': seq<Path>, ok: bool)
    requires WellFormed(disk.tree) && Grown(before, disk.tree, written, dirs) && t.path != []
    modifies disk
    ensures WellFormed(disk.tree) && Grown(before, disk.tree, written', dirs')
    ensures ok ==> written' == written + [t.path] && t.path !in old(disk.tree)
    ensures ok ==> t.path in disk.tree && disk.tree[t.path] == File(t.content, t.script)
    ensures forall p :: p in old(disk.tree) ==> p in disk.tree && disk.tree[p] == old(disk.tree)[p]
    ensures forall p :: p in disk.tree ==> p in old(disk.tree) || p <= t.path
    ensures forall p :: p in disk.tree && p !in old(disk.tree) && p != t.path ==> disk.tree[p] == Dir
    ensures disk.sound && DirsTo(old(disk.tree), Parent(t.path)) && t.path !in old(disk.tree) ==> ok
  {
    hide Grown, WellFormed, DirsTo;
    written' := written;
    dirs', ok := disk.MakeMissing(Parent(t.path), before, written, dirs);
    forall p | p in disk.tree ensures p in old(disk.tree) || p <= t.path {
      assert p <= Parent(t.path) ==> p <= t.path;
    }
    if !ok { return; }
    ghost var was := disk.tree;
    if DirsTo(old(disk.tree), Parent(t.path)) {
      ParentIsDir(old(disk.tree), was, Parent(t.path));
    }
    ok := disk.Create(t.path);
    if !ok { return; }
    GrownFile(before, was, written, dirs', t.path, File(0, false));
    GrownWellFormed(was, t.path, File(0, false));
    written' := written + [t.path];
    ok := Fill(disk, t, before, written', dirs');
  }

  method Fill(disk: Disk, t: Target, ghost before: Tree, written: seq<Path>, dirs: seq<Path>) returns (ok: bool)
    requires WellFormed(disk.tree) && Grown(before, disk.tree, written, dirs) && t.path in written
    requires t.path in disk.tree && disk.tree[t.path] == File(0, false)
    modifies disk
    ensures WellFormed(disk.tree) && Grown(before, disk.tree, written, dirs)
    ensures disk.tree.Keys == old(disk.tree).Keys
    ensures forall p :: p in disk.tree && p != t.path ==> disk.tree[p] == old(disk.tree)[p]
    ensures ok ==> disk.tree[t.path] == File(t.content, t.script)
    ensures disk.sound ==> ok
  {
    hide Grown, WellFormed;
    ghost var was := disk.tree;
    ok := disk.Write(t.path, t.content);
    GrownRewrite(before, was, written, dirs, t.path, disk.tree[t.path]);
    FileRewritten(was, t.path, disk.tree[t.path]);
    assert disk.tree == was[t.path := disk.tree[t.path]];
    if !ok || !t.script { return; }
    was := disk.tree;
    ok := disk.MakeExecutable(t.path);
    GrownRewrite(before, was, written, dirs, t.path, disk.tree[t.path]);
    FileRewritten(was, t.path, disk.tree[t.path]);
    assert disk.tree == was[t.path := disk.tree[t.path]];
  }

  /** No destination is at another, or on the way to it. */
  ghost predicate Apart(targets: seq<Target>) {
    forall i, j :: 0 <= i < j < |targets| ==>
      !(targets[i].path <= targets[j].path) && !(targets[j].path <= targets[i].path)
  }

  /** The destination is free and the way to it is directories or absent. */
  ghost predicate Ready(t: Tree, target: Target) {
    target.path != [] && target.path !in t && DirsTo(t, Parent(target.path))
  }

  lemma AcceptableIsReady(t: Tree, base: Path, target: Target)
    requires WellFormed(t) && base in t && t[base] == Dir && base < target.path && Acceptable(t, base, target)
    ensures Ready(t, target)
  {
    hide WellFormed;
    var up := Parent(target.path);
    forall n: nat | n <= |up| && up[..n] in t ensures t[up[..n]] == Dir {
      assert up[..n] == target.path[..n];
      if n < |base| {
        assert base[..n] == target.path[..n];
        PrefixPresent(t, base, base[..n]);
      } else if n == |base| {
        assert base == target.path[..n];
      }
    }
  }

  lemma ReadyMeans(t: Tree, target: Target)
    requires Ready(t, target)
    ensures target.path != [] && target.path !in t && DirsTo(t, Parent(target.path))
  {
  }

  lemma ApartMeans(targets: seq<Target>, i: nat, j: nat)
    requires Apart(targets) && i < j < |targets|
    ensures !(targets[i].path <= targets[j].path) && !(targets[j].path <= targets[i].path)
  {
  }

  /** Placing a target leaves another, apart from it, ready. */
  lemma StaysReady(was: Tree, now: Tree, t: Target, other: Target)
    requires Ready(was, other) && !(other.path <= t.path) && !(t.path <= other.path)
    requires forall p :: p in was ==> p in now && now[p] == was[p]
    requires forall p :: p in now ==> p in was || p <= t.path
    requires forall p :: p in now && p !in was && p != t.path ==> now[p] == Dir
    ensures Ready(now, other)
  {
    var up := Parent(other.path);
    forall n: nat | n <= |up| && up[..n] in now ensures now[up[..n]] == Dir {
      assert up[..n] <= other.path;
    }
  }

  method Eject(disk: Disk, base: Path, workflow: Path, content: nat, targets: seq<Target>) returns (ok: bool)
    requires WellFormed(disk.tree) && workflow in disk.tree && disk.tree[workflow].File?
    requires forall t :: t in targets ==> base < t.path
    modifies disk
    ensures !ok ==> disk.tree == old(disk.tree)
    ensures ok ==> Ejected(old(disk.tree), disk.tree, targets, workflow, content)
    // Without faults: exactly when no destination exists and the way to each is directories or absent.
    ensures disk.sound && Apart(targets) && base in old(disk.tree) && old(disk.tree)[base] == Dir ==>
              (ok <==> forall t :: t in targets ==> Acceptable(old(disk.tree), base, t))
  {
    hide Grown, WellFormed, Placed, Ejected, Acceptable, Ready, Apart, DirsTo;
    ghost var goes := disk.sound && Apart(targets) && base in disk.tree && disk.tree[base] == Dir;
    ghost var before := disk.tree;
    ok := Preflight(disk, base, targets);
    if !ok { return; }
    var written: seq<Path>, dirs: seq<Path> := [], [];
    GrownStart(before);
    PlacedStart(before);
    if goes {
      forall j | 0 <= j < |targets| ensures Ready(before, targets[j]) {
        assert targets[j] in targets;
        AcceptableIsReady(before, base, targets[j]);
      }
    }
    for i := 0 to |targets|
      invariant ok && WellFormed(disk.tree) && Grown(before, disk.tree, written, dirs)
      invariant Placed(before, disk.tree, targets[..i]) && written == Paths(targets[..i])
      invariant goes ==> forall j :: i <= j < |targets| ==> Ready(disk.tree, targets[j])
    {
      ghost var was := disk.tree;
      assert targets[i] in targets;
      if goes {
        ReadyMeans(disk.tree, targets[i]);
      }
      written, dirs, ok := PlaceTarget(disk, targets[i], before, written, dirs);
      if !ok {
        RollBack(disk, written, dirs, before);
        return;
      }
      if goes {
        forall j | i < j < |targets| ensures Ready(disk.tree, targets[j]) {
          ApartMeans(targets, i, j);
          StaysReady(was, disk.tree, targets[i], targets[j]);
        }
      }
      assert targets[..i + 1] == targets[..i] + [targets[i]];
      PlacedStep(before, was, disk.tree, targets[..i], targets[i]);
      PathsSnoc(targets[..i], targets[i]);
    }
    assert targets[..|targets|] == targets;
    WorkflowKept(before, disk.tree, targets, workflow);
    ghost var placed := disk.tree;
    ok := disk.Replace(workflow, content);
    if !ok {
      RollBack(disk, written, dirs, before);
      return;
    }
    EjectedNow(before, placed, targets, written, dirs, workflow, content);
  }

  ghost function Paths(targets: seq<Target>): seq<Path> {
    seq(|targets|, i requires 0 <= i < |targets| => targets[i].path)
  }

  lemma PathsSnoc(targets: seq<Target>, t: Target)
    ensures Paths(targets + [t]) == Paths(targets) + [t.path]
  {
  }

  lemma PlacedStart(t: Tree)
    ensures Placed(t, t, [])
  {
  }

  lemma CoveredSnoc(p: Path, targets: seq<Target>, t: Target)
    ensures Covered(p, targets + [t]) <==> Covered(p, targets) || p <= t.path
  {
    if Covered(p, targets) {
      var u :| u in targets && p <= u.path;
      assert u in targets + [t];
    }
    assert t in targets + [t];
  }

  lemma PlacedStep(before: Tree, was: Tree, now: Tree, targets: seq<Target>, t: Target)
    requires Placed(before, was, targets) && t.path !in was && Holds(now, t)
    requires forall p :: p in was ==> p in now && now[p] == was[p]
    requires forall p :: p in now ==> p in was || p <= t.path
    ensures Placed(before, now, targets + [t])
  {
    hide Covered;
    forall p | p in now ensures p in before || Covered(p, targets + [t]) {
      CoveredSnoc(p, targets, t);
    }
    forall u | u in targets + [t] ensures u.path !in before && Holds(now, u) {
      if u in targets {
        assert Holds(was, u);
      }
    }
  }

  lemma WorkflowKept(before: Tree, now: Tree, targets: seq<Target>, workflow: Path)
    requires Placed(before, now, targets) && workflow in before && before[workflow].File?
    ensures workflow in now && now[workflow] == before[workflow]
  {
  }

  lemma AncestorPresent(t: Tree, p: Path, q: Path)
    requires WellFormed(t) && q in t && p <= q
    ensures p in t
  {
    hide WellFormed;
    PrefixesPresent(t, q, |p|);
    assert q[..|p|] == p;
  }

  lemma CoveredPresent(placed: Tree, before: Tree, targets: seq<Target>, p: Path)
    requires Placed(before, placed, targets) && WellFormed(placed) && Covered(p, targets)
    ensures p in placed
  {
    hide WellFormed;
    var t :| t in targets && p <= t.path;
    assert Holds(placed, t);
    AncestorPresent(placed, p, t.path);
  }

  lemma NewFilesAreTargets(before: Tree, placed: Tree, targets: seq<Target>, dirs: seq<Path>, p: Path)
    requires Grown(before, placed, Paths(targets), dirs) && p in placed && p !in before && placed[p] != Dir
    ensures exists t :: t in targets && p == t.path
  {
    hide Ordered, Distinct;
    assert p in placed.Keys;
    assert p in SetOf(Paths(targets));
    var j :| 0 <= j < |targets| && Paths(targets)[j] == p;
    assert targets[j] in targets;
  }

  lemma EjectedNow(
      before: Tree, placed: Tree, targets: seq<Target>, written: seq<Path>, dirs: seq<Path>,
      workflow: Path, content: nat)
    requires Placed(before, placed, targets) && WellFormed(placed)
    requires Grown(before, placed, written, dirs) && written == Paths(targets)
    requires workflow in before && before[workflow].File?
    ensures Ejected(before, placed[workflow := placed[workflow].(content := content)], targets, workflow, content)
  {
    hide WellFormed, Covered, Grown, Paths;
    forall p | Covered(p, targets) ensures p in placed {
      CoveredPresent(placed, before, targets, p);
    }
    forall p | p in placed && p !in before && placed[p] != Dir ensures exists t :: t in targets && p == t.path {
      NewFilesAreTargets(before, placed, targets, dirs, p);
    }
  }

  // ---------------------------------------------------------------------
  // Filling in missing settings
  // ---------------------------------------------------------------------

  datatype Setting = Value(id: nat) | Section(entries: map<string, Setting>)

  /** Keys whose existing sections are left as the user wrote them. */
  predicate Whole(key: string) { key == "stages" || key == "state_descriptions" }

  /** What a key holds after filling. */
  function FilledAt(target: Setting, defaults: Setting, key: string): Setting
    requires target.Section? && defaults.Section? && key in target.entries.Keys + defaults.entries.Keys
    decreases defaults, 0
  {
    if key !in defaults.entries then target.entries[key]
    else if key in target.entries then
      if !Whole(key) && target.entries[key].Section? && defaults.entries[key].Section?
      then Filled(target.entries[key], defaults.entries[key])
      else target.entries[key]
    else if defaults.entries[key].Section? then Filled(Section(map[]), defaults.entries[key])
    else defaults.entries[key]
  }

  function Filled(target: Setting, defaults: Setting): (r: Setting)
    requires target.Section? && defaults.Section?
    ensures r.Section? && r.entries.Keys == target.entries.Keys + defaults.entries.Keys
    decreases defaults, 1
  {
    Section(map key | key in target.entries.Keys + defaults.entries.Keys :: FilledAt(target, defaults, key))
  }

  /** Everything `a` says, `b` says too, and no more than that under the whole keys. */
  ghost predicate Extends(a: Setting, b: Setting)
    decreases a
  {
    || a == b
    || (a.Section? && b.Section? &&
        forall key :: key in a.entries ==>
          && key in b.entries && Extends(a.entries[key], b.entries[key])
          && (Whole(key) ==> b.entries[key] == a.entries[key]))
  }

  /** Filling from nothing copies the defaults. */
  lemma {:induction false} FilledFromNothing(defaults: Setting)
    requires defaults.Section?
    ensures Filled(Section(map[]), defaults) == defaults
    decreases defaults
  {
    var r := Filled(Section(map[]), defaults);
    FilledEntries(Section(map[]), defaults);
    forall key | key in defaults.entries ensures r.entries[key] == defaults.entries[key] {
      if defaults.entries[key].Section? {
        FilledFromNothing(defaults.entries[key]);
      }
    }
    assert r.entries == defaults.entries;
  }

  /**
   The user's keys survive, with their values, sections extended at most, and
   those of the whole keys kept exactly.
   */
  lemma {:induction false} FillingKeepsUserKeys(target: Setting, defaults: Setting)
    requires target.Section? && defaults.Section?
    ensures Extends(target, Filled(target, defaults))
    decreases defaults
  {
    hide Whole;
    var r := Filled(target, defaults);
    FilledEntries(target, defaults);
    forall key | key in target.entries ensures Extends(target.entries[key], r.entries[key]) {
      if key in defaults.entries && target.entries[key].Section? && defaults.entries[key].Section? {
        FillingKeepsUserKeys(target.entries[key], defaults.entries[key]);
      }
    }
  }

  lemma {:induction false} FillingIsIdempotent(target: Setting, defaults: Setting)
    requires target.Section? && defaults.Section?
    ensures Filled(Filled(target, defaults), defaults) == Filled(target, defaults)
    decreases defaults
  {
    hide Whole;
    var once := Filled(target, defaults);
    var twice := Filled(once, defaults);
    FilledEntries(target, defaults);
    FilledEntries(once, defaults);
    forall key | key in once.entries ensures twice.entries[key] == once.entries[key] {
      if key in defaults.entries && defaults.entries[key].Section? {
        var d := defaults.entries[key];
        if key in target.entries && target.entries[key].Section? {
          FillingIsIdempotent(target.entries[key], d);
        } else if key !in target.entries {
          FilledFromNothing(d);
          FilledWithItself(d);
        }
      }
    }
    assert twice.entries == once.entries;
  }

  lemma {:induction false} FilledWithItself(d: Setting)
    requires d.Section?
    ensures Filled(d, d) == d
    decreases d
  {
    hide Whole;
    var r := Filled(d, d);
    FilledEntries(d, d);
    forall key | key in d.entries ensures r.entries[key] == d.entries[key] {
      if d.entries[key].Section? {
        FilledWithItself(d.entries[key]);
      }
    }
    assert r.entries == d.entries;
  }

  /** The merge in place: each default is copied, merged into a section of the user's, or passed over. */
  method FillMissing(target: Setting, defaults: Setting) returns (filled: Setting)
    requires target.Section? && defaults.Section?
    ensures filled == Filled(target, defaults)
    decreases defaults, 1
  {
    hide Whole, Filled, FilledAt, PartlyFilled;
    var entries := target.entries;
    var left := defaults.entries.Keys;
    PartlyFilledStart(target, defaults);
    while left != {}
      invariant left <= defaults.entries.Keys && PartlyFilled(target, defaults, entries, left)
      decreases |left|
    {
      var key :| key in left;
      var value := FillKey(target, defaults, key);
      PartlyFilledStep(target, defaults, entries, left, key);
      left := left - {key};
      entries := entries[key := value];
    }
    PartlyFilledEnd(target, defaults, entries);
    filled := Section(entries);
  }

  ghost predicate PartlyFilled(target: Setting, defaults: Setting, entries: map<string, Setting>, left: set<string>)
    requires target.Section? && defaults.Section?
  {
    && left <= defaults.entries.Keys
    && entries.Keys == target.entries.Keys + (defaults.entries.Keys - left)
    && forall key :: key in entries ==>
         entries[key] == if key in left then target.entries[key] else FilledAt(target, defaults, key)
  }

  lemma PartlyFilledStart(target: Setting, defaults: Setting)
    requires target.Section? && defaults.Section?
    ensures PartlyFilled(target, defaults, target.entries, defaults.entries.Keys)
  {
    hide Filled;
  }

  lemma PartlyFilledStep(
      target: Setting, defaults: Setting, entries: map<string, Setting>, left: set<string>, key: string)
    requires target.Section? && defaults.Section? && key in left
    requires PartlyFilled(target, defaults, entries, left)
    ensures PartlyFilled(target, defaults, entries[key := FilledAt(target, defaults, key)], left - {key})
  {
    hide FilledAt;
  }

  lemma PartlyFilledEnd(target: Setting, defaults: Setting, entries: map<string, Setting>)
    requires target.Section? && defaults.Section? && PartlyFilled(target, defaults, entries, {})
    ensures Section(entries) == Filled(target, defaults)
  {
    hide FilledAt;
    assert entries == Filled(target, defaults).entries;
  }

  method FillKey(target: Setting, defaults: Setting, key: string) returns (value: Setting)
    requires target.Section? && defaults.Section? && key in defaults.entries
    ensures value == FilledAt(target, defaults, key)
    decreases defaults, 0
  {
    hide Whole, Filled;
    value := defaults.entries[key];
    if key in target.entries {
      if !Whole(key) && target.entries[key].Section? && value.Section? {
        value := FillMissing(target.entries[key], value);
      } else {
        value := target.entries[key];
      }
    } else if value.Section? {
      value := FillMissing(Section(map[]), value);
    }
  }

  lemma FilledEntries(target: Setting, defaults: Setting)
    requires target.Section? && defaults.Section?
    ensures forall key :: key in target.entries.Keys + defaults.entries.Keys ==>
              Filled(target, defaults).entries[key] == FilledAt(target, defaults, key)
  {
  }

  // ---------------------------------------------------------------------
  // Which defaults arrive
  // ---------------------------------------------------------------------

  /** What the settings hold at the end of a way of keys. */
  function Lookup(s: Setting, way: seq<string>): Option<Setting>
    decreases |way|
  {
    if |way| == 0 then Some(s)
    else if s.Section? && way[0] in s.entries then Lookup(s.entries[way[0]], way[1..]) else None
  }

  /** Nothing the user wrote stands on the way: no value, and no section that is left as written. */
  predicate Open(s: Setting, way: seq<string>)
    decreases |way|
  {
    |way| == 0 || !(s.Section? && way[0] in s.entries)
    || (way[0] != "stages" && way[0] != "state_descriptions"
        && s.entries[way[0]].Section? && Open(s.entries[way[0]], way[1..]))
  }

  /** Every default arrives unless something the user wrote stands in its way; then what the user wrote stays. */
  lemma {:induction false} DefaultArrivesIff(target: Setting, defaults: Setting, way: seq<string>)
    requires target.Section? && defaults.Section? && |way| > 0
    requires Lookup(defaults, way).Some? && Lookup(defaults, way).value.Value? && Lookup(target, way).None?
    ensures Lookup(Filled(target, defaults), way) == (if Open(target, way) then Lookup(defaults, way) else None)
    decreases |way|
  {
    var key, rest := way[0], way[1..];
    FilledEntries(target, defaults);
    if key !in target.entries {
      if defaults.entries[key].Section? {
        FilledFromNothing(defaults.entries[key]);
      }
    } else if !Whole(key) && target.entries[key].Section? && defaults.entries[key].Section? {
      DefaultArrivesIff(target.entries[key], defaults.entries[key], rest);
    }
  }
}
